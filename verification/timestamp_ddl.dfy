/**
 The column type of the timestamp field. Each backend's type is a list of
 clauses joined by single spaces: a base keyword, then at most one DEFAULT
 clause, then (MySQL only) `ON UPDATE CURRENT_TIMESTAMP`. The three builders
 below follow the field's own per-backend branches; `TableClauses` is the
 single table-driven assembly they are proved to agree with, except MySQL
 with both `auto_now` and `auto_now_update`, which has a second ON UPDATE.
 */
module TimestampDdl {
  import opened Wrappers
  import opened Strings
  import opened Seqs
  import opened Backends
  import opened TimestampOptions

  const MySqlBase: string := "TIMESTAMP"
  const PostgreSqlBase: string := "TIMESTAMP WITHOUT TIME ZONE"
  const SqliteBase: string := "DATETIME"
  const DefaultCurrentTimestamp: string := "DEFAULT CURRENT_TIMESTAMP"
  const OnUpdateCurrentTimestamp: string := "ON UPDATE CURRENT_TIMESTAMP"

  /**
   The connection's rendering of a non-null default, given its `str()` form:
   the inherited date-time field's database preparation, which this model
   does not interpret.
   */
  type Formatter = string -> string

  // ---------------------------------------------------------------------
  // Clauses
  // ---------------------------------------------------------------------

  /** One clause of a column type. */
  datatype Clause =
    | Keyword(text: string)      // the backend's base type keyword
    | DefaultNow                 // DEFAULT CURRENT_TIMESTAMP
    | DefaultLiteral(sql: string) // DEFAULT followed by a literal
    | OnUpdateNow                // ON UPDATE CURRENT_TIMESTAMP

  /** The text of a clause. */
  function Render(cl: Clause): (r: string)
    ensures cl.DefaultNow? || cl.DefaultLiteral? ==> |r| >= 8 && r[..8] == "DEFAULT "
  {
    match cl
    case Keyword(t) => t
    case DefaultNow => DefaultCurrentTimestamp
    case DefaultLiteral(l) => "DEFAULT " + l
    case OnUpdateNow => OnUpdateCurrentTimestamp
  }

  /** The texts of a list of clauses, in order. */
  function RenderAll(cls: seq<Clause>): (r: seq<string>)
    ensures |r| == |cls|
    ensures forall i :: 0 <= i < |cls| ==> r[i] == Render(cls[i])
    decreases |cls|
  {
    if cls == [] then [] else [Render(cls[0])] + RenderAll(cls[1..])
  }

  lemma {:induction false} RenderAllAppend(a: seq<Clause>, b: seq<Clause>)
    ensures RenderAll(a + b) == RenderAll(a) + RenderAll(b)
  {
    assert RenderAll(a + b) == RenderAll(a) + RenderAll(b) by {
      var l, r := RenderAll(a + b), RenderAll(a) + RenderAll(b);
      assert |l| == |r|;
      forall i | 0 <= i < |l| ensures l[i] == r[i] {
        if i < |a| {
          assert (a + b)[i] == a[i];
        } else {
          assert (a + b)[i] == b[i - |a|];
        }
      }
    }
  }

  /** The column type a list of clauses spells. */
  function TypeText(cls: seq<Clause>): string {
    Join(RenderAll(cls))
  }

  predicate IsDefault(cl: Clause) {
    cl.DefaultNow? || cl.DefaultLiteral?
  }

  predicate NotOnUpdate(cl: Clause) {
    !cl.OnUpdateNow?
  }

  /** The DEFAULT clauses among `cls`. */
  function DefaultClauses(cls: seq<Clause>): seq<Clause> {
    Filter(cls, IsDefault)
  }

  /** `cls` with every ON UPDATE clause removed. */
  function WithoutOnUpdate(cls: seq<Clause>): seq<Clause> {
    Filter(cls, NotOnUpdate)
  }

  // ---------------------------------------------------------------------
  // DEFAULT clauses
  // ---------------------------------------------------------------------

  /** The SQL literal of a declared default: bare `NULL`, or the prepared value in single quotes. */
  function DefaultSql(d: DefaultVal, prep: Formatter): (r: string)
    ensures r == "NULL" <==> d.NullDefault?
    ensures d.Given? ==> |r| >= 2 && r[0] == '\'' && r[|r| - 1] == '\'' && r[1..|r| - 1] == prep(d.text)
  {
    match d
    case NullDefault => "NULL"
    case Given(t) =>
      var r := "'" + prep(t) + "'";
      assert r[1..|r| - 1] == prep(t);
      r
  }

  /**
   The DEFAULT clause the options call for, by priority: `auto_now`, then
   `auto_now_add` (both the current timestamp), then a declared default;
   none when no option claims the DEFAULT.
   */
  function DefaultClauseFor(c: Config, prep: Formatter): (r: Option<Clause>)
    ensures r.Some? ==> IsDefault(r.value)
    ensures r == Some(DefaultNow) <==> c.autoNow || c.autoNowAdd
    ensures r.None? <==> DefaultClaimants(c) == 0
    ensures HasDefault(c) && !c.autoNow && !c.autoNowAdd ==> r == Some(DefaultLiteral(DefaultSql(c.default.value, prep)))
  {
    if c.autoNow then Some(DefaultNow)
    else if c.autoNowAdd then Some(DefaultNow)
    else if HasDefault(c) then Some(DefaultLiteral(DefaultSql(c.default.value, prep)))
    else None
  }

  // ---------------------------------------------------------------------
  // The per-backend builders
  // ---------------------------------------------------------------------

  /**
   MySQL: `TIMESTAMP`; with `auto_now` both the current-timestamp DEFAULT and
   ON UPDATE; else with `auto_now_add` the current-timestamp DEFAULT; else a
   declared default's DEFAULT; then ON UPDATE again when `auto_now_update`.
   */
  function MySqlClauses(c: Config, prep: Formatter): (r: seq<Clause>)
    ensures 1 <= |r| <= 4 && r[0] == Keyword(MySqlBase)
    ensures OnUpdateNow in r <==> c.autoNow || c.autoNowUpdate
    ensures DefaultNow in r <==> c.autoNow || c.autoNowAdd
  {
    var base := [Keyword(MySqlBase)];
    var withDefault :=
      if c.autoNow then base + [DefaultNow, OnUpdateNow]
      else if c.autoNowAdd then base + [DefaultNow]
      else if HasDefault(c) then base + [DefaultLiteral(DefaultSql(c.default.value, prep))]
      else base;
    if c.autoNowUpdate then withDefault + [OnUpdateNow] else withDefault
  }

  /** PostgreSQL: `TIMESTAMP WITHOUT TIME ZONE` and at most one DEFAULT clause; no ON UPDATE. */
  function PostgreSqlClauses(c: Config, prep: Formatter): (r: seq<Clause>)
    ensures 1 <= |r| <= 2 && r[0] == Keyword(PostgreSqlBase)
    ensures OnUpdateNow !in r
    ensures DefaultNow in r <==> c.autoNow || c.autoNowAdd
    ensures !c.autoNow && !c.autoNowAdd ==> (|r| == 2 <==> HasDefault(c))
    ensures !c.autoNow && !c.autoNowAdd && HasDefault(c) ==> r[1] == DefaultLiteral(DefaultSql(c.default.value, prep))
  {
    var spec := [Keyword(PostgreSqlBase)];
    if c.autoNow || c.autoNowAdd then spec + [DefaultNow]
    else if HasDefault(c) then spec + [DefaultLiteral(DefaultSql(c.default.value, prep))]
    else spec
  }

  /** SQLite: `DATETIME` and at most one DEFAULT clause; no ON UPDATE. */
  function SqliteClauses(c: Config, prep: Formatter): (r: seq<Clause>)
    ensures 1 <= |r| <= 2 && r[0] == Keyword(SqliteBase)
    ensures OnUpdateNow !in r
    ensures DefaultNow in r <==> c.autoNow || c.autoNowAdd
    ensures !c.autoNow && !c.autoNowAdd ==> (|r| == 2 <==> HasDefault(c))
    ensures !c.autoNow && !c.autoNowAdd && HasDefault(c) ==> r[1] == DefaultLiteral(DefaultSql(c.default.value, prep))
  {
    var spec := [Keyword(SqliteBase)];
    if c.autoNow || c.autoNowAdd then spec + [DefaultNow]
    else if HasDefault(c) then spec + [DefaultLiteral(DefaultSql(c.default.value, prep))]
    else spec
  }

  function MySqlType(c: Config, prep: Formatter): (r: string)
    ensures MySqlBase <= r
  {
    JoinStartsWithHead(RenderAll(MySqlClauses(c, prep)));
    TypeText(MySqlClauses(c, prep))
  }

  function PostgreSqlType(c: Config, prep: Formatter): (r: string)
    ensures PostgreSqlBase <= r
  {
    JoinStartsWithHead(RenderAll(PostgreSqlClauses(c, prep)));
    TypeText(PostgreSqlClauses(c, prep))
  }

  function SqliteType(c: Config, prep: Formatter): (r: string)
    ensures SqliteBase <= r
  {
    JoinStartsWithHead(RenderAll(SqliteClauses(c, prep)));
    TypeText(SqliteClauses(c, prep))
  }

  // ---------------------------------------------------------------------
  // The table-driven reference assembly
  // ---------------------------------------------------------------------

  /** A backend's base keyword and whether it supports ON UPDATE. */
  datatype Dialect = Dialect(base: string, onUpdate: bool)

  function DialectOf(b: Backend): (r: Option<Dialect>)
    ensures r.None? <==> b == Other
  {
    match b
    case MySql => Some(Dialect(MySqlBase, true))
    case PostgreSql => Some(Dialect(PostgreSqlBase, false))
    case Sqlite => Some(Dialect(SqliteBase, false))
    case Other => None
  }

  /** The base keyword, the priority DEFAULT clause, then ON UPDATE where supported and asked for. */
  function TableClauses(d: Dialect, c: Config, prep: Formatter): seq<Clause> {
    [Keyword(d.base)] + ToSeq(DefaultClauseFor(c, prep))
    + (if d.onUpdate && (c.autoNow || c.autoNowUpdate) then [OnUpdateNow] else [])
  }

  /** The builder the field uses for a supported backend. */
  function Clauses(b: Backend, c: Config, prep: Formatter): seq<Clause>
    requires b != Other
  {
    match b
    case MySql => MySqlClauses(c, prep)
    case PostgreSql => PostgreSqlClauses(c, prep)
    case Sqlite => SqliteClauses(c, prep)
  }

  /**
   Each builder is the table-driven assembly for its backend's dialect; for
   MySQL this needs `auto_now` and `auto_now_update` not both set, which the
   check rules out.
   */
  lemma BuildersMatchDialectTable(b: Backend, c: Config, prep: Formatter)
    requires b != Other
    requires b == MySql ==> !(c.autoNow && c.autoNowUpdate)
    ensures Clauses(b, c, prep) == TableClauses(DialectOf(b).value, c, prep)
  {
  }

  /**
   With `auto_now` and `auto_now_update` both set, the MySQL builder is the
   table-driven assembly with a second ON UPDATE appended.
   */
  lemma UncheckedMySqlMatchesDialectTable(c: Config, prep: Formatter)
    requires c.autoNow && c.autoNowUpdate
    ensures MySqlClauses(c, prep) == TableClauses(DialectOf(MySql).value, c, prep) + [OnUpdateNow]
  {
  }

  // ---------------------------------------------------------------------
  // Properties of the clause lists
  // ---------------------------------------------------------------------

  /** A keyword, some DEFAULT clauses, then no DEFAULT clause: the DEFAULT clauses are the middle part. */
  lemma DefaultsOfShape(k: Clause, dflt: seq<Clause>, tail: seq<Clause>)
    requires !IsDefault(k)
    requires forall x :: x in dflt ==> IsDefault(x)
    requires forall x :: x in tail ==> !IsDefault(x)
    ensures DefaultClauses([k] + dflt + tail) == dflt
  {
    FilterAppend([k] + dflt, tail, IsDefault);
    FilterAppend([k], dflt, IsDefault);
    FilterSingleton(k, IsDefault);
    FilterKeepsAll(dflt, IsDefault);
    FilterDropsAll(tail, IsDefault);
  }

  /** Every builder emits exactly the DEFAULT clause the priority rule picks, and no other. */
  lemma DefaultClausesFollowPriority(c: Config, prep: Formatter)
    ensures DefaultClauses(MySqlClauses(c, prep)) == ToSeq(DefaultClauseFor(c, prep))
    ensures DefaultClauses(PostgreSqlClauses(c, prep)) == ToSeq(DefaultClauseFor(c, prep))
    ensures DefaultClauses(SqliteClauses(c, prep)) == ToSeq(DefaultClauseFor(c, prep))
  {
    var dflt := ToSeq(DefaultClauseFor(c, prep));
    MySqlShape(c, prep);
    PostgreSqlShape(c, prep);
    SqliteShape(c, prep);
    DefaultsOfShape(Keyword(MySqlBase), dflt, MySqlOnUpdates(c));
    assert PostgreSqlClauses(c, prep) == [Keyword(PostgreSqlBase)] + dflt + [];
    DefaultsOfShape(Keyword(PostgreSqlBase), dflt, []);
    assert SqliteClauses(c, prep) == [Keyword(SqliteBase)] + dflt + [];
    DefaultsOfShape(Keyword(SqliteBase), dflt, []);
  }

  /**
   Under a valid configuration the MySQL type carries ON UPDATE at most once,
   exactly when `auto_now` or `auto_now_update` asks for it, and as its last clause.
   */
  lemma MySqlOnUpdateOnceAndLast(c: Config, prep: Formatter)
    requires Valid(c)
    ensures var r := MySqlClauses(c, prep);
      && Count(r, OnUpdateNow) == (if c.autoNow || c.autoNowUpdate then 1 else 0)
      && (c.autoNow || c.autoNowUpdate ==> r[|r| - 1] == OnUpdateNow)
  {
    var r := MySqlClauses(c, prep);
    var rest := r[..|r| - 1];
    assert r == rest + [r[|r| - 1]];
    CountAppend(rest, [r[|r| - 1]], OnUpdateNow);
    assert [r[|r| - 1]][1..] == [];
    assert OnUpdateNow !in rest;
  }

  /**
   As written, the MySQL builder emits ON UPDATE twice when both `auto_now`
   and `auto_now_update` are set; only the check keeps that type from being used.
   */
  lemma MySqlOnUpdateTwiceWhenUnchecked(c: Config, prep: Formatter)
    requires c.autoNow && c.autoNowUpdate
    ensures Count(MySqlClauses(c, prep), OnUpdateNow) == 2
  {
    var r := MySqlClauses(c, prep);
    assert r == [Keyword(MySqlBase), DefaultNow] + [OnUpdateNow, OnUpdateNow];
    CountAppend([Keyword(MySqlBase), DefaultNow], [OnUpdateNow, OnUpdateNow], OnUpdateNow);
  }

  /** The ON UPDATE clauses the MySQL builder appends after the DEFAULT clause. */
  function MySqlOnUpdates(c: Config): seq<Clause> {
    (if c.autoNow then [OnUpdateNow] else []) + (if c.autoNowUpdate then [OnUpdateNow] else [])
  }

  lemma MySqlShape(c: Config, prep: Formatter)
    ensures MySqlClauses(c, prep) == [Keyword(MySqlBase)] + ToSeq(DefaultClauseFor(c, prep)) + MySqlOnUpdates(c)
  {
  }

  lemma PostgreSqlShape(c: Config, prep: Formatter)
    ensures PostgreSqlClauses(c, prep) == [Keyword(PostgreSqlBase)] + ToSeq(DefaultClauseFor(c, prep))
  {
  }

  lemma SqliteShape(c: Config, prep: Formatter)
    ensures SqliteClauses(c, prep) == [Keyword(SqliteBase)] + ToSeq(DefaultClauseFor(c, prep))
  {
  }

  /** Dropping ON UPDATE from clauses without it followed by clauses that are all ON UPDATE leaves the former. */
  lemma WithoutOnUpdateOfShape(dflt: seq<Clause>, tail: seq<Clause>)
    requires forall x :: x in dflt ==> NotOnUpdate(x)
    requires forall x :: x in tail ==> !NotOnUpdate(x)
    ensures WithoutOnUpdate(dflt + tail) == dflt
  {
    FilterAppend(dflt, tail, NotOnUpdate);
    FilterKeepsAll(dflt, NotOnUpdate);
    FilterDropsAll(tail, NotOnUpdate);
  }

  /**
   PostgreSQL's and SQLite's clauses are MySQL's with the base keyword
   swapped and every ON UPDATE clause dropped, for every configuration.
   */
  lemma PostgreSqlAndSqliteDropOnUpdate(c: Config, prep: Formatter)
    ensures PostgreSqlClauses(c, prep) == [Keyword(PostgreSqlBase)] + WithoutOnUpdate(MySqlClauses(c, prep)[1..])
    ensures SqliteClauses(c, prep) == [Keyword(SqliteBase)] + WithoutOnUpdate(MySqlClauses(c, prep)[1..])
  {
    var dflt := ToSeq(DefaultClauseFor(c, prep));
    var my := MySqlClauses(c, prep);
    MySqlShape(c, prep);
    PostgreSqlShape(c, prep);
    SqliteShape(c, prep);
    assert my[1..] == dflt + MySqlOnUpdates(c);
    WithoutOnUpdateOfShape(dflt, MySqlOnUpdates(c));
  }

  // ---------------------------------------------------------------------
  // Properties of the type strings
  // ---------------------------------------------------------------------

  /** Each DEFAULT clause's text starts with `DEFAULT `; ON UPDATE's and the keywords' do not. */
  lemma DefaultClausesSpellDefault(cl: Clause)
    requires !cl.Keyword? || cl.text in {MySqlBase, PostgreSqlBase, SqliteBase}
    ensures IsDefault(cl) <==> |Render(cl)| >= 8 && Render(cl)[..8] == "DEFAULT "
  {
    if cl.OnUpdateNow? {
      assert Render(cl)[0] != "DEFAULT "[0];
    } else if cl.Keyword? {
      assert Render(cl)[0] != "DEFAULT "[0] || Render(cl)[1] != "DEFAULT "[1];
    }
  }

  /** Swapping the leading keyword of a clause list swaps the head of its text. */
  lemma TypeTextSwapKeyword(a: string, b: string, rest: seq<Clause>)
    ensures TypeText([Keyword(a)] + rest) == a + TypeText([Keyword(b)] + rest)[|b|..]
  {
    RenderAllAppend([Keyword(a)], rest);
    RenderAllAppend([Keyword(b)], rest);
    assert RenderAll([Keyword(a)]) == [a];
    assert RenderAll([Keyword(b)]) == [b];
    JoinSwapHead(a, b, RenderAll(rest));
  }

  /** Appending a clause appends a space and its text. */
  lemma TypeTextSnoc(cls: seq<Clause>, cl: Clause)
    requires cls != []
    ensures TypeText(cls + [cl]) == TypeText(cls) + (" " + Render(cl))
  {
    RenderAllAppend(cls, [cl]);
    assert RenderAll([cl]) == [Render(cl)];
    JoinSnoc(RenderAll(cls), Render(cl));
  }

  /** Both steps at once: swap the keyword, then append a clause. */
  lemma TypeTextSwapThenSnoc(a: string, b: string, rest: seq<Clause>, cl: Clause)
    ensures TypeText([Keyword(a)] + rest + [cl]) == a + TypeText([Keyword(b)] + rest)[|b|..] + (" " + Render(cl))
  {
    TypeTextSnoc([Keyword(a)] + rest, cl);
    TypeTextSwapKeyword(a, b, rest);
  }

  /** The MySQL type's text up to its ON UPDATE clauses: the PostgreSQL type with the keyword swapped. */
  function MySqlHead(c: Config, prep: Formatter): string
    requires |PostgreSqlBase| <= |PostgreSqlType(c, prep)|
  {
    MySqlBase + PostgreSqlType(c, prep)[|PostgreSqlBase|..]
  }

  lemma MySqlTypeWithoutOnUpdate(c: Config, prep: Formatter)
    requires !c.autoNow && !c.autoNowUpdate
    ensures MySqlType(c, prep) == MySqlHead(c, prep)
  {
    var dflt := ToSeq(DefaultClauseFor(c, prep));
    MySqlShape(c, prep);
    PostgreSqlShape(c, prep);
    assert MySqlClauses(c, prep) == [Keyword(MySqlBase)] + dflt;
    TypeTextSwapKeyword(MySqlBase, PostgreSqlBase, dflt);
  }

  lemma MySqlTypeWithOneOnUpdate(c: Config, prep: Formatter)
    requires c.autoNow != c.autoNowUpdate
    ensures MySqlType(c, prep) == MySqlHead(c, prep) + (" " + OnUpdateCurrentTimestamp)
  {
    var dflt := ToSeq(DefaultClauseFor(c, prep));
    MySqlShape(c, prep);
    PostgreSqlShape(c, prep);
    assert MySqlClauses(c, prep) == [Keyword(MySqlBase)] + dflt + [OnUpdateNow];
    TypeTextSwapThenSnoc(MySqlBase, PostgreSqlBase, dflt, OnUpdateNow);
  }

  lemma MySqlTypeWithTwoOnUpdates(c: Config, prep: Formatter)
    requires c.autoNow && c.autoNowUpdate
    ensures MySqlType(c, prep) == MySqlHead(c, prep) + (" " + OnUpdateCurrentTimestamp) + (" " + OnUpdateCurrentTimestamp)
  {
    var dflt := ToSeq(DefaultClauseFor(c, prep));
    MySqlShape(c, prep);
    PostgreSqlShape(c, prep);
    assert MySqlClauses(c, prep) == [Keyword(MySqlBase)] + dflt + [OnUpdateNow] + [OnUpdateNow];
    TypeTextSwapThenSnoc(MySqlBase, PostgreSqlBase, dflt, OnUpdateNow);
    TypeTextSnoc([Keyword(MySqlBase)] + dflt + [OnUpdateNow], OnUpdateNow);
  }

  /** A text that is `head` followed by `u` once per set flag, in flag order. */
  lemma OptionalSuffixes(head: string, u: string, a: bool, b: bool, m: string)
    requires a && b ==> m == head + u + u
    requires a != b ==> m == head + u
    requires !a && !b ==> m == head
    ensures m == head + (if a then u else "") + (if b then u else "")
  {
    if a && !b {
      assert head + u + "" == head + u;
    } else if !a && b {
      assert head + "" + u == head + u;
    } else if !a && !b {
      assert head + "" + "" == head;
    }
  }

  /**
   The MySQL type string is the PostgreSQL one with `TIMESTAMP WITHOUT TIME
   ZONE` replaced by `TIMESTAMP`, then ` ON UPDATE CURRENT_TIMESTAMP` once for
   `auto_now` and once more for `auto_now_update`, for every configuration.
   */
  lemma MySqlTypeExtendsPostgreSqlType(c: Config, prep: Formatter)
    ensures var onUpdate := " " + OnUpdateCurrentTimestamp;
      var t1 := if c.autoNow then onUpdate else "";
      var t2 := if c.autoNowUpdate then onUpdate else "";
      MySqlType(c, prep) == MySqlBase + PostgreSqlType(c, prep)[|PostgreSqlBase|..] + t1 + t2
  {
    if c.autoNow && c.autoNowUpdate {
      MySqlTypeWithTwoOnUpdates(c, prep);
    } else if c.autoNow || c.autoNowUpdate {
      MySqlTypeWithOneOnUpdate(c, prep);
    } else {
      MySqlTypeWithoutOnUpdate(c, prep);
    }
    OptionalSuffixes(MySqlHead(c, prep), " " + OnUpdateCurrentTimestamp, c.autoNow, c.autoNowUpdate, MySqlType(c, prep));
  }

  // ---------------------------------------------------------------------
  // Dispatch on the connection's engine
  // ---------------------------------------------------------------------

  /**
   The field's column type on a connection with the given engine. The three
   supported engines each get their own builder; any other engine gets the
   inherited date-time type, passed in as `inherited`.
   */
  function DbType(c: Config, engine: string, prep: Formatter, inherited: string): (r: string)
    ensures BackendOf(engine) == Other ==> r == inherited
    ensures BackendOf(engine) != Other && (BackendOf(engine) != MySql || !(c.autoNow && c.autoNowUpdate)) ==>
      r == TypeText(TableClauses(DialectOf(BackendOf(engine)).value, c, prep))
    ensures BackendOf(engine) == MySql && c.autoNow && c.autoNowUpdate ==>
      r == TypeText(TableClauses(DialectOf(MySql).value, c, prep) + [OnUpdateNow])
    ensures engine == MySqlEngine ==> MySqlBase <= r
    ensures engine == PostgreSqlEngine ==> PostgreSqlBase <= r
    ensures engine == SqliteEngine ==> SqliteBase <= r
  {
    var b := BackendOf(engine);
    if b == Other then inherited
    else if b == MySql && c.autoNow && c.autoNowUpdate then
      UncheckedMySqlMatchesDialectTable(c, prep);
      MySqlType(c, prep)
    else if b == MySql then
      BuildersMatchDialectTable(b, c, prep);
      MySqlType(c, prep)
    else if b == PostgreSql then
      BuildersMatchDialectTable(b, c, prep);
      PostgreSqlType(c, prep)
    else
      BuildersMatchDialectTable(b, c, prep);
      SqliteType(c, prep)
  }
}
