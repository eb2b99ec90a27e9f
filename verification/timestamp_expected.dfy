/**
 The expected column types of the timestamp field's test table, one lemma
 per entry; the entries with and without `null` share a lemma through
 `nullable`. A declared default is a date-time whose string form `d` the
 connection is taken to prepare unchanged.
 */
module TimestampExpected {
  import opened Wrappers
  import opened Strings
  import opened TimestampOptions
  import opened TimestampDdl

  // The spelled-out joins of the keywords, one text equation per lemma,
  // each built up by appending one short piece at a time.

  lemma SpelledCreated()
    ensures MySqlBase + " " + DefaultCurrentTimestamp == "TIMESTAMP DEFAULT CURRENT_TIMESTAMP"
  {
    assert MySqlBase + " " == "TIMESTAMP ";
    assert "TIMESTAMP " + "DEFAULT " == "TIMESTAMP DEFAULT ";
    assert DefaultCurrentTimestamp == "DEFAULT " + "CURRENT_TIMESTAMP";
    assert "TIMESTAMP DEFAULT " + "CURRENT_TIMESTAMP" == "TIMESTAMP DEFAULT CURRENT_TIMESTAMP";
  }

  lemma SpelledCreatedAndUpdated()
    ensures MySqlBase + " " + DefaultCurrentTimestamp + " " + OnUpdateCurrentTimestamp
      == "TIMESTAMP DEFAULT CURRENT_TIMESTAMP ON UPDATE CURRENT_TIMESTAMP"
  {
    SpelledCreated();
    assert "TIMESTAMP DEFAULT CURRENT_TIMESTAMP" + " " == "TIMESTAMP DEFAULT CURRENT_TIMESTAMP ";
    assert OnUpdateCurrentTimestamp == "ON UPDATE " + "CURRENT_TIMESTAMP";
    assert "TIMESTAMP DEFAULT CURRENT_TIMESTAMP " + "ON UPDATE " == "TIMESTAMP DEFAULT CURRENT_TIMESTAMP ON UPDATE ";
    assert "TIMESTAMP DEFAULT CURRENT_TIMESTAMP ON UPDATE " + "CURRENT_TIMESTAMP"
      == "TIMESTAMP DEFAULT CURRENT_TIMESTAMP ON UPDATE CURRENT_TIMESTAMP";
  }

  lemma SpelledUpdated()
    ensures MySqlBase + " " + OnUpdateCurrentTimestamp == "TIMESTAMP ON UPDATE CURRENT_TIMESTAMP"
  {
    assert MySqlBase + " " == "TIMESTAMP ";
    assert OnUpdateCurrentTimestamp == "ON UPDATE " + "CURRENT_TIMESTAMP";
    assert "TIMESTAMP " + "ON UPDATE " == "TIMESTAMP ON UPDATE ";
    assert "TIMESTAMP ON UPDATE " + "CURRENT_TIMESTAMP" == "TIMESTAMP ON UPDATE CURRENT_TIMESTAMP";
  }

  lemma SpelledPostgreSqlSpace()
    ensures PostgreSqlBase + " " == "TIMESTAMP WITHOUT TIME ZONE "
  {
    assert PostgreSqlBase == "TIMESTAMP " + "WITHOUT TIME ZONE";
    assert "WITHOUT TIME ZONE" + " " == "WITHOUT TIME ZONE ";
    assert "TIMESTAMP " + "WITHOUT TIME ZONE " == "TIMESTAMP WITHOUT TIME ZONE ";
  }

  lemma SpelledPostgreSqlCreated()
    ensures PostgreSqlBase + " " + DefaultCurrentTimestamp == "TIMESTAMP WITHOUT TIME ZONE DEFAULT CURRENT_TIMESTAMP"
  {
    SpelledPostgreSqlSpace();
    assert DefaultCurrentTimestamp == "DEFAULT " + "CURRENT_TIMESTAMP";
    assert "TIMESTAMP WITHOUT TIME ZONE " + "DEFAULT " == "TIMESTAMP WITHOUT TIME ZONE DEFAULT ";
    assert "TIMESTAMP WITHOUT TIME ZONE DEFAULT " + "CURRENT_TIMESTAMP"
      == "TIMESTAMP WITHOUT TIME ZONE DEFAULT CURRENT_TIMESTAMP";
  }

  lemma SpelledDefault(d: string)
    ensures MySqlBase + " " + ("DEFAULT " + ("'" + d + "'")) == "TIMESTAMP DEFAULT '" + d + "'"
  {
    assert MySqlBase + " " == "TIMESTAMP ";
    assert "TIMESTAMP " + "DEFAULT " == "TIMESTAMP DEFAULT ";
    assert "TIMESTAMP DEFAULT " + "'" == "TIMESTAMP DEFAULT '";
  }

  lemma SpelledDefaultAndUpdated(d: string)
    ensures MySqlBase + " " + ("DEFAULT " + ("'" + d + "'")) + " " + OnUpdateCurrentTimestamp
      == "TIMESTAMP DEFAULT '" + d + "' ON UPDATE CURRENT_TIMESTAMP"
  {
    SpelledDefault(d);
    assert OnUpdateCurrentTimestamp == "ON UPDATE " + "CURRENT_TIMESTAMP";
    assert "'" + " " + "ON UPDATE " == "' ON UPDATE ";
    assert "' ON UPDATE " + "CURRENT_TIMESTAMP" == "' ON UPDATE CURRENT_TIMESTAMP";
  }

  lemma SpelledPostgreSqlDefault(d: string)
    ensures PostgreSqlBase + " " + ("DEFAULT " + ("'" + d + "'")) == "TIMESTAMP WITHOUT TIME ZONE DEFAULT '" + d + "'"
  {
    SpelledPostgreSqlSpace();
    assert "TIMESTAMP WITHOUT TIME ZONE " + "DEFAULT " == "TIMESTAMP WITHOUT TIME ZONE DEFAULT ";
    assert "TIMESTAMP WITHOUT TIME ZONE DEFAULT " + "'" == "TIMESTAMP WITHOUT TIME ZONE DEFAULT '";
  }

  lemma SpelledNullDefault()
    ensures MySqlBase + " " + "DEFAULT NULL" == "TIMESTAMP DEFAULT NULL"
    ensures PostgreSqlBase + " " + "DEFAULT NULL" == "TIMESTAMP WITHOUT TIME ZONE DEFAULT NULL"
    ensures SqliteBase + " " + "DEFAULT NULL" == "DATETIME DEFAULT NULL"
  {
    assert MySqlBase + " " == "TIMESTAMP ";
    assert "TIMESTAMP " + "DEFAULT NULL" == "TIMESTAMP DEFAULT NULL";
    SpelledPostgreSqlSpace();
    assert "TIMESTAMP WITHOUT TIME ZONE " + "DEFAULT NULL" == "TIMESTAMP WITHOUT TIME ZONE DEFAULT NULL";
    assert SqliteBase + " " == "DATETIME ";
    assert "DATETIME " + "DEFAULT NULL" == "DATETIME DEFAULT NULL";
  }

  // Rendering short clause lists.

  lemma RenderOne(a: Clause)
    ensures RenderAll([a]) == [Render(a)]
  {
  }

  lemma RenderTwo(a: Clause, b: Clause)
    ensures RenderAll([a, b]) == [Render(a), Render(b)]
  {
  }

  lemma RenderThree(a: Clause, b: Clause, c: Clause)
    ensures RenderAll([a, b, c]) == [Render(a), Render(b), Render(c)]
  {
  }

  // The table's entries.

  lemma ExpectedAutoNow(nullable: bool, prep: Formatter)
    ensures var c := Config(true, false, false, nullable, None);
      && MySqlType(c, prep) == "TIMESTAMP DEFAULT CURRENT_TIMESTAMP ON UPDATE CURRENT_TIMESTAMP"
      && PostgreSqlType(c, prep) == "TIMESTAMP WITHOUT TIME ZONE DEFAULT CURRENT_TIMESTAMP"
  {
    var c := Config(true, false, false, nullable, None);
    assert MySqlClauses(c, prep) == [Keyword(MySqlBase), DefaultNow, OnUpdateNow];
    RenderThree(Keyword(MySqlBase), DefaultNow, OnUpdateNow);
    assert PostgreSqlClauses(c, prep) == [Keyword(PostgreSqlBase), DefaultNow];
    RenderTwo(Keyword(PostgreSqlBase), DefaultNow);
    JoinThree(MySqlBase, DefaultCurrentTimestamp, OnUpdateCurrentTimestamp);
    JoinTwo(PostgreSqlBase, DefaultCurrentTimestamp);
    SpelledCreatedAndUpdated();
    SpelledPostgreSqlCreated();
  }

  lemma ExpectedAutoNowAdd(nullable: bool, prep: Formatter)
    ensures var c := Config(false, true, false, nullable, None);
      && MySqlType(c, prep) == "TIMESTAMP DEFAULT CURRENT_TIMESTAMP"
      && PostgreSqlType(c, prep) == "TIMESTAMP WITHOUT TIME ZONE DEFAULT CURRENT_TIMESTAMP"
  {
    var c := Config(false, true, false, nullable, None);
    assert MySqlClauses(c, prep) == [Keyword(MySqlBase), DefaultNow];
    RenderTwo(Keyword(MySqlBase), DefaultNow);
    assert PostgreSqlClauses(c, prep) == [Keyword(PostgreSqlBase), DefaultNow];
    RenderTwo(Keyword(PostgreSqlBase), DefaultNow);
    JoinTwo(MySqlBase, DefaultCurrentTimestamp);
    JoinTwo(PostgreSqlBase, DefaultCurrentTimestamp);
    SpelledCreated();
    SpelledPostgreSqlCreated();
  }

  lemma ExpectedAutoNowAddWithUpdate(nullable: bool, prep: Formatter)
    ensures var c := Config(false, true, true, nullable, None);
      && MySqlType(c, prep) == "TIMESTAMP DEFAULT CURRENT_TIMESTAMP ON UPDATE CURRENT_TIMESTAMP"
      && PostgreSqlType(c, prep) == "TIMESTAMP WITHOUT TIME ZONE DEFAULT CURRENT_TIMESTAMP"
  {
    var c := Config(false, true, true, nullable, None);
    assert MySqlClauses(c, prep) == [Keyword(MySqlBase), DefaultNow, OnUpdateNow];
    RenderThree(Keyword(MySqlBase), DefaultNow, OnUpdateNow);
    assert PostgreSqlClauses(c, prep) == [Keyword(PostgreSqlBase), DefaultNow];
    RenderTwo(Keyword(PostgreSqlBase), DefaultNow);
    JoinThree(MySqlBase, DefaultCurrentTimestamp, OnUpdateCurrentTimestamp);
    JoinTwo(PostgreSqlBase, DefaultCurrentTimestamp);
    SpelledCreatedAndUpdated();
    SpelledPostgreSqlCreated();
  }

  lemma ExpectedAutoNowUpdate(nullable: bool, prep: Formatter)
    ensures var c := Config(false, false, true, nullable, None);
      && MySqlType(c, prep) == "TIMESTAMP ON UPDATE CURRENT_TIMESTAMP"
      && PostgreSqlType(c, prep) == "TIMESTAMP WITHOUT TIME ZONE"
  {
    var c := Config(false, false, true, nullable, None);
    assert MySqlClauses(c, prep) == [Keyword(MySqlBase), OnUpdateNow];
    RenderTwo(Keyword(MySqlBase), OnUpdateNow);
    assert PostgreSqlClauses(c, prep) == [Keyword(PostgreSqlBase)];
    RenderOne(Keyword(PostgreSqlBase));
    JoinTwo(MySqlBase, OnUpdateCurrentTimestamp);
    SpelledUpdated();
  }

  lemma ExpectedDefaultWithUpdate(nullable: bool, d: string, prep: Formatter)
    requires prep(d) == d
    ensures var c := Config(false, false, true, nullable, Some(Given(d)));
      && MySqlType(c, prep) == "TIMESTAMP DEFAULT '" + d + "' ON UPDATE CURRENT_TIMESTAMP"
      && PostgreSqlType(c, prep) == "TIMESTAMP WITHOUT TIME ZONE DEFAULT '" + d + "'"
  {
    var c := Config(false, false, true, nullable, Some(Given(d)));
    var clause := DefaultLiteral(DefaultSql(Given(d), prep));
    assert Render(clause) == "DEFAULT " + ("'" + d + "'");
    assert MySqlClauses(c, prep) == [Keyword(MySqlBase), clause, OnUpdateNow];
    RenderThree(Keyword(MySqlBase), clause, OnUpdateNow);
    assert PostgreSqlClauses(c, prep) == [Keyword(PostgreSqlBase), clause];
    RenderTwo(Keyword(PostgreSqlBase), clause);
    JoinThree(MySqlBase, Render(clause), OnUpdateCurrentTimestamp);
    JoinTwo(PostgreSqlBase, Render(clause));
    SpelledDefaultAndUpdated(d);
    SpelledPostgreSqlDefault(d);
  }

  lemma ExpectedDefault(nullable: bool, d: string, prep: Formatter)
    requires prep(d) == d
    ensures var c := Config(false, false, false, nullable, Some(Given(d)));
      && MySqlType(c, prep) == "TIMESTAMP DEFAULT '" + d + "'"
      && PostgreSqlType(c, prep) == "TIMESTAMP WITHOUT TIME ZONE DEFAULT '" + d + "'"
  {
    var c := Config(false, false, false, nullable, Some(Given(d)));
    var clause := DefaultLiteral(DefaultSql(Given(d), prep));
    assert Render(clause) == "DEFAULT " + ("'" + d + "'");
    assert MySqlClauses(c, prep) == [Keyword(MySqlBase), clause];
    RenderTwo(Keyword(MySqlBase), clause);
    assert PostgreSqlClauses(c, prep) == [Keyword(PostgreSqlBase), clause];
    RenderTwo(Keyword(PostgreSqlBase), clause);
    JoinTwo(MySqlBase, Render(clause));
    JoinTwo(PostgreSqlBase, Render(clause));
    SpelledDefault(d);
    SpelledPostgreSqlDefault(d);
  }

  /** A null default renders as the bare `DEFAULT NULL` after the base keyword. */
  lemma NullDefaultClauses(nullable: bool, prep: Formatter)
    ensures var c := Config(false, false, false, nullable, Some(NullDefault));
      && RenderAll(MySqlClauses(c, prep)) == [MySqlBase, "DEFAULT NULL"]
      && RenderAll(PostgreSqlClauses(c, prep)) == [PostgreSqlBase, "DEFAULT NULL"]
      && RenderAll(SqliteClauses(c, prep)) == [SqliteBase, "DEFAULT NULL"]
  {
    var c := Config(false, false, false, nullable, Some(NullDefault));
    var clause := DefaultLiteral(DefaultSql(NullDefault, prep));
    assert Render(clause) == "DEFAULT NULL";
    assert MySqlClauses(c, prep) == [Keyword(MySqlBase), clause];
    RenderTwo(Keyword(MySqlBase), clause);
    assert PostgreSqlClauses(c, prep) == [Keyword(PostgreSqlBase), clause];
    RenderTwo(Keyword(PostgreSqlBase), clause);
    assert SqliteClauses(c, prep) == [Keyword(SqliteBase), clause];
    RenderTwo(Keyword(SqliteBase), clause);
  }

  /** The null-default entry: `DEFAULT NULL` on all three backends. */
  lemma ExpectedNullDefault(nullable: bool, prep: Formatter)
    ensures var c := Config(false, false, false, nullable, Some(NullDefault));
      && MySqlType(c, prep) == "TIMESTAMP DEFAULT NULL"
      && PostgreSqlType(c, prep) == "TIMESTAMP WITHOUT TIME ZONE DEFAULT NULL"
      && SqliteType(c, prep) == "DATETIME DEFAULT NULL"
  {
    NullDefaultClauses(nullable, prep);
    SpelledNullDefault();
    JoinTwo(MySqlBase, "DEFAULT NULL");
    JoinTwo(PostgreSqlBase, "DEFAULT NULL");
    JoinTwo(SqliteBase, "DEFAULT NULL");
  }
}
