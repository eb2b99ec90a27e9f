/**
 The timestamp field's write-time rule. Just before a record is written the
 field either replaces the attribute's value with the database's "now"
 expression, writing that back to the attribute, or passes the current
 attribute value through untouched.
 */
module TimestampSave {
  import opened TimestampOptions
  import opened TimestampDdl

  /** An attribute value: the opaque "now" expression, or any other value. */
  datatype Written<T> = Now | Held(v: T)

  /** What the write hook returns and what the attribute holds afterwards. */
  datatype Saved<T> = Saved(returned: Written<T>, attribute: Written<T>)

  /** The options that ask for the current time on the first write of a record. */
  predicate NowOnCreate(c: Config) {
    c.autoNow || c.autoNowAdd
  }

  /** The options that ask for the current time on every later write. */
  predicate NowOnUpdate(c: Config) {
    c.autoNow || c.autoNowUpdate
  }

  /**
   The hook, given whether this write adds the record and the attribute's
   current value.
   */
  function PreSave<T>(c: Config, add: bool, current: Written<T>): (r: Saved<T>)
    ensures r.returned == r.attribute
    ensures add && NowOnCreate(c) ==> r.returned == Now
    ensures !add && NowOnUpdate(c) ==> r.returned == Now
    ensures add && !NowOnCreate(c) ==> r.returned == current
    ensures !add && !NowOnUpdate(c) ==> r.returned == current
  {
    if c.autoNow || (c.autoNowUpdate && !add) || (c.autoNowAdd && add) then
      Saved(Now, Now)
    else
      Saved(current, current)
  }

  /** `auto_now` overrides every write, including an explicit caller value. */
  lemma AutoNowAlwaysOverrides<T>(c: Config, add: bool, v: T)
    requires c.autoNow
    ensures PreSave(c, add, Held(v)) == Saved(Now, Now)
  {
  }

  /** With only `auto_now_add`, creation overrides and updates pass the value through. */
  lemma AutoNowAddOnlyOnCreate<T>(c: Config, current: Written<T>)
    requires c.autoNowAdd && !c.autoNow && !c.autoNowUpdate
    ensures PreSave(c, true, current) == Saved(Now, Now)
    ensures PreSave(c, false, current) == Saved(current, current)
  {
  }

  /** With only `auto_now_update`, updates override and creation passes the value through. */
  lemma AutoNowUpdateOnlyOnUpdate<T>(c: Config, current: Written<T>)
    requires c.autoNowUpdate && !c.autoNow && !c.autoNowAdd
    ensures PreSave(c, false, current) == Saved(Now, Now)
    ensures PreSave(c, true, current) == Saved(current, current)
  {
  }

  /**
   The write hook and the column type agree: an update is overridden exactly
   when the MySQL type carries ON UPDATE, and a creation exactly when every
   backend's type has the current timestamp as its DEFAULT.
   */
  lemma PreSaveMatchesColumnType<T>(c: Config, prep: Formatter, v: T)
    ensures PreSave(c, false, Held(v)).returned == Now <==> OnUpdateNow in MySqlClauses(c, prep)
    ensures PreSave(c, true, Held(v)).returned == Now <==> DefaultNow in MySqlClauses(c, prep)
    ensures PreSave(c, true, Held(v)).returned == Now <==> DefaultNow in PostgreSqlClauses(c, prep)
    ensures PreSave(c, true, Held(v)).returned == Now <==> DefaultNow in SqliteClauses(c, prep)
  {
  }
}
