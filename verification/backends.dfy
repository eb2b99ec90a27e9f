/**
 The database engines the timestamp field distinguishes. A connection is
 reduced to the engine identifier in its settings; every other engine is
 `Other`, for which the field defers to the inherited column type.
 */
module Backends {

  datatype Backend = MySql | PostgreSql | Sqlite | Other

  const MySqlEngine: string := "django.db.backends.mysql"
  const PostgreSqlEngine: string := "django.db.backends.postgresql"
  const SqliteEngine: string := "django.db.backends.sqlite3"

  /** The backend an engine identifier selects; an exact string comparison. */
  function BackendOf(engine: string): (b: Backend)
    ensures b == MySql <==> engine == MySqlEngine
    ensures b == PostgreSql <==> engine == PostgreSqlEngine
    ensures b == Sqlite <==> engine == SqliteEngine
    ensures b == Other <==> engine !in {MySqlEngine, PostgreSqlEngine, SqliteEngine}
  {
    if engine == MySqlEngine then MySql
    else if engine == PostgreSqlEngine then PostgreSql
    else if engine == SqliteEngine then Sqlite
    else Other
  }
}
