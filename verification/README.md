# django-forcedfields in Dafny

A model of the two ORM field types of django-forcedfields, with proofs about it.

- **FixedCharField.** A text field whose column type is the database's fixed-length `CHAR(n)`.
- **TimestampField.** A time-zone-free system timestamp. It adds `auto_now_update`, an option that stamps the current time on every update only, to the host framework's `auto_now`, `auto_now_add`, `null` and `default`.

For the timestamp field the model covers:

- how the constructor reads its options;
- the mutual-exclusivity check over those options;
- the column type built for MySQL, PostgreSQL and SQLite from an ordered clause list;
- the SQL literal of a declared default;
- the dispatch on the connection's engine identifier;
- `deconstruct`;
- the write-time rule `pre_save`, which either replaces the written value with the database's "now" or passes it through.

Modules, one per concept:

- `Wrappers`: `Option`.
- `Strings`: space-joining, and decimal rendering and parsing of integers.
- `Seqs`: filtering and counting.
- `Backends`: the engine identifier mapped to a backend.
- `FixedChar`: the fixed-length field.
- `TimestampOptions`: the options, the check and deconstruction.
- `TimestampDdl`: the column types.
- `TimestampSave`: `pre_save`.
- `TimestampExpected`: the expected column types of the field's test table.

The field's column type is built from clauses, as in the source. The model keeps the clauses as a small datatype rather than as raw strings, with `Render` giving each one's exact text:

- the base keyword;
- `DEFAULT CURRENT_TIMESTAMP`;
- `DEFAULT <literal>`;
- `ON UPDATE CURRENT_TIMESTAMP`.

The type string is the rendered clauses joined by single spaces. The three per-backend builders follow the source's branches one for one. `TableClauses` is an independent table-driven assembly: base keyword, the DEFAULT clause picked by priority, then ON UPDATE where the dialect has it. The builders are proved equal to it, except MySQL with both `auto_now` and `auto_now_update`, which has a second ON UPDATE.

Two things the field calls are parameters:

- the connection's rendering of a non-null default, `prep`;
- the inherited column type for unknown engines, `inherited`.

## Model

| member | source | states |
|---|---|---|
| `FixedChar.DbType` | src/django_forcedfields.py:71-79 | the type is `CHAR(` then the decimal length then `)`: it starts with `CHAR(`, ends with `)`, and parses back to exactly the declared length |
| `FixedChar.DbTypeIsPortable` | src/django_forcedfields.py:71-79 | the type depends on the length only, not on the backend, nullability or default |
| `FixedChar.DbTypeDeterminesLength` | src/django_forcedfields.py:79 | two fields render the same type if and only if they declare the same length |
| `FixedChar.FourCharacterField` | src/tests/models.py:17 | the test model's `max_length=4` field renders as `CHAR(4)` on every backend |
| `Backends.BackendOf` | src/django_forcedfields.py:376-384 | each of the three engine identifiers selects its backend by exact comparison; every other identifier selects none of them |
| `TimestampOptions.Init` | src/django_forcedfields.py:119-129 | `auto_now_update` is read by the field and is false when absent; `auto_now`, `auto_now_add` and `null` are set exactly when given a truthy keyword argument; a default exists exactly when `default` is given: `None` gives the null default, any other value the default with its `str()` text, distinct from no default |
| `TimestampOptions.MutualExclusionErrors` | src/django_forcedfields.py:168-180 | the inherited error is reported if and only if more than one of `auto_now`, `auto_now_add`, `default` is set; the field's own error if and only if `auto_now` and `auto_now_update` are both set; at most these two, inherited first |
| `TimestampOptions.AutoNowWithUpdateReportsE160` | src/django_forcedfields.py:171-178 | `auto_now` with `auto_now_update` always fails the check with id `django_forcedfields.E160` |
| `TimestampOptions.ValidPermutationsAreDistinct` | src/django_forcedfields.py:143-157 | the documented list names fourteen different option sets |
| `TimestampOptions.ValidIffDocumentedPermutation` | src/django_forcedfields.py:139-180 | the check passes if and only if the set of options in use is one of the fourteen documented valid permutations |
| `TimestampOptions.Deconstruct` | src/django_forcedfields.py:396-399 | `auto_now_update=True` is added to the keyword arguments when that option is set; name, path, positional arguments and every other keyword argument are unchanged; without the option the inherited result is returned as is |
| `TimestampOptions.DeconstructRoundTrip` | src/django_forcedfields.py:388-399 | rebuilding the field from its deconstruction gives back every option, `auto_now_update` included, given that the inherited deconstruction rebuilds the other options |
| `TimestampDdl.Render` | src/django_forcedfields.py:224-235 | both kinds of DEFAULT clause render with the `DEFAULT ` prefix |
| `TimestampDdl.DefaultSql` | src/django_forcedfields.py:338-354 | a null default is the bare literal `NULL`, and only a null default is; any other default is its prepared text in single quotes |
| `TimestampDdl.DefaultClauseFor` | src/django_forcedfields.py:226-235 | priority `auto_now`, then `auto_now_add` (both the current timestamp), then a declared default's literal; no DEFAULT clause exactly when none of the three is set |
| `TimestampDdl.MySqlClauses` | src/django_forcedfields.py:223-243 | starts with `TIMESTAMP`; ON UPDATE is present if and only if `auto_now` or `auto_now_update`; the current-timestamp DEFAULT if and only if `auto_now` or `auto_now_add` |
| `TimestampDdl.PostgreSqlClauses` | src/django_forcedfields.py:259-269 | starts with `TIMESTAMP WITHOUT TIME ZONE`; never ON UPDATE; the current-timestamp DEFAULT if and only if `auto_now` or `auto_now_add`; otherwise a DEFAULT literal if and only if a default is declared, and it is that default's literal |
| `TimestampDdl.SqliteClauses` | src/django_forcedfields.py:285-292 | the same as PostgreSQL with base keyword `DATETIME` |
| `TimestampDdl.MySqlType` | src/django_forcedfields.py:243 | the MySQL type string starts with `TIMESTAMP` |
| `TimestampDdl.PostgreSqlType` | src/django_forcedfields.py:269 | the PostgreSQL type string starts with `TIMESTAMP WITHOUT TIME ZONE` |
| `TimestampDdl.SqliteType` | src/django_forcedfields.py:292 | the SQLite type string starts with `DATETIME` |
| `TimestampDdl.BuildersMatchDialectTable` | src/django_forcedfields.py:223-292 | each builder equals the table-driven assembly for its dialect (for MySQL under a configuration without both `auto_now` and `auto_now_update`) |
| `TimestampDdl.UncheckedMySqlMatchesDialectTable` | src/django_forcedfields.py:226-241 | with `auto_now` and `auto_now_update` both set, the MySQL builder is the table-driven assembly plus a second ON UPDATE |
| `TimestampDdl.DefaultClausesFollowPriority` | src/django_forcedfields.py:226-235 | on every backend the DEFAULT clauses of the type are exactly the one the priority rule picks, or none, so never more than one |
| `TimestampDdl.MySqlOnUpdateOnceAndLast` | src/django_forcedfields.py:237-243 | under a configuration that passes the check, ON UPDATE occurs once when asked for and not otherwise, and is the last clause |
| `TimestampDdl.MySqlOnUpdateTwiceWhenUnchecked` | src/django_forcedfields.py:226-241 | with `auto_now` and `auto_now_update` both set the builder emits ON UPDATE twice, which is why it relies on the check having run |
| `TimestampDdl.PostgreSqlAndSqliteDropOnUpdate` | src/django_forcedfields.py:223-292 | for every configuration, PostgreSQL's and SQLite's clauses are MySQL's with the base keyword swapped and every ON UPDATE removed, when the connections render a declared default the same way (one shared `prep`) |
| `TimestampDdl.DefaultClausesSpellDefault` | src/django_forcedfields.py:224-235 | a clause's text starts with `DEFAULT ` if and only if it is a DEFAULT clause |
| `TimestampDdl.MySqlTypeExtendsPostgreSqlType` | src/django_forcedfields.py:223-269 | for every configuration, the MySQL type string is the PostgreSQL one with the base keyword swapped, then ` ON UPDATE CURRENT_TIMESTAMP` once if `auto_now` is set and once more if `auto_now_update` is set |
| `TimestampDdl.DbType` | src/django_forcedfields.py:376-386 | an unknown engine gets the inherited type; each of the three engines gets its builder's type, which starts with the backend's keyword. For every configuration it is the table-driven assembly for that backend, except MySQL with both `auto_now` and `auto_now_update`, where it is that assembly with a second ON UPDATE appended |
| `TimestampSave.PreSave` | src/django_forcedfields.py:434-444 | "now" is returned and written to the attribute on a creation with `auto_now` or `auto_now_add`, and on an update with `auto_now` or `auto_now_update`; otherwise the current value is returned and the attribute keeps it |
| `TimestampSave.AutoNowAlwaysOverrides` | src/django_forcedfields.py:434-436 | `auto_now` replaces every written value, including one given by the caller |
| `TimestampSave.AutoNowAddOnlyOnCreate` | src/django_forcedfields.py:434-442 | `auto_now_add` alone replaces the value on creation and passes it through on update |
| `TimestampSave.AutoNowUpdateOnlyOnUpdate` | src/django_forcedfields.py:434-442 | `auto_now_update` alone replaces the value on update and passes it through on creation |
| `TimestampSave.PreSaveMatchesColumnType` | src/django_forcedfields.py:401-444 | an update is overridden exactly when the MySQL type has ON UPDATE; a creation exactly when each backend's type defaults to the current timestamp |
| `TimestampExpected.ExpectedAutoNow` | src/tests/utils.py:88-95 | `auto_now`, with or without `null`: the MySQL and PostgreSQL strings of the table |
| `TimestampExpected.ExpectedAutoNowAdd` | src/tests/utils.py:96-111 | `auto_now_add`, with or without `null` (the entries at lines 96-99 and 108-111): the table's strings |
| `TimestampExpected.ExpectedAutoNowAddWithUpdate` | src/tests/utils.py:100-107 | `auto_now_add` with `auto_now_update`, with or without `null`: the table's strings |
| `TimestampExpected.ExpectedAutoNowUpdate` | src/tests/utils.py:112-119 | `auto_now_update`, with or without `null`: `TIMESTAMP ON UPDATE CURRENT_TIMESTAMP` and the bare PostgreSQL keyword |
| `TimestampExpected.ExpectedDefaultWithUpdate` | src/tests/utils.py:120-129 | a declared default with `auto_now_update`: the quoted default, then ON UPDATE on MySQL only |
| `TimestampExpected.ExpectedDefault` | src/tests/utils.py:130-137 | a declared default: `DEFAULT '<default>'` on both backends |
| `TimestampExpected.ExpectedNullDefault` | src/django_forcedfields.py:338-341 | a declared `None` default gives `DEFAULT NULL` after each backend's keyword |

## Left out

- Validation errors raised by the connection's default formatting are not modelled. That formatting, which parses a date-time, is the parameter `prep` and always returns a string.
- The host framework's checks framework is left out: the `Error` objects, their message text and their registration. The check's result is the list of failures, each with its identifier.
- The inherited exclusivity check of `auto_now`, `auto_now_add` and `default` is modelled from the field's own description of it. The host framework's date-time field is not part of this model.
- The inherited column type for unknown engines is the opaque parameter `inherited`.
- The connection object is reduced to its engine identifier.
- The database's "now" expression is the opaque value `Now`.
- The model instance is reduced to the field's one attribute value.
- Callable defaults are left out: a declared default is its `str()` text, or the null value.
- Python truthiness of option values other than booleans, `None` and non-empty objects is left out.
- Keyword arguments the host framework rejects are left out.
- TimestampOptions.Init: reads options from keyword arguments only. The host framework's date-time field also accepts `auto_now` and `auto_now_add` positionally, as its third and fourth arguments, and the field passes positional arguments through. Positional options are not modelled.
- FixedChar.DbType: models integer lengths only. A field declared without `max_length` renders as `CHAR(None)` in the source; the host framework's own checks reject such a field, and the model does not render it.
- TimestampDdl.PostgreSqlAndSqliteDropOnUpdate: states the equation for one shared default formatter. The source prepares the default once per connection, so two connections that render a date-time differently are not covered.
- The test table's entries for `null` differ from those without it only in the column's nullability, which the host framework appends outside the field. The expected-type lemmas take `nullable` as a parameter.
- The fixed-length field has no DEFAULT clause in the code, and the timestamp field raises no integrity error of its own for nulls. Neither is modelled.
- Database I/O, schema editing, migrations and the test harness are left out.
- The clause lists are a sequence of clause values that render to the source's strings, not the strings themselves; `Render` and `DefaultClausesSpellDefault` relate the two.
