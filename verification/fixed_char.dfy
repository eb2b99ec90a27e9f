/**
 The fixed-length character field: a text field whose column type is the
 database's `CHAR(n)`, with `n` the declared maximum length, instead of the
 variable-length type the host framework uses for text.
 */
module FixedChar {
  import opened Wrappers
  import opened Strings
  import opened Backends

  /**
   The options of a fixed-length character field that could bear on its
   column type. `maxLength` is whatever integer was declared; the host
   framework's own checks reject non-positive lengths.
   */
  datatype FixedCharField = FixedCharField(maxLength: int, nullable: bool, default: Option<string>)

  /** Reads `CHAR(<n>)` back into the length `n`. */
  function ParseCharType(s: string): Option<int> {
    if |s| >= 6 && s[..5] == "CHAR(" && s[|s| - 1] == ')' then ParseInt(s[5..|s| - 1])
    else None
  }

  /**
   The column type of the field: `CHAR(` then the decimal length then `)`.
   The backend, nullability and default take no part in it.
   */
  function DbType(field: FixedCharField, backend: Backend): (r: string)
    ensures "CHAR(" <= r && r[|r| - 1] == ')'
    ensures ParseCharType(r) == Some(field.maxLength)
  {
    var digits := IntToString(field.maxLength);
    var r := "CHAR(" + digits + ")";
    assert r[..5] == "CHAR(" && r[5..|r| - 1] == digits;
    IntRoundTrip(field.maxLength);
    r
  }

  /** The rendered type is the same on every backend, whatever the default or nullability. */
  lemma DbTypeIsPortable(f: FixedCharField, g: FixedCharField, b: Backend, b': Backend)
    requires f.maxLength == g.maxLength
    ensures DbType(f, b) == DbType(g, b')
  {
  }

  /** Two fields render the same type exactly when they declare the same length. */
  lemma DbTypeDeterminesLength(f: FixedCharField, g: FixedCharField, b: Backend, b': Backend)
    ensures DbType(f, b) == DbType(g, b') <==> f.maxLength == g.maxLength
  {
    if DbType(f, b) == DbType(g, b') {
      assert ParseCharType(DbType(f, b)) == ParseCharType(DbType(g, b'));
    }
  }

  /** A four-character field with no default renders as `CHAR(4)`. */
  lemma FourCharacterField(b: Backend)
    ensures DbType(FixedCharField(4, false, None), b) == "CHAR(4)"
  {
  }
}
