/**
 * The pure helpers of the GORM dialector for libsql: the column type
 * chosen for each GORM data type, identifier quoting and placeholder
 * writing into a statement buffer, and the migrator's constant answers.
 */
module LibsqlDialector {
  import opened Common

  /** GORM's `schema.DataType` is a string; these are its named values. */
  type DataType = string

  const Bool: DataType := "bool"
  const Int: DataType := "int"
  const Uint: DataType := "uint"
  const Float: DataType := "float"
  const String: DataType := "string"
  const Time: DataType := "time"
  const Bytes: DataType := "bytes"

  /** The part of a `schema.Field` the dialector reads. */
  datatype Field = Field(name: string, dataType: DataType)

  /** A `clause.Expr` with no variables. */
  datatype Expr = Expr(sql: string)

  /** `Dialector.Name` */
  function Name(): (n: string)
    ensures n == "sqlite"
  {
    "sqlite"
  }

  /** `Dialector.DataTypeOf`: the SQLite column type for a field. */
  function DataTypeOf(field: Field): (t: string)
    ensures field.dataType == Bool ==> t == "numeric"
    ensures field.dataType == Int || field.dataType == Uint ==> t == "integer"
    ensures field.dataType == Float ==> t == "real"
    ensures field.dataType == String ==> t == "text"
    ensures field.dataType == Time ==> t == "datetime"
    ensures field.dataType == Bytes ==> t == "blob"
    ensures field.dataType !in {Bool, Int, Uint, Float, String, Time, Bytes} ==> t == field.dataType
  {
    var d := field.dataType;
    if d == Bool then "numeric"
    else if d == Int || d == Uint then "integer"
    else if d == Float then "real"
    else if d == String then "text"
    else if d == Time then "datetime"
    else if d == Bytes then "blob"
    else d
  }

  /** `Dialector.DefaultValueOf`: every field defaults to NULL. */
  function DefaultValueOf(field: Field): (e: Expr)
    ensures e.sql == "NULL"
  {
    Expr("NULL")
  }

  /** The text `QuoteTo` writes for an identifier. */
  function Quoted(s: string): (q: string)
    ensures |q| == |s| + 2 && q[0] == '`' && q[|q| - 1] == '`' && q[1..|q| - 1] == s
  {
    ['`'] + s + ['`']
  }

  /** How SQLite reads a backtick-quoted identifier: `` `` `` inside stands
      for one backtick, and the closing backtick must end the text. */
  function Unquote(q: string): (r: Option<string>)
  {
    if q != [] && q[0] == '`' then ReadQuoted(q[1..]) else None
  }

  /** The rest of a quoted identifier after its opening backtick. */
  function ReadQuoted(s: string): Option<string>
    decreases |s|
  {
    if s == [] then None
    else if s[0] != '`' then
      match ReadQuoted(s[1..])
      case None => None
      case Some(t) => Some([s[0]] + t)
    else if |s| == 1 then Some([])
    else if s[1] == '`' then
      match ReadQuoted(s[2..])
      case None => None
      case Some(t) => Some(['`'] + t)
    else None
  }

  lemma {:induction false} ReadQuotedPlain(s: string)
    requires '`' !in s
    ensures ReadQuoted(s + ['`']) == Some(s)
  {
    if s != [] {
      assert (s + ['`'])[1..] == s[1..] + ['`'];
      ReadQuotedPlain(s[1..]);
      assert [s[0]] + s[1..] == s;
    }
  }

  /** An identifier without backticks reads back from its quoted form. */
  lemma QuoteRoundTrip(s: string)
    requires '`' !in s
    ensures Unquote(Quoted(s)) == Some(s)
  {
    assert Quoted(s)[1..] == s + ['`'];
    ReadQuotedPlain(s);
  }

  /** Backticks are written unescaped, so a name holding one does not read
      back: "a`b" is quoted as text SQLite cannot read as one identifier. */
  lemma QuoteUnescaped()
    ensures Unquote(Quoted("a`b")) == None
  {
    assert Quoted("a`b")[1..] == "a`b`";
    assert "a`b`"[1..] == "`b`";
    assert ReadQuoted("`b`") == None;
  }

  /** A `clause.Writer`: the statement text built so far. */
  class Writer {
    var buffer: string

    constructor ()
      ensures buffer == []
    {
      buffer := [];
    }

    method WriteByte(c: char)
      modifies this
      ensures buffer == old(buffer) + [c]
    {
      buffer := buffer + [c];
    }

    method WriteString(s: string)
      modifies this
      ensures buffer == old(buffer) + s
    {
      buffer := buffer + s;
    }
  }

  /** `Dialector.BindVarTo`: one `?` placeholder, whatever the value. */
  method BindVarTo(w: Writer)
    modifies w
    ensures w.buffer == old(w.buffer) + ['?']
  {
    w.WriteByte('?');
  }

  /** `Dialector.QuoteTo`: backtick, the identifier as given, backtick. */
  method QuoteTo(w: Writer, str: string)
    modifies w
    ensures w.buffer == old(w.buffer) + Quoted(str)
  {
    w.WriteByte('`');
    w.WriteString(str);
    w.WriteByte('`');
  }

  /** `Migrator.AlterColumn`: SQLite cannot alter a column, so the request
      is skipped and no error (`nil`) is reported. */
  function AlterColumn(table: string, field: string): (err: Option<string>)
    ensures err.None?
  {
    None
  }

  /** `Migrator.CreateConstraint`: skipped in the same way. */
  function CreateConstraint(table: string, name: string): (err: Option<string>)
    ensures err.None?
  {
    None
  }

  /** `Migrator.CurrentDatabase` */
  function CurrentDatabase(): (name: string)
    ensures name == "main"
  {
    "main"
  }
}
