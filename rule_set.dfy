/**
 * The value of the seven rule fields of MappedEditorConfig, and what a
 * sequence of setter calls makes of it.
 */
module RuleSet {
  import opened Wrappers

  /** The charset the source stores; its internals are not part of this model. */
  type MappedCharset

  /** Java's `int`: the fields accept every 32-bit value, 0 and negatives included. */
  newtype int32 = x: int | -0x8000_0000 <= x < 0x8000_0000

  /** The seven fields, with Java's nullable references as Option. */
  datatype Config = Config(
    charset: Option<MappedCharset>,
    endOfLine: Option<string>,
    indentSize: int32,
    indentStyle: Option<string>,
    insertFinalNewLine: bool,
    tabWidth: int32,
    trimTrailingWhiteSpace: bool)

  /** Java's field defaults: null, 0 and false; the constructor sets nothing. */
  const Default := Config(None, None, 0, None, false, 0, false)

  datatype Field =
    | Charset | EndOfLine | IndentSize | IndentStyle
    | InsertFinalNewLine | TabWidth | TrimTrailingWhiteSpace

  /** What one field holds, whatever its type. */
  datatype FieldValue =
    | CharsetValue(charset: Option<MappedCharset>)
    | TextValue(text: Option<string>)
    | IntValue(number: int32)
    | BoolValue(flag: bool)

  /** One call of a setter, with its argument. */
  datatype Assignment =
    | AssignCharset(charset: Option<MappedCharset>)
    | AssignEndOfLine(endOfLine: Option<string>)
    | AssignIndentSize(indentSize: int32)
    | AssignIndentStyle(indentStyle: Option<string>)
    | AssignInsertFinalNewLine(insertFinalNewLine: bool)
    | AssignTabWidth(tabWidth: int32)
    | AssignTrimTrailingWhiteSpace(trimTrailingWhiteSpace: bool)

  /** The getter of field `f`. */
  function Read(c: Config, f: Field): FieldValue {
    match f
    case Charset => CharsetValue(c.charset)
    case EndOfLine => TextValue(c.endOfLine)
    case IndentSize => IntValue(c.indentSize)
    case IndentStyle => TextValue(c.indentStyle)
    case InsertFinalNewLine => BoolValue(c.insertFinalNewLine)
    case TabWidth => IntValue(c.tabWidth)
    case TrimTrailingWhiteSpace => BoolValue(c.trimTrailingWhiteSpace)
  }

  /** The field a setter call assigns. */
  function Target(a: Assignment): Field {
    match a
    case AssignCharset(_) => Charset
    case AssignEndOfLine(_) => EndOfLine
    case AssignIndentSize(_) => IndentSize
    case AssignIndentStyle(_) => IndentStyle
    case AssignInsertFinalNewLine(_) => InsertFinalNewLine
    case AssignTabWidth(_) => TabWidth
    case AssignTrimTrailingWhiteSpace(_) => TrimTrailingWhiteSpace
  }

  /** The argument of a setter call, as a field value. */
  function Written(a: Assignment): FieldValue {
    match a
    case AssignCharset(v) => CharsetValue(v)
    case AssignEndOfLine(v) => TextValue(v)
    case AssignIndentSize(v) => IntValue(v)
    case AssignIndentStyle(v) => TextValue(v)
    case AssignInsertFinalNewLine(v) => BoolValue(v)
    case AssignTabWidth(v) => IntValue(v)
    case AssignTrimTrailingWhiteSpace(v) => BoolValue(v)
  }

  /** The effect of one setter call: `this.x = x`, stored without validation. */
  function Apply(c: Config, a: Assignment): Config {
    match a
    case AssignCharset(v) => c.(charset := v)
    case AssignEndOfLine(v) => c.(endOfLine := v)
    case AssignIndentSize(v) => c.(indentSize := v)
    case AssignIndentStyle(v) => c.(indentStyle := v)
    case AssignInsertFinalNewLine(v) => c.(insertFinalNewLine := v)
    case AssignTabWidth(v) => c.(tabWidth := v)
    case AssignTrimTrailingWhiteSpace(v) => c.(trimTrailingWhiteSpace := v)
  }

  /** The fields after constructing an object and making the calls `h` in order. */
  function Replay(h: seq<Assignment>): Config {
    if h == [] then Default else Apply(Replay(h[..|h| - 1]), h[|h| - 1])
  }

  /** The last call in `h` that assigns field `f`, if any. */
  function LastWrite(h: seq<Assignment>, f: Field): (r: Option<Assignment>)
    ensures r.Some? ==> Target(r.value) == f
    ensures r.Some? ==> exists i :: 0 <= i < |h| && h[i] == r.value && forall j :: i < j < |h| ==> Target(h[j]) != f
    ensures r.None? ==> forall a :: a in h ==> Target(a) != f
  {
    if h == [] then None
    else if Target(h[|h| - 1]) == f then Some(h[|h| - 1])
    else LastWrite(h[..|h| - 1], f)
  }

  /** A call that assigns `f` and is followed by no other call assigning `f` is the last write to `f`. */
  lemma LastWriteAt(h: seq<Assignment>, f: Field, i: nat)
    requires i < |h| && Target(h[i]) == f
    requires forall j :: i < j < |h| ==> Target(h[j]) != f
    ensures LastWrite(h, f) == Some(h[i])
  {
  }

  /** What the getter of `f` should return after the calls `h`: the last value set, else the default. */
  function LastValue(h: seq<Assignment>, f: Field): FieldValue {
    match LastWrite(h, f)
    case None => Read(Default, f)
    case Some(a) => Written(a)
  }

  /** A setter call makes its own getter return its argument and leaves the other six fields alone. */
  lemma ReadAfterApply(c: Config, a: Assignment, f: Field)
    ensures Read(Apply(c, a), f) == if f == Target(a) then Written(a) else Read(c, f)
  {
  }

  /** The seven getters determine the whole object value. */
  lemma ReadExtensional(c: Config, d: Config)
    requires forall f :: Read(c, f) == Read(d, f)
    ensures c == d
  {
    assert Read(c, Charset) == Read(d, Charset);
    assert Read(c, EndOfLine) == Read(d, EndOfLine);
    assert Read(c, IndentSize) == Read(d, IndentSize);
    assert Read(c, IndentStyle) == Read(d, IndentStyle);
    assert Read(c, InsertFinalNewLine) == Read(d, InsertFinalNewLine);
    assert Read(c, TabWidth) == Read(d, TabWidth);
    assert Read(c, TrimTrailingWhiteSpace) == Read(d, TrimTrailingWhiteSpace);
  }

  /** Whatever the history, each getter returns the last value its setter was given, or the default. */
  lemma {:induction false} ReplayLastWrite(h: seq<Assignment>, f: Field)
    ensures Read(Replay(h), f) == LastValue(h, f)
  {
    if h != [] {
      var init, last := h[..|h| - 1], h[|h| - 1];
      ReadAfterApply(Replay(init), last, f);
      if Target(last) != f {
        ReplayLastWrite(init, f);
      }
    }
  }

  /** Setters of two different fields can be called in either order. */
  lemma ApplyCommutes(c: Config, a: Assignment, b: Assignment)
    requires Target(a) != Target(b)
    ensures Apply(Apply(c, a), b) == Apply(Apply(c, b), a)
  {
  }

  /** A second call of the same setter overwrites the first. */
  lemma ApplyOverwrites(c: Config, a: Assignment, b: Assignment)
    requires Target(a) == Target(b)
    ensures Apply(Apply(c, a), b) == Apply(c, b)
  {
  }
}
