/** The mutable rule-set object MappedEditorConfig and its getters and setters. */
module Model {
  import opened Wrappers
  import opened RuleSet
  import LineEnding

  class MappedEditorConfig {
    var charset: Option<MappedCharset>
    var endOfLine: Option<string>
    var indentSize: int32
    var indentStyle: Option<string>
    var insertFinalNewLine: bool
    var tabWidth: int32
    var trimTrailingWhiteSpace: bool

    /** The setter calls made on this object since it was constructed. */
    ghost var History: seq<Assignment>

    /** The seven fields as one value. */
    function Value(): Config
      reads this
    {
      Config(charset, endOfLine, indentSize, indentStyle, insertFinalNewLine, tabWidth, trimTrailingWhiteSpace)
    }

    /** The fields are what the setter calls so far have made of the defaults. */
    ghost predicate Valid()
      reads this
    {
      Value() == Replay(History)
    }

    /** The empty constructor leaves every field at Java's default. */
    constructor ()
      ensures Valid() && History == []
      ensures charset == None && endOfLine == None && indentStyle == None
      ensures indentSize == 0 && tabWidth == 0
      ensures !insertFinalNewLine && !trimTrailingWhiteSpace
    {
      charset, endOfLine, indentSize, indentStyle := None, None, 0, None;
      insertFinalNewLine, tabWidth, trimTrailingWhiteSpace := false, 0, false;
      History := [];
    }

    /** The label of the stored line separator; looks at `endOfLine` only. */
    function ReadableString(): (r: Option<string>)
      reads this`endOfLine
      ensures r == LineEnding.Label(endOfLine)
      ensures r == None <==> endOfLine == None
      ensures r.Some? ==> LineEnding.IsLabel(r.value)
    {
      LineEnding.LabelRange(endOfLine);
      LineEnding.Label(endOfLine)
    }

    function GetCharset(): (r: Option<MappedCharset>)
      reads this
      requires Valid()
      ensures CharsetValue(r) == LastValue(History, Charset)
    {
      ReplayLastWrite(History, Charset);
      charset
    }

    function GetEndOfLine(): (r: Option<string>)
      reads this
      requires Valid()
      ensures TextValue(r) == LastValue(History, EndOfLine)
    {
      ReplayLastWrite(History, EndOfLine);
      endOfLine
    }

    function GetIndentSize(): (r: int32)
      reads this
      requires Valid()
      ensures IntValue(r) == LastValue(History, IndentSize)
    {
      ReplayLastWrite(History, IndentSize);
      indentSize
    }

    function GetIndentStyle(): (r: Option<string>)
      reads this
      requires Valid()
      ensures TextValue(r) == LastValue(History, IndentStyle)
    {
      ReplayLastWrite(History, IndentStyle);
      indentStyle
    }

    function IsInsertFinalNewLine(): (r: bool)
      reads this
      requires Valid()
      ensures BoolValue(r) == LastValue(History, InsertFinalNewLine)
    {
      ReplayLastWrite(History, InsertFinalNewLine);
      insertFinalNewLine
    }

    function GetTabWidth(): (r: int32)
      reads this
      requires Valid()
      ensures IntValue(r) == LastValue(History, TabWidth)
    {
      ReplayLastWrite(History, TabWidth);
      tabWidth
    }

    function IsTrimTrailingWhiteSpace(): (r: bool)
      reads this
      requires Valid()
      ensures BoolValue(r) == LastValue(History, TrimTrailingWhiteSpace)
    {
      ReplayLastWrite(History, TrimTrailingWhiteSpace);
      trimTrailingWhiteSpace
    }

    /** Records one setter call in the history; the fields already hold its effect. */
    ghost method Record(a: Assignment)
      requires Value() == Apply(Replay(History), a)
      modifies this`History
      ensures Valid() && History == old(History) + [a]
    {
      var h := History + [a];
      assert h[..|h| - 1] == History;
      History := h;
    }

    method SetCharset(charset: Option<MappedCharset>)
      requires Valid()
      modifies this`charset, this`History
      ensures Valid() && this.charset == charset
      ensures Value() == Apply(old(Value()), AssignCharset(charset))
      ensures History == old(History) + [AssignCharset(charset)]
    {
      this.charset := charset;
      Record(AssignCharset(charset));
    }

    method SetEndOfLine(endOfLine: Option<string>)
      requires Valid()
      modifies this`endOfLine, this`History
      ensures Valid() && this.endOfLine == endOfLine
      ensures Value() == Apply(old(Value()), AssignEndOfLine(endOfLine))
      ensures History == old(History) + [AssignEndOfLine(endOfLine)]
    {
      this.endOfLine := endOfLine;
      Record(AssignEndOfLine(endOfLine));
    }

    method SetIndentSize(indentSize: int32)
      requires Valid()
      modifies this`indentSize, this`History
      ensures Valid() && this.indentSize == indentSize
      ensures Value() == Apply(old(Value()), AssignIndentSize(indentSize))
      ensures History == old(History) + [AssignIndentSize(indentSize)]
    {
      this.indentSize := indentSize;
      Record(AssignIndentSize(indentSize));
    }

    method SetIndentStyle(indentStyle: Option<string>)
      requires Valid()
      modifies this`indentStyle, this`History
      ensures Valid() && this.indentStyle == indentStyle
      ensures Value() == Apply(old(Value()), AssignIndentStyle(indentStyle))
      ensures History == old(History) + [AssignIndentStyle(indentStyle)]
    {
      this.indentStyle := indentStyle;
      Record(AssignIndentStyle(indentStyle));
    }

    method SetInsertFinalNewLine(insertFinalNewLine: bool)
      requires Valid()
      modifies this`insertFinalNewLine, this`History
      ensures Valid() && this.insertFinalNewLine == insertFinalNewLine
      ensures Value() == Apply(old(Value()), AssignInsertFinalNewLine(insertFinalNewLine))
      ensures History == old(History) + [AssignInsertFinalNewLine(insertFinalNewLine)]
    {
      this.insertFinalNewLine := insertFinalNewLine;
      Record(AssignInsertFinalNewLine(insertFinalNewLine));
    }

    method SetTabWidth(tabWidth: int32)
      requires Valid()
      modifies this`tabWidth, this`History
      ensures Valid() && this.tabWidth == tabWidth
      ensures Value() == Apply(old(Value()), AssignTabWidth(tabWidth))
      ensures History == old(History) + [AssignTabWidth(tabWidth)]
    {
      this.tabWidth := tabWidth;
      Record(AssignTabWidth(tabWidth));
    }

    method SetTrimTrailingWhiteSpace(trimTrailingWhiteSpace: bool)
      requires Valid()
      modifies this`trimTrailingWhiteSpace, this`History
      ensures Valid() && this.trimTrailingWhiteSpace == trimTrailingWhiteSpace
      ensures Value() == Apply(old(Value()), AssignTrimTrailingWhiteSpace(trimTrailingWhiteSpace))
      ensures History == old(History) + [AssignTrimTrailingWhiteSpace(trimTrailingWhiteSpace)]
    {
      this.trimTrailingWhiteSpace := trimTrailingWhiteSpace;
      Record(AssignTrimTrailingWhiteSpace(trimTrailingWhiteSpace));
    }
  }

  /** What a caller can conclude from the contracts alone. */
  method Client(width: int32)
  {
    var config := new MappedEditorConfig();
    assert config.ReadableString() == None;
    config.SetTabWidth(width);
    config.SetEndOfLine(Some("\r"));
    config.SetInsertFinalNewLine(true);
    config.SetTabWidth(-1);
    assert config.GetTabWidth() == -1;
    assert config.IsInsertFinalNewLine();
    assert config.GetIndentSize() == 0 && config.GetCharset() == None;
    assert config.ReadableString() == Some("CR");
    config.SetEndOfLine(Some("\r\n"));
    assert config.ReadableString() == Some("CRLF");
  }
}
