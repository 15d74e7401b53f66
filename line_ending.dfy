/**
 * The label that MappedEditorConfig.readableString() gives to the raw
 * line separator stored in the `endOfLine` field.
 */
module LineEnding {
  import opened Wrappers

  /** True of the three labels readableString() can return. */
  predicate IsLabel(l: string) {
    l == "CR" || l == "LF" || l == "CRLF"
  }

  /**
   * readableString(): a missing separator has no label, "\r" is CR, "\n" is
   * LF, and every other separator (not only "\r\n") keeps the initial CRLF,
   * because the switch has no default case.
   */
  function Label(endOfLine: Option<string>): (r: Option<string>)
    ensures r == None <==> endOfLine == None
    ensures endOfLine == Some("\r") ==> r == Some("CR")
    ensures endOfLine == Some("\n") ==> r == Some("LF")
    ensures endOfLine.Some? && endOfLine.value != "\r" && endOfLine.value != "\n" ==> r == Some("CRLF")
  {
    var lineEnding := "CRLF";
    match endOfLine
    case None => None
    case Some(s) =>
      if s == "\r" then Some("CR")
      else if s == "\n" then Some("LF")
      else Some(lineEnding)
  }

  /** Every result of Label is null or one of the three labels. */
  lemma LabelRange(endOfLine: Option<string>)
    ensures Label(endOfLine).Some? ==> IsLabel(Label(endOfLine).value)
  {
  }

  /** The separator a label stands for (an independent reference definition). */
  function CanonicalSeparator(l: string): string
    requires IsLabel(l)
  {
    if l == "CR" then "\r" else if l == "LF" then "\n" else "\r\n"
  }

  /** A label names back exactly the label it came from. */
  lemma LabelOfSeparator(l: string)
    requires IsLabel(l)
    ensures Label(Some(CanonicalSeparator(l))) == Some(l)
  {
  }

  /**
   * The label determines the stored separator exactly when that separator
   * is one of "\r", "\n" and "\r\n"; any other value is collapsed to CRLF
   * and cannot be recovered from the label.
   */
  lemma SeparatorRecoverable(s: string)
    ensures (s == "\r" || s == "\n" || s == "\r\n") <==> CanonicalSeparator(Label(Some(s)).value) == s
  {
  }
}
