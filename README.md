# MappedEditorConfig, verified

This project models the typed rule-set record of the NetBeans EditorConfig plugin, `MappedEditorConfig`. It holds seven fields:

- `charset`: a nullable `MappedCharset`;
- `endOfLine`: a nullable string holding the raw line-separator characters;
- `indentSize` and `tabWidth`: Java `int`;
- `indentStyle`: a nullable string;
- `insertFinalNewLine` and `trimTrailingWhiteSpace`: `boolean`.

The object has an empty constructor, one getter and one setter per field, and `readableString()`, which names the stored line separator.

Files:

- `wrappers.dfy` (module `Wrappers`): `Option`, which stands for Java's nullable references.
- `rule_set.dfy` (module `RuleSet`): a value-level model of the seven fields.
  - `Config` is the record; `Default` holds Java's field defaults.
  - A setter call is an `Assignment`, and `Apply` is its effect.
  - `Replay` gives the fields after a sequence of setter calls made on a fresh object.
  - `LastValue` gives what each getter should then return: the last value its setter was given, or the default.
  - The lemmas connect these definitions.
- `line_ending.dfy` (module `LineEnding`): `Label`, the case split of `readableString()`.
  - Its partner is `CanonicalSeparator`, the separator each label stands for.
  - Round-trip lemmas connect the two.
- `mapped_editor_config.dfy` (module `Model`): the class `MappedEditorConfig`.
  - It has the seven fields.
  - A ghost `History` records the setter calls made since construction.
  - The invariant `Valid()` says the fields equal `Replay(History)`.
  - Each setter's `modifies` clause names only its own field and `History`, so the other six fields are unchanged by construction.
  - Each getter promises the last value set for its field, or the field's default.

Java `int` is the newtype `int32`. The setters accept every 32-bit value, including 0 and negative values, and do no validation or coercion. `MappedCharset` is an opaque type.

## Model

| member | source | states |
|---|---|---|
| Model.MappedEditorConfig.constructor | src/main/java/com/welovecoding/netbeans/plugin/editorconfig/model/MappedEditorConfig.java:9-24 | a fresh object has charset, endOfLine and indentStyle null, indentSize and tabWidth 0, both booleans false, and an empty setter history |
| Model.MappedEditorConfig.ReadableString | src/main/java/com/welovecoding/netbeans/plugin/editorconfig/model/MappedEditorConfig.java:26-43 | reads only endOfLine; returns null exactly when endOfLine is null, otherwise one of CR, LF, CRLF, as Label gives it |
| Model.MappedEditorConfig.GetCharset | src/main/java/com/welovecoding/netbeans/plugin/editorconfig/model/MappedEditorConfig.java:82-84 | returns the argument of the last setCharset call since construction, or null if there was none |
| Model.MappedEditorConfig.GetEndOfLine | src/main/java/com/welovecoding/netbeans/plugin/editorconfig/model/MappedEditorConfig.java:90-92 | returns the argument of the last setEndOfLine call, or null |
| Model.MappedEditorConfig.GetIndentSize | src/main/java/com/welovecoding/netbeans/plugin/editorconfig/model/MappedEditorConfig.java:98-100 | returns the argument of the last setIndentSize call, or 0 |
| Model.MappedEditorConfig.GetIndentStyle | src/main/java/com/welovecoding/netbeans/plugin/editorconfig/model/MappedEditorConfig.java:106-108 | returns the argument of the last setIndentStyle call, or null |
| Model.MappedEditorConfig.IsInsertFinalNewLine | src/main/java/com/welovecoding/netbeans/plugin/editorconfig/model/MappedEditorConfig.java:114-116 | returns the argument of the last setInsertFinalNewLine call, or false |
| Model.MappedEditorConfig.GetTabWidth | src/main/java/com/welovecoding/netbeans/plugin/editorconfig/model/MappedEditorConfig.java:122-124 | returns the argument of the last setTabWidth call, or 0 |
| Model.MappedEditorConfig.IsTrimTrailingWhiteSpace | src/main/java/com/welovecoding/netbeans/plugin/editorconfig/model/MappedEditorConfig.java:130-132 | returns the argument of the last setTrimTrailingWhiteSpace call, or false |
| Model.MappedEditorConfig.SetCharset | src/main/java/com/welovecoding/netbeans/plugin/editorconfig/model/MappedEditorConfig.java:86-88 | changes only charset, to the argument, and appends the call to the history while keeping the invariant |
| Model.MappedEditorConfig.SetEndOfLine | src/main/java/com/welovecoding/netbeans/plugin/editorconfig/model/MappedEditorConfig.java:94-96 | changes only endOfLine, to the argument unmodified, and keeps the invariant |
| Model.MappedEditorConfig.SetIndentSize | src/main/java/com/welovecoding/netbeans/plugin/editorconfig/model/MappedEditorConfig.java:102-104 | changes only indentSize, to any 32-bit argument, and keeps the invariant |
| Model.MappedEditorConfig.SetIndentStyle | src/main/java/com/welovecoding/netbeans/plugin/editorconfig/model/MappedEditorConfig.java:110-112 | changes only indentStyle, to the argument, and keeps the invariant |
| Model.MappedEditorConfig.SetInsertFinalNewLine | src/main/java/com/welovecoding/netbeans/plugin/editorconfig/model/MappedEditorConfig.java:118-120 | changes only insertFinalNewLine, to the argument, and keeps the invariant |
| Model.MappedEditorConfig.SetTabWidth | src/main/java/com/welovecoding/netbeans/plugin/editorconfig/model/MappedEditorConfig.java:126-128 | changes only tabWidth, to any 32-bit argument, and keeps the invariant |
| Model.MappedEditorConfig.SetTrimTrailingWhiteSpace | src/main/java/com/welovecoding/netbeans/plugin/editorconfig/model/MappedEditorConfig.java:134-136 | changes only trimTrailingWhiteSpace, to the argument, and keeps the invariant |
| LineEnding.Label | src/main/java/com/welovecoding/netbeans/plugin/editorconfig/model/MappedEditorConfig.java:27-40 | null has no label; "\r" is CR; "\n" is LF; every other non-null separator is CRLF, because the switch has no default case |
| LineEnding.LabelRange | src/main/java/com/welovecoding/netbeans/plugin/editorconfig/model/MappedEditorConfig.java:26-43 | every label is null or one of CR, LF, CRLF |
| LineEnding.LabelOfSeparator | src/main/java/com/welovecoding/netbeans/plugin/editorconfig/model/MappedEditorConfig.java:30-37 | the separator each label stands for gets that same label back |
| LineEnding.SeparatorRecoverable | src/main/java/com/welovecoding/netbeans/plugin/editorconfig/model/MappedEditorConfig.java:27-37 | the label determines the stored separator if and only if the separator is "\r", "\n" or "\r\n" |
| RuleSet.ReadAfterApply | src/main/java/com/welovecoding/netbeans/plugin/editorconfig/model/MappedEditorConfig.java:82-136 | after a setter call, its own getter returns the argument and the other six getters return what they returned before |
| RuleSet.ReadExtensional | src/main/java/com/welovecoding/netbeans/plugin/editorconfig/model/MappedEditorConfig.java:8-21 | two field values (`Config`) on which all seven getters agree are equal, so the getters observe every declared field |
| RuleSet.LastWriteAt | src/main/java/com/welovecoding/netbeans/plugin/editorconfig/model/MappedEditorConfig.java:82-136 | a setter call followed by no other call of the same setter is the last write to that field, which is the write its getter reports |
| RuleSet.ReplayLastWrite | src/main/java/com/welovecoding/netbeans/plugin/editorconfig/model/MappedEditorConfig.java:23-136 | after any sequence of setter calls on a fresh object, each getter returns the last value set for its field, or the field's default |
| RuleSet.ApplyCommutes | src/main/java/com/welovecoding/netbeans/plugin/editorconfig/model/MappedEditorConfig.java:86-136 | setters of two different fields can be called in either order with the same result |
| RuleSet.ApplyOverwrites | src/main/java/com/welovecoding/netbeans/plugin/editorconfig/model/MappedEditorConfig.java:86-136 | a second call of the same setter overwrites the first |

## Left out

- `toString()` is not modelled. It builds its text with `MessageFormat` and the platform's `System.lineSeparator()`, and both are outside the model. Its only decision is to use the charset's name, or null when there is no charset.
- `MappedCharset` is an opaque type. Its class is not part of this model, so `getName` and `getCharset` are not modelled.
- `EditorConfigProcessor` is not modelled. It is IDE glue: NetBeans data objects, editor cookies, logging and file writing. Its few decisions depend on calls whose behaviour is not visible. Those decisions are the UTF-8 charset fallback and the `fileChangeNeeded` flag.
- The glob matcher, parser, directory-walk resolver and property mapper are not modelled. Their classes, `EditorConfigParser` and `EditorConfigPropertyMapper`, are outside this model.
- `EditorConfigParserTest` is not modelled. It calls those classes, but its few glob examples (`"*"`, `"*.js"`, `{package.json,.travis.yml}`) do not determine their behaviour.
- There is no "unset" state. The booleans default to false and the ints to 0, as Java field defaults do. `endOfLine` and `indentStyle` hold raw strings, not enums. The model keeps this.
- SetEndOfLine, SetIndentStyle: a Dafny `string` is a sequence of Unicode scalar values, while a Java `String` is UTF-16 and may hold unpaired surrogates. The setters store such strings, but the model cannot represent them. `readableString` is unaffected, since any such value gets `"CRLF"`.
