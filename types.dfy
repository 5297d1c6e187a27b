/** The editor-side shapes the numbering tests read, cut down to the fields they use. */
module EditorTypes {

  datatype Option<T> = None | Some(value: T)

  /** A location in the Markdown cache: zero-based line and column. */
  datatype Loc = Loc(line: int, col: int)

  /** An editor cursor position: zero-based line and character offset. */
  datatype Pos = Pos(line: int, ch: int)

  /** A cached heading: its level (1 for `#`), its title text and its source span. */
  datatype Heading = Heading(level: int, heading: string, start: Loc, end: Loc)

  /** An edit handed to the editor: the line it starts on and its replacement text. */
  datatype Change = Change(fromLine: int, text: string)
}
