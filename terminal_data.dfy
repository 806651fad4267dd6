/** The record shapes of the transcript data: a script line and a stored custom transcript. */
module TerminalData {
  import opened Wrappers

  /** One line of a transcript; every field but the text is optional in the source. */
  datatype TerminalLine = TerminalLine(
    text: string,
    color: Option<string>,      // legacy colour name
    colorRole: Option<string>,  // semantic colour role
    bold: Option<bool>,
    delay: Option<int>)         // milliseconds before the line starts

  /** A user-authored transcript as kept in the content store; `createdAt` is a time stamp in milliseconds. */
  datatype CustomTerminalContent = CustomTerminalContent(
    id: string,
    name: string,
    lines: seq<TerminalLine>,
    createdAt: int)
}
