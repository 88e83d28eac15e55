/**
 * The nodes a block's content is reduced to, shared by the region logic and
 * by the html payload of a channel message.
 */
module Dom {
  /** A top-level node of a block's content: markup the block never looks
      into, or a placeholder slot with its `hide` modifier and the hidden
      `<input name=... value=...>` fields it holds. */
  datatype Node = Markup(html: string) | Slot(hidden: bool, inputs: map<string, string>)
}
