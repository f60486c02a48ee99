/**
 The attribute vocabulary the node formatter consumes, and the two formatting
 collaborators it calls. Style keywords (src/style.rs), the render options
 (src/render.rs) and label quoting (src/utils.rs) are not part of this model:
 only what src/node.rs relies on is stated here.
 */
module Vocabulary {

  /**
   A node's line or fill style. The formatter only tells the distinguished
   `None` member (no style set, never emitted) from the others, which are
   told apart by a tag.
   */
  datatype Style = None | Named(tag: nat)

  /** The render-suppression flags that the node formatter looks for. */
  datatype RenderOption = NoNodeLabels | NoNodeStyles | NoNodeColors

  /**
   The external formatters, left uninterpreted: `quote` is `quote_string`
   and `styleKeyword` is `Style::as_slice`. Nothing is assumed about either.
   */
  datatype Formatters = Formatters(quote: string -> string, styleKeyword: Style -> string)
}
