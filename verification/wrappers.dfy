/** Small failure-carrying datatypes shared by the storyboard model. */
module Wrappers {

  /** A value that may be absent: `undefined`/`null` in the editor's code. */
  datatype Option<+T> = None | Some(value: T)

  /** What the JSON parser made of a text: it either threw or produced a value.
      The parser itself is not modelled; callers receive it as a parameter. */
  datatype ParseResult<+T> = ParseFailed | Parsed(value: T)
}
