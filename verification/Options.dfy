/** The optional values that stand for missing lookups and unanswered calls. */
module Options {
  datatype Option<+T> = None | Some(value: T)
}
