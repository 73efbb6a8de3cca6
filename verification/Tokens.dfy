/** The caches never look into a token; nor does the model. */
module Tokens {
  /** What a key row, or a step of a recurrent state, is computed from. Nothing is assumed about it. */
  type Token(==, !new, 0)
}
