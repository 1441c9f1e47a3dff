/** The value of one feature. */
module Scoring {
  /** -1 for phishing, 0 for suspicious, 1 for legitimate. */
  type Score = x: int | x == -1 || x == 0 || x == 1
}
