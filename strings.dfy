/** Text helpers shared by the client and the OAuth flow. */
module Strings {
  /** Python's str.endswith for one suffix. */
  predicate EndsWith(s: string, suffix: string) {
    |suffix| <= |s| && s[|s| - |suffix|..] == suffix
  }
}
