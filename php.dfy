/** The few PHP value rules the relay depends on. */
module Php {
  /**
   * PHP's `empty()` (and the falsiness used by `?:` and `if`) on a string value:
   * both "" and "0" are empty. A missing (null) value is modelled as "".
   */
  predicate Empty(s: string) {
    s == "" || s == "0"
  }

  /** `strncmp(s, p, strlen(p)) == 0`, equivalently `substr(s, 0, strlen(p)) == p`. */
  predicate HasPrefix(s: string, p: string) {
    |p| <= |s| && s[..|p|] == p
  }
}
