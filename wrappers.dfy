/** Optional values, standing for the Java references that may be null. */
module Wrappers {

  datatype Option<+T> = None | Some(value: T)

  /** A Java string that is null or of length zero. */
  predicate IsNullOrEmpty(s: Option<string>)
  {
    s.None? || s.value == ""
  }

  predicate StartsWith(s: string, prefix: string)
  {
    |prefix| <= |s| && s[..|prefix|] == prefix
  }
}
