/** A Java reference that may be null, and Android's test for an empty text. */
module Nullable {

  datatype Option<+T> = None | Some(value: T)

  /** TextUtils.isEmpty: true for a null string and for the empty string. */
  predicate IsEmpty(s: Option<string>): (empty: bool)
    ensures s.None? ==> empty
    ensures s == Some("") ==> empty
    ensures s.Some? && |s.value| > 0 ==> !empty
  {
    s.None? || |s.value| == 0
  }
}
