/** What several modules need about sequences. */
module Lists {

  /** `s` without its first occurrence of `x`. */
  function RemoveOne<T(==)>(s: seq<T>, x: T): seq<T> {
    if s == [] then []
    else if s[0] == x then s[1..]
    else [s[0]] + RemoveOne(s[1..], x)
  }
}
