/** Small shared vocabulary: Swift optionals, raw bytes and `firstIndex`. */
module Common {

  /** Swift's `Optional`: `nil` is `None`. */
  datatype Option<+T> = None | Some(value: T) {

    /** Swift's `??` operator. */
    function GetOr(default: T): T {
      match this
      case Some(v) => v
      case None => default
    }
  }

  /** Foundation's `Data`, treated as opaque bytes. */
  type Bytes = seq<bv8>

  /** Position of the first element of `s` equal to `x`, or `None`; Swift's
      `firstIndex(where: { $0 == x })`. */
  function FirstIndexOf<T(==)>(s: seq<T>, x: T): (r: Option<nat>)
    ensures r.Some? ==> r.value < |s| && s[r.value] == x && x !in s[..r.value]
    ensures r.None? <==> x !in s
  {
    if s == [] then None
    else if s[0] == x then Some(0)
    else
      match FirstIndexOf(s[1..], x)
      case None => None
      case Some(k) =>
        assert s[1..][..k] == s[1..k + 1];
        Some(k + 1)
  }

  /** In a sequence without repetitions, the first occurrence of the element at
      `k` is `k` itself. */
  lemma {:induction false} FirstIndexOfDistinct<T>(s: seq<T>, k: nat)
    requires k < |s|
    requires forall i, j :: 0 <= i < j < |s| ==> s[i] != s[j]
    ensures FirstIndexOf(s, s[k]) == Some(k)
  {
    assert s[k] in s;
  }
}
