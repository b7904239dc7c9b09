// The array expressions the components use on their lists:
// `filter((_, i) => i !== index)`, `slice(0, n)` and reading a list newest first.

module Lists {

  function Min(a: int, b: int): int {
    if a <= b then a else b
  }

  /** `s.filter((_, j) => j !== i)`: drops the element at index `i`, keeping
      the others in order; an index outside the list drops nothing. */
  function RemoveAt<T>(s: seq<T>, i: int): (r: seq<T>)
    ensures 0 <= i < |s| ==> |r| == |s| - 1 && r[..i] == s[..i] && r[i..] == s[i + 1..]
    ensures !(0 <= i < |s|) ==> r == s
    ensures forall x :: x in r ==> x in s
  {
    if s == [] then []
    else
      var rest := RemoveAt(s[1..], i - 1);
      if i == 0 then
        assert s[1..] == s[i + 1..];
        rest
      else
        assert 0 < i < |s| ==> rest[..i - 1] == s[1..i] && rest[i - 1..] == s[i + 1..];
        assert !(0 <= i < |s|) ==> rest == s[1..];
        [s[0]] + rest
  }

  /** `s.slice(0, n)`: the first `n` elements, or all of them if fewer. */
  function Take<T>(s: seq<T>, n: nat): (r: seq<T>)
    ensures |r| == Min(|s|, n) && r == s[..|r|]
  {
    if |s| <= n then s else s[..n]
  }

  /** The elements of `s` from last to first. */
  function Reversed<T>(s: seq<T>): (r: seq<T>)
    ensures |r| == |s|
  {
    if s == [] then [] else [s[|s| - 1]] + Reversed(s[..|s| - 1])
  }

  /** Element `k` of the reversal is element |s|-1-k of `s`. */
  lemma {:induction false} ReversedAt<T>(s: seq<T>, k: int)
    requires 0 <= k < |s|
    ensures Reversed(s)[k] == s[|s| - 1 - k]
  {
    if k > 0 {
      ReversedAt(s[..|s| - 1], k - 1);
    }
  }
}
