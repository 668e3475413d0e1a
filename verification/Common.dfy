/** Small functions on numbers and sequences that several components share. */
module Common {
  function Max(a: int, b: int): int {
    if a < b then b else a
  }

  function Min(a: int, b: int): int {
    if a < b then a else b
  }

  /** The sequence without its element at `i`. */
  function Without<T>(q: seq<T>, i: nat): (r: seq<T>)
    requires i < |q|
    ensures |r| == |q| - 1
  {
    q[..i] + q[i + 1..]
  }

  ghost predicate Rising(times: seq<int>) {
    forall i, j :: 0 <= i < j < |times| ==> times[i] < times[j]
  }

  /** Puts `t` in its place, once. */
  method Insert(times: seq<int>, t: int) returns (r: seq<int>)
    requires Rising(times)
    ensures Rising(r) && forall x :: x in r <==> x in times || x == t
  {
    var k := 0;
    while k < |times| && times[k] < t
      invariant k <= |times| && forall i :: 0 <= i < k ==> times[i] < t
    {
      k := k + 1;
    }
    if k < |times| && times[k] == t { return times; }
    r := times[..k] + [t] + times[k..];
    forall x
      ensures x in r <==> x in times || x == t
    {
      assert times == times[..k] + times[k..];
    }
  }
}
