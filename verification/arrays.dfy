/** The array edits the reducers perform through immutability-helper:
    `$push`, and `$splice` with JavaScript's `Array.prototype.splice` rules
    for the start position (negative counts from the end, both ends clamp). */
module Arrays {

  /** `r` equals `s` except, possibly, at position `i`. */
  ghost predicate OnlyAt<T>(s: seq<T>, r: seq<T>, i: int)
  {
    |r| == |s| && forall j :: 0 <= j < |s| && j != i ==> r[j] == s[j]
  }

  /** `r` is `s` with the element at `k` taken out and the rest kept in order. */
  ghost predicate RemovedAt<T>(s: seq<T>, k: int, r: seq<T>)
  {
    && 0 <= k < |s|
    && |r| == |s| - 1
    && (forall j :: 0 <= j < k ==> r[j] == s[j])
    && (forall j :: k <= j < |r| ==> r[j] == s[j + 1])
  }

  /** `$push: [x]`: `x` is added after the last element. */
  function Push<T>(s: seq<T>, x: T): (r: seq<T>)
    ensures |r| == |s| + 1 && r[|s|] == x
    ensures forall j :: 0 <= j < |s| ==> r[j] == s[j]
  {
    s + [x]
  }

  /** The position `splice(start, ...)` acts on, for an array of length `len`. */
  function SpliceStart(len: nat, start: int): (k: nat)
    ensures k <= len
  {
    if start < 0 then (if len + start < 0 then 0 else len + start)
    else if start > len then len
    else start
  }

  /** `$splice: [[start, 1]]`: removes the element at `start`, if there is one. */
  function SpliceRemove<T>(s: seq<T>, start: int): (r: seq<T>)
    ensures 0 <= start < |s| ==> RemovedAt(s, start, r)
    ensures -|s| <= start < 0 ==> RemovedAt(s, |s| + start, r)
    ensures start < -|s| && |s| > 0 ==> RemovedAt(s, 0, r)
    ensures start >= |s| || |s| == 0 ==> r == s
  {
    var k := SpliceStart(|s|, start);
    if k < |s| then s[..k] + s[k + 1..] else s
  }

  /** `$splice: [[start, 1, v]]`: replaces the element at `start` by `v`, or
      appends `v` when `start` is at or past the end. */
  function SpliceReplace<T>(s: seq<T>, start: int, v: T): (r: seq<T>)
    ensures 0 <= start < |s| ==> r == s[start := v]
    ensures -|s| <= start < 0 ==> r == s[|s| + start := v]
    ensures start < -|s| && |s| > 0 ==> r == s[0 := v]
    ensures start >= |s| || |s| == 0 ==> r == s + [v]
  {
    var k := SpliceStart(|s|, start);
    if k < |s| then s[..k] + [v] + s[k + 1..] else s + [v]
  }

  /** `Array.prototype.indexOf`: the first position holding `x`, or -1. */
  function IndexOf<T(==)>(s: seq<T>, x: T): (r: int)
    ensures -1 <= r < |s|
    ensures r == -1 <==> x !in s
    ensures r >= 0 ==> s[r] == x && forall j :: 0 <= j < r ==> s[j] != x
  {
    if |s| == 0 then -1
    else if s[0] == x then 0
    else
      var k := IndexOf(s[1..], x);
      if k == -1 then -1 else k + 1
  }

  /** Removing at the last index undoes a push. */
  lemma PushThenRemoveLast<T>(s: seq<T>, x: T)
    ensures SpliceRemove(Push(s, x), |s|) == s
  {
    assert (s + [x])[..|s|] == s;
  }
}
