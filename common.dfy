/** Small shared vocabulary: optional values (JavaScript's `undefined`), the
    `Array.prototype.filter` the store and the pages use everywhere, and the
    `parseFloat(x) || 0` idiom of the forms. */
module Common {

  /** A value that may be absent; `None` plays the part of `undefined`. */
  datatype Option<+T> = None | Some(value: T) {
    function GetOr(default: T): T {
      match this
      case Some(v) => v
      case None => default
    }
  }

  /** `s.filter(f)`: the elements of `s` that satisfy `f`, in their order. */
  function Filter<T(!new)>(f: T -> bool, s: seq<T>): (r: seq<T>)
    ensures |r| <= |s|
    ensures forall x :: x in r <==> x in s && f(x)
  {
    if s == [] then [] else (if f(s[0]) then [s[0]] else []) + Filter(f, s[1..])
  }

  /** Filtering distributes over concatenation: what comes first in the input
      comes first in the output. */
  lemma {:induction false} FilterConcat<T(!new)>(f: T -> bool, a: seq<T>, b: seq<T>)
    ensures Filter(f, a + b) == Filter(f, a) + Filter(f, b)
  {
    if a == [] {
      assert a + b == b;
    } else {
      assert (a + b)[0] == a[0];
      assert (a + b)[1..] == a[1..] + b;
      FilterConcat(f, a[1..], b);
    }
  }

  /** The filter's result is exactly the subsequence of `s` at the positions
      whose element satisfies `f`: `idx` lists those positions in increasing
      order and the result picks `s` at each of them. */
  lemma {:induction false} FilterIndices<T(!new)>(f: T -> bool, s: seq<T>) returns (idx: seq<nat>)
    ensures |idx| == |Filter(f, s)|
    ensures forall j :: 0 <= j < |idx| ==> idx[j] < |s| && Filter(f, s)[j] == s[idx[j]]
    ensures forall j, k :: 0 <= j < k < |idx| ==> idx[j] < idx[k]
    ensures forall i :: 0 <= i < |s| ==> (f(s[i]) <==> i in idx)
  {
    if s == [] {
      idx := [];
    } else {
      var rest := FilterIndices(f, s[1..]);
      var shifted := Shift(rest);
      ShiftMarks(f, s, rest);
      ShiftPicks(s, Filter(f, s[1..]), rest);
      if f(s[0]) {
        idx := [0] + shifted;
        ZeroThenShift(rest);
      } else {
        idx := shifted;
      }
    }
  }

  /** Position 0 followed by increasing positions moved right stays increasing. */
  lemma ZeroThenShift(rest: seq<nat>)
    requires forall j, k :: 0 <= j < k < |rest| ==> rest[j] < rest[k]
    ensures forall j, k :: 0 <= j < k < |Shift(rest)| ==> Shift(rest)[j] < Shift(rest)[k]
    ensures forall j, k :: 0 <= j < k < |rest| + 1 ==> ([0] + Shift(rest))[j] < ([0] + Shift(rest))[k]
  {
    var idx := [0] + Shift(rest);
    forall j, k | 0 <= j < k < |idx| ensures idx[j] < idx[k] {
      assert idx[k] == Shift(rest)[k - 1];
      if j > 0 {
        assert idx[j] == Shift(rest)[j - 1];
      }
    }
  }

  /** The positions found in `s[1..]`, moved right by one, pick the same
      elements out of `s`. */
  lemma ShiftPicks<T>(s: seq<T>, tail: seq<T>, rest: seq<nat>)
    requires |s| > 0 && |rest| == |tail|
    requires forall j :: 0 <= j < |rest| ==> rest[j] < |s| - 1 && tail[j] == s[1..][rest[j]]
    ensures forall j :: 0 <= j < |rest| ==> Shift(rest)[j] < |s| && tail[j] == s[Shift(rest)[j]]
  {
    forall j | 0 <= j < |rest| ensures Shift(rest)[j] < |s| && tail[j] == s[Shift(rest)[j]] {
      var p := rest[j];
      assert s[1..][p] == s[p + 1];
    }
  }

  /** The positions marked in `s[1..]`, moved right by one, mark `s` from
      position 1 on; position 0 is never among them. */
  lemma ShiftMarks<T>(f: T -> bool, s: seq<T>, rest: seq<nat>)
    requires |s| > 0
    requires forall i :: 0 <= i < |s| - 1 ==> (f(s[1..][i]) <==> i in rest)
    ensures forall i :: 1 <= i < |s| ==> (f(s[i]) <==> i in Shift(rest))
    ensures 0 !in Shift(rest)
  {
    forall i | 1 <= i < |s|
      ensures f(s[i]) <==> i in Shift(rest)
    {
      assert s[i] == s[1..][i - 1];
      ShiftIn(rest, i - 1);
    }
    ShiftIn(rest, 0);
  }

  /** Every position moved one place to the right. */
  function Shift(xs: seq<nat>): (r: seq<nat>)
    ensures |r| == |xs|
    ensures forall j :: 0 <= j < |xs| ==> r[j] == xs[j] + 1
  {
    if xs == [] then [] else [xs[0] + 1] + Shift(xs[1..])
  }

  lemma ShiftIn(xs: seq<nat>, i: nat)
    ensures i + 1 in Shift(xs) <==> i in xs
    ensures 0 !in Shift(xs)
  {
    var r := Shift(xs);
    if i in xs {
      var j :| 0 <= j < |xs| && xs[j] == i;
      assert r[j] == i + 1;
    }
    if i + 1 in r {
      var j :| 0 <= j < |r| && r[j] == i + 1;
      assert xs[j] == i;
    }
  }

  /** A filter that rejects every element yields the empty list. */
  lemma FilterNone<T(!new)>(f: T -> bool, s: seq<T>)
    requires forall x :: x in s ==> !f(x)
    ensures Filter(f, s) == []
  {
  }

  /** A filter that accepts every element returns the list unchanged. */
  lemma {:induction false} FilterAll<T(!new)>(f: T -> bool, s: seq<T>)
    requires forall x :: x in s ==> f(x)
    ensures Filter(f, s) == s
  {
    if s != [] {
      assert s[0] in s;
      assert forall x :: x in s[1..] ==> x in s;
      FilterAll(f, s[1..]);
    }
  }

  /** `parseFloat(text) || 0` with `parse` standing for `parseFloat`
      (`None` is NaN): a failed parse and a parsed zero both give 0. */
  function ParseOrZero(parse: string -> Option<real>, text: string): (r: real)
    ensures parse(text).Some? ==> r == parse(text).value
    ensures parse(text).None? ==> r == 0.0
  {
    match parse(text)
    case Some(v) => if v != 0.0 then v else 0.0
    case None => 0.0
  }
}
