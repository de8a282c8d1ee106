/**
 * The parts of the JavaScript runtime that the retrieval engine and the
 * analytics recorders lean on: optional values and thrown errors, the loose
 * values stored in metadata records with their truthiness, and the array
 * operations `slice`, `reverse` and `filter`.
 */
module Js {

  datatype Option<+T> = None | Some(value: T)

  /** A call that either returns a value or throws an error. */
  datatype Result<+T, +E> = Success(value: T) | Failure(error: E)

  /** A call that either completes or throws an error. */
  datatype Outcome<+E> = Pass | Fail(error: E)

  /** A value held in a metadata record; `Compound` stands for any object or array. */
  datatype Value = Str(s: string) | Num(n: real) | Bool(b: bool) | Null | Compound

  /** JavaScript truthiness (NaN is not modelled). */
  predicate Truthy(v: Value)
  {
    match v
    case Str(s) => s != ""
    case Num(n) => n != 0.0
    case Bool(b) => b
    case Null => false
    case Compound => true
  }

  /** A document's metadata: `undefined`/`null`, or a record of named fields. */
  datatype Meta = Absent | Record(fields: map<string, Value>)

  /** `meta?.name`: None stands for `undefined`. */
  function Field(m: Meta, name: string): Option<Value>
  {
    if m.Record? && name in m.fields then Some(m.fields[name]) else None
  }

  /** `v || fallback` */
  function OrElse(v: Option<Value>, fallback: Value): (r: Value)
    ensures v.Some? && Truthy(v.value) ==> r == v.value
    ensures v.None? || !Truthy(v.value) ==> r == fallback
  {
    if v.Some? && Truthy(v.value) then v.value else fallback
  }

  /** How `slice` resolves an index argument: a negative one counts back from
      the end, and the position is clamped to `0..len`. */
  function SliceIndex(k: int, len: nat): (i: nat)
    ensures i <= len
    ensures 0 <= k <= len ==> i == k
    ensures k < 0 && -k <= len ==> i == len + k
  {
    if k < 0 then (if len + k < 0 then 0 else len + k)
    else if k < len then k else len
  }

  /** `s.slice(0, end)` */
  function SliceUpTo<T>(s: seq<T>, end: int): seq<T>
  {
    s[..SliceIndex(end, |s|)]
  }

  /** `s.slice(start)` */
  function SliceFrom<T>(s: seq<T>, start: int): seq<T>
  {
    s[SliceIndex(start, |s|)..]
  }

  /** `s.slice().reverse()` */
  function Reverse<T>(s: seq<T>): (r: seq<T>)
    ensures |r| == |s|
  {
    seq(|s|, i requires 0 <= i < |s| => s[|s| - 1 - i])
  }

  /** `s.filter(p)` */
  function Filter<T>(s: seq<T>, p: T -> bool): (r: seq<T>)
    ensures |r| <= |s|
  {
    if s == [] then [] else (if p(s[0]) then [s[0]] else []) + Filter(s[1..], p)
  }

  /** `filter` keeps exactly the elements that pass the test. */
  lemma {:induction false} FilterMembers<T>(s: seq<T>, p: T -> bool)
    ensures forall x :: x in Filter(s, p) <==> x in s && p(x)
  {
    if s != [] {
      FilterMembers(s[1..], p);
      assert s == [s[0]] + s[1..];
    }
  }

  /** `filter` keeps the surviving elements in their original order: filtering a
      concatenation filters each part. */
  lemma {:induction false} FilterConcat<T>(a: seq<T>, b: seq<T>, p: T -> bool)
    ensures Filter(a + b, p) == Filter(a, p) + Filter(b, p)
  {
    if a == [] {
      assert a + b == b;
    } else {
      var head := if p(a[0]) then [a[0]] else [];
      assert (a + b)[0] == a[0];
      assert (a + b)[1..] == a[1..] + b;
      assert Filter(a + b, p) == head + Filter(a[1..] + b, p);
      FilterConcat(a[1..], b, p);
      assert head + (Filter(a[1..], p) + Filter(b, p)) == (head + Filter(a[1..], p)) + Filter(b, p);
    }
  }

  /** The positions in `s` of the elements that pass `p`, in increasing
      order. */
  function Passing<T>(s: seq<T>, p: T -> bool): (r: seq<nat>)
    ensures forall k :: 0 <= k < |r| ==> r[k] < |s|
  {
    if s == [] then []
    else Passing(s[..|s| - 1], p) + (if p(s[|s| - 1]) then [|s| - 1] else [])
  }

  /** The positions are increasing, each is that of a passing element, and
      no passing element's position is left out. */
  lemma {:induction false} PassingCorrect<T>(s: seq<T>, p: T -> bool)
    ensures forall k :: 0 <= k < |Passing(s, p)| ==> p(s[Passing(s, p)[k]])
    ensures forall k, l :: 0 <= k < l < |Passing(s, p)| ==> Passing(s, p)[k] < Passing(s, p)[l]
    ensures forall i :: 0 <= i < |s| && p(s[i]) ==> i in Passing(s, p)
  {
    if s != [] {
      var init := s[..|s| - 1];
      PassingCorrect(init, p);
      assert forall i :: 0 <= i < |init| ==> init[i] == s[i];
    }
  }

  /** `filter` returns exactly the passing elements, in the order of their
      positions in `s`. */
  lemma {:induction false} FilterPassing<T>(s: seq<T>, p: T -> bool)
    ensures |Filter(s, p)| == |Passing(s, p)|
    ensures forall k :: 0 <= k < |Filter(s, p)| ==> Filter(s, p)[k] == s[Passing(s, p)[k]]
  {
    if s != [] {
      var init, last := s[..|s| - 1], s[|s| - 1];
      FilterPassing(init, p);
      PassingCorrect(init, p);
      assert s == init + [last];
      FilterConcat(init, [last], p);
      var tail := if p(last) then [last] else [];
      assert Filter([last], p) == tail;
      var f, pos := Filter(init, p), Passing(init, p);
      assert Filter(s, p) == f + tail;
      assert Passing(s, p) == pos + (if p(last) then [|s| - 1] else []);
      forall k | 0 <= k < |f + tail|
        ensures (f + tail)[k] == s[Passing(s, p)[k]]
      {
        if k < |f| {
          assert (f + tail)[k] == f[k] == init[pos[k]];
        }
      }
    }
  }

  /** When every element passes, `filter` returns its input unchanged. */
  lemma {:induction false} FilterAll<T>(s: seq<T>, p: T -> bool)
    requires forall i :: 0 <= i < |s| ==> p(s[i])
    ensures Filter(s, p) == s
  {
    if s != [] {
      FilterAll(s[1..], p);
    }
  }
}
