/** The array helpers the source relies on (`slice`, `filter`, `find`,
    spread-prepend), as functions on sequences. */
module Seqs {
  import opened Base

  function Min(a: int, b: int): int { if a <= b then a else b }

  function Max(a: int, b: int): int { if a <= b then b else a }

  /** `s.slice(0, n)`: the first `n` elements, or all of them if there are fewer. */
  function Take<T>(s: seq<T>, n: nat): (r: seq<T>)
    ensures |r| == Min(n, |s|)
    ensures forall i :: 0 <= i < |r| ==> r[i] == s[i]
  {
    if n <= |s| then s[..n] else s
  }

  /** `s.slice(from, to)` for non-negative bounds: both bounds are clamped to
      the length, and an empty range gives the empty sequence. */
  function Slice<T>(s: seq<T>, from: nat, to: nat): (r: seq<T>)
    ensures |r| == Max(0, Min(to, |s|) - Min(from, |s|))
    ensures forall i :: 0 <= i < |r| ==> from + i < |s| && r[i] == s[from + i]
  {
    var lo, hi := Min(from, |s|), Min(to, |s|);
    if lo < hi then s[lo..hi] else []
  }

  /** `[x, ...s].slice(0, n)`: put `x` in front and keep at most `n` entries,
      dropping from the far end. */
  function PushBounded<T>(x: T, s: seq<T>, n: nat): (r: seq<T>)
    requires 0 < n
    ensures |r| == Min(|s| + 1, n)
    ensures r[0] == x
    ensures r[1..] == Take(s, n - 1)
  {
    Take([x] + s, n)
  }

  /** `s.filter(keep)`. */
  function Filter<T>(s: seq<T>, keep: T -> bool): (r: seq<T>)
    ensures |r| <= |s|
    ensures forall x :: x in r ==> x in s && keep(x)
    ensures forall x :: x in s && keep(x) ==> x in r
  {
    if s == [] then []
    else (if keep(s[0]) then [s[0]] else []) + Filter(s[1..], keep)
  }

  /** `s.find(keep)`: the first element that passes, if any. */
  function Find<T>(s: seq<T>, keep: T -> bool): (r: Option<T>)
    ensures r.Some? ==> r.value in s && keep(r.value)
    ensures r.None? <==> forall x :: x in s ==> !keep(x)
  {
    if s == [] then None
    else if keep(s[0]) then Some(s[0])
    else Find(s[1..], keep)
  }

  function Reverse<T>(s: seq<T>): (r: seq<T>)
  {
    if s == [] then [] else Reverse(s[1..]) + [s[0]]
  }

  /** Filtering keeps the relative order: it distributes over concatenation. */
  lemma {:induction false} FilterAppend<T>(a: seq<T>, b: seq<T>, keep: T -> bool)
    ensures Filter(a + b, keep) == Filter(a, keep) + Filter(b, keep)
  {
    if a == [] {
      assert a + b == b;
    } else {
      var head := if keep(a[0]) then [a[0]] else [];
      assert (a + b)[0] == a[0] && (a + b)[1..] == a[1..] + b;
      FilterAppend(a[1..], b, keep);
      calc {
        Filter(a + b, keep);
        head + Filter(a[1..] + b, keep);
        head + (Filter(a[1..], keep) + Filter(b, keep));
        (head + Filter(a[1..], keep)) + Filter(b, keep);
      }
    }
  }

  lemma FilterKeepsOne<T>(x: T, keep: T -> bool)
    requires keep(x)
    ensures Filter([x], keep) == [x]
  {
    assert [x][1..] == [];
  }

  /** Filtering with a test everything passes changes nothing. */
  lemma {:induction false} FilterKeepsAll<T>(s: seq<T>, keep: T -> bool)
    requires forall x :: x in s ==> keep(x)
    ensures Filter(s, keep) == s
  {
    if s != [] {
      FilterKeepsAll(s[1..], keep);
    }
  }

  /** `find` returns the head of what `filter` would keep. */
  lemma {:induction false} FindIsFirstKept<T>(s: seq<T>, keep: T -> bool)
    ensures Find(s, keep) == (if Filter(s, keep) == [] then None else Some(Filter(s, keep)[0]))
  {
    if s != [] && !keep(s[0]) {
      FindIsFirstKept(s[1..], keep);
    }
  }

  /** Whatever precedes the element `find` returns fails the test. */
  lemma {:induction false} FindIsFirst<T>(s: seq<T>, keep: T -> bool, i: nat)
    requires i < |s| && keep(s[i])
    ensures Find(s, keep).Some?
    ensures (forall j :: 0 <= j < i ==> !keep(s[j])) ==> Find(s, keep) == Some(s[i])
  {
    if i > 0 && !keep(s[0]) {
      FindIsFirst(s[1..], keep, i - 1);
    }
  }

  /** The element `find` returns sits at an index before which nothing passes. */
  lemma {:induction false} FindHasFirstIndex<T>(s: seq<T>, keep: T -> bool)
    ensures Find(s, keep).Some? ==>
              exists i :: 0 <= i < |s| && s[i] == Find(s, keep).value && forall j :: 0 <= j < i ==> !keep(s[j])
  {
    if s != [] && keep(s[0]) {
      assert s[0] == Find(s, keep).value;
    } else if s != [] {
      FindHasFirstIndex(s[1..], keep);
      if Find(s[1..], keep).Some? {
        var i :| 0 <= i < |s[1..]| && s[1..][i] == Find(s[1..], keep).value
                 && forall j :: 0 <= j < i ==> !keep(s[1..][j]);
        forall j | 0 <= j < i + 1
          ensures !keep(s[j])
        {
          if j > 0 {
            assert s[j] == s[1..][j - 1];
          }
        }
        assert s[i + 1] == Find(s, keep).value;
      }
    }
  }

  /** Truncating the tail first does not change a truncation of the whole. */
  lemma TakeOfTake<T>(a: seq<T>, b: seq<T>, n: nat)
    ensures Take(a + Take(b, n), n) == Take(a + b, n)
  {
    if n <= |a| {
      assert (a + Take(b, n))[..n] == a[..n] == (a + b)[..n];
    } else if n <= |b| {
      assert Take(a + Take(b, n), n) == (a + b[..n])[..n];
      assert (a + b[..n])[..n] == (a + b)[..n];
    }
  }
}
