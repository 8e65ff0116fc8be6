/** Sequence combinators in the shape of JavaScript's Array.prototype.map and
    Array.prototype.filter, with the facts the game model needs about them. */
module Seqs {

  /** The elements of `s` transformed by `f`, in order. */
  function Map<T, U>(s: seq<T>, f: T -> U): (r: seq<U>)
    ensures |r| == |s|
    ensures forall i :: 0 <= i < |s| ==> r[i] == f(s[i])
  {
    if s == [] then [] else [f(s[0])] + Map(s[1..], f)
  }

  /** The elements of `s` that satisfy `p`, in their original order. */
  function Filter<T>(s: seq<T>, p: T -> bool): (r: seq<T>)
    ensures |r| <= |s|
    ensures forall i :: 0 <= i < |r| ==> p(r[i])
  {
    if s == [] then []
    else if p(s[0]) then [s[0]] + Filter(s[1..], p)
    else Filter(s[1..], p)
  }

  /** A filter keeps exactly the elements that satisfy its predicate. */
  lemma {:induction false} FilterMembers<T>(s: seq<T>, p: T -> bool)
    ensures forall i :: 0 <= i < |Filter(s, p)| ==> Filter(s, p)[i] in s
    ensures forall i :: 0 <= i < |s| && p(s[i]) ==> s[i] in Filter(s, p)
  {
    if s != [] {
      FilterMembers(s[1..], p);
      var r := Filter(s, p);
      var t := Filter(s[1..], p);
      forall i | 0 <= i < |r| ensures r[i] in s {
        if p(s[0]) && i == 0 {
        } else {
          var k := if p(s[0]) then i - 1 else i;
          assert r[i] == t[k];
          assert t[k] in s[1..];
        }
      }
      forall i | 0 <= i < |s| && p(s[i]) ensures s[i] in r {
        if i > 0 {
          assert s[i] == s[1..][i - 1];
        }
      }
    }
  }

  /** `a` is obtained from `b` by deleting zero or more elements. */
  ghost predicate IsSubsequence<T>(a: seq<T>, b: seq<T>)
    decreases |b|
  {
    a == [] ||
    (b != [] &&
      ((a[0] == b[0] && IsSubsequence(a[1..], b[1..])) || IsSubsequence(a, b[1..])))
  }

  /** Filtering never reorders: what it keeps is a subsequence of its input. */
  lemma {:induction false} FilterIsSubsequence<T>(s: seq<T>, p: T -> bool)
    ensures IsSubsequence(Filter(s, p), s)
  {
    if s != [] {
      FilterIsSubsequence(s[1..], p);
      if p(s[0]) {
        assert Filter(s, p)[1..] == Filter(s[1..], p);
      }
    }
  }

  /** Filtering distributes over appending one element at the end. */
  lemma {:induction false} FilterSnoc<T>(s: seq<T>, x: T, p: T -> bool)
    ensures Filter(s + [x], p) == Filter(s, p) + (if p(x) then [x] else [])
  {
    if s == [] {
      assert [x][1..] == [];
    } else {
      assert (s + [x])[1..] == s[1..] + [x];
      FilterSnoc(s[1..], x, p);
    }
  }

  /** Every element goes to exactly one side of a filter and its negation. */
  lemma {:induction false} FilterPartition<T>(s: seq<T>, p: T -> bool, q: T -> bool)
    requires forall x :: q(x) == !p(x)
    ensures |Filter(s, p)| + |Filter(s, q)| == |s|
  {
    if s != [] {
      FilterPartition(s[1..], p, q);
    }
  }

  /** Positions along `pos` rise by at least `gap` from any element to any later one. */
  ghost predicate Spaced<T>(s: seq<T>, pos: T -> real, gap: real)
  {
    forall i, j :: 0 <= i < j < |s| ==> pos(s[i]) + gap <= pos(s[j])
  }

  /** Deleting elements keeps a spaced sequence spaced. */
  lemma {:induction false} FilterSpaced<T>(s: seq<T>, p: T -> bool, pos: T -> real, gap: real)
    requires Spaced(s, pos, gap)
    ensures Spaced(Filter(s, p), pos, gap)
  {
    if s != [] {
      var tail := Filter(s[1..], p);
      FilterMembers(s[1..], p);
      assert Spaced(s[1..], pos, gap) by {
        forall i, j | 0 <= i < j < |s| - 1
          ensures pos(s[1..][i]) + gap <= pos(s[1..][j])
        {
          assert s[1..][i] == s[i + 1] && s[1..][j] == s[j + 1];
        }
      }
      FilterSpaced(s[1..], p, pos, gap);
      if p(s[0]) {
        var r := [s[0]] + tail;
        forall i, j | 0 <= i < j < |r| ensures pos(r[i]) + gap <= pos(r[j]) {
          if i == 0 {
            assert r[j] in s[1..];
            var k :| 0 <= k < |s[1..]| && s[1..][k] == r[j];
            assert s[k + 1] == r[j];
          } else {
            assert r[i] == tail[i - 1] && r[j] == tail[j - 1];
          }
        }
      }
    }
  }

  /** Appending an element that lies at least `gap` beyond every element keeps a sequence spaced. */
  lemma SpacedSnoc<T>(s: seq<T>, x: T, pos: T -> real, gap: real)
    requires Spaced(s, pos, gap)
    requires forall i :: 0 <= i < |s| ==> pos(s[i]) + gap <= pos(x)
    ensures Spaced(s + [x], pos, gap)
  {
  }

  /** Moving every element by the same amount keeps a sequence spaced. */
  lemma SpacedMap<T>(s: seq<T>, f: T -> T, pos: T -> real, gap: real, d: real)
    requires Spaced(s, pos, gap)
    requires forall x :: pos(f(x)) == pos(x) + d
    ensures Spaced(Map(s, f), pos, gap)
  {
  }

  /** In a spaced sequence the last position lies at least `gap` per step beyond the first. */
  lemma {:induction false} SpacedSpan<T>(s: seq<T>, pos: T -> real, gap: real)
    requires Spaced(s, pos, gap) && s != []
    ensures pos(s[|s| - 1]) - pos(s[0]) >= gap * (|s| - 1) as real
  {
    if |s| > 1 {
      var t := s[1..];
      assert Spaced(t, pos, gap) by {
        forall i, j | 0 <= i < j < |t| ensures pos(t[i]) + gap <= pos(t[j]) {
          assert t[i] == s[i + 1] && t[j] == s[j + 1];
        }
      }
      SpacedSpan(t, pos, gap);
      assert t[|t| - 1] == s[|s| - 1];
      assert pos(s[0]) + gap <= pos(s[1]);
      assert gap * (|s| - 1) as real == gap * (|t| - 1) as real + gap;
    }
  }
}
