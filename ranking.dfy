/** Ranking a classifier's predictions by non-increasing score with the
    stable sort `Array.prototype.sort` performs under the comparator
    `(a, b) => b.score - a.score`. */
module Ranking {
  import opened Types

  predicate SortedDesc(s: seq<Prediction>)
  {
    forall i, j :: 0 <= i < j < |s| ==> s[i].score >= s[j].score
  }

  /** `x` placed after every element of `t` scoring at least as much, that
      is, after the prefix that a stable sort keeps in front of it. */
  function Insert(x: Prediction, t: seq<Prediction>): seq<Prediction>
  {
    if t == [] then [x]
    else if t[0].score >= x.score then [t[0]] + Insert(x, t[1..])
    else [x] + t
  }

  /** The reference sort: each element, in input order, inserted into the
      ranking of those before it. */
  function SortByScore(s: seq<Prediction>): seq<Prediction>
    decreases |s|
  {
    if s == [] then [] else Insert(s[|s| - 1], SortByScore(s[..|s| - 1]))
  }

  /** The elements of `s` scoring exactly `v`, in order. */
  function WithScore(s: seq<Prediction>, v: real): seq<Prediction>
  {
    if s == [] then []
    else (if s[0].score == v then [s[0]] else []) + WithScore(s[1..], v)
  }

  // ---------------------------------------------------------------------------
  // Properties of Insert

  lemma {:induction false} InsertPermutes(x: Prediction, t: seq<Prediction>)
    ensures multiset(Insert(x, t)) == multiset(t) + multiset{x}
    ensures |Insert(x, t)| == |t| + 1
  {
    if t != [] {
      assert t == [t[0]] + t[1..];
      if t[0].score >= x.score {
        InsertPermutes(x, t[1..]);
      }
    }
  }

  lemma {:induction false} InsertSorted(x: Prediction, t: seq<Prediction>)
    requires SortedDesc(t)
    ensures SortedDesc(Insert(x, t))
  {
    if t != [] && t[0].score >= x.score {
      InsertSorted(x, t[1..]);
      InsertPermutes(x, t[1..]);
      var r := Insert(x, t[1..]);
      forall p | p in r
        ensures t[0].score >= p.score
      {
        assert p in multiset(r);
        if p != x {
          assert p in multiset(t[1..]);
        }
      }
    }
  }

  lemma {:induction false} WithScoreAppend(a: seq<Prediction>, b: seq<Prediction>, v: real)
    ensures WithScore(a + b, v) == WithScore(a, v) + WithScore(b, v)
  {
    if a == [] {
      assert a + b == b;
    } else {
      var h := if a[0].score == v then [a[0]] else [];
      calc {
        WithScore(a + b, v);
        { assert (a + b)[0] == a[0]; assert (a + b)[1..] == a[1..] + b; }
        h + WithScore(a[1..] + b, v);
        { WithScoreAppend(a[1..], b, v); }
        h + (WithScore(a[1..], v) + WithScore(b, v));
        (h + WithScore(a[1..], v)) + WithScore(b, v);
        WithScore(a, v) + WithScore(b, v);
      }
    }
  }

  lemma {:induction false} WithScoreNone(t: seq<Prediction>, v: real)
    requires forall k :: 0 <= k < |t| ==> t[k].score != v
    ensures WithScore(t, v) == []
  {
    if t != [] {
      WithScoreNone(t[1..], v);
    }
  }

  /** Among elements of equal score, `Insert` puts `x` last. */
  lemma {:induction false} InsertStable(x: Prediction, t: seq<Prediction>, v: real)
    requires SortedDesc(t)
    ensures WithScore(Insert(x, t), v) == WithScore(t, v) + (if x.score == v then [x] else [])
  {
    var tail := if x.score == v then [x] else [];
    if t == [] {
      assert Insert(x, t) == [x];
      WithScoreSingleton(x, v);
    } else if t[0].score >= x.score {
      var h := if t[0].score == v then [t[0]] else [];
      var r := Insert(x, t[1..]);
      assert SortedDesc(t[1..]) by {
        forall i, j | 0 <= i < j < |t[1..]|
          ensures t[1..][i].score >= t[1..][j].score
        {
          assert t[1..][i] == t[i + 1] && t[1..][j] == t[j + 1];
        }
      }
      calc {
        WithScore(Insert(x, t), v);
        { assert Insert(x, t) == [t[0]] + r; assert ([t[0]] + r)[1..] == r; }
        h + WithScore(r, v);
        { InsertStable(x, t[1..], v); }
        h + (WithScore(t[1..], v) + tail);
        (h + WithScore(t[1..], v)) + tail;
        WithScore(t, v) + tail;
      }
    } else {
      assert Insert(x, t) == [x] + t;
      if x.score == v {
        assert forall k :: 0 <= k < |t| ==> t[k].score != v by {
          forall k | 0 <= k < |t|
            ensures t[k].score != v
          {
            assert k == 0 || t[0].score >= t[k].score;
          }
        }
        WithScoreNone(t, v);
      }
      assert ([x] + t)[1..] == t;
    }
  }

  // ---------------------------------------------------------------------------
  // Properties of the reference sort

  /** The ranking is sorted by non-increasing score and a permutation of
      its input. */
  lemma {:induction false} SortByScoreSortsAndPermutes(s: seq<Prediction>)
    ensures SortedDesc(SortByScore(s))
    ensures multiset(SortByScore(s)) == multiset(s)
    ensures |SortByScore(s)| == |s|
    decreases |s|
  {
    if s != [] {
      var init := s[..|s| - 1];
      SortByScoreSortsAndPermutes(init);
      InsertSorted(s[|s| - 1], SortByScore(init));
      InsertPermutes(s[|s| - 1], SortByScore(init));
      assert s == init + [s[|s| - 1]];
    }
  }

  /** The ranking is stable: elements of equal score keep their input order. */
  lemma {:induction false} SortByScoreStable(s: seq<Prediction>, v: real)
    ensures WithScore(SortByScore(s), v) == WithScore(s, v)
    decreases |s|
  {
    if s != [] {
      var init, last := s[..|s| - 1], s[|s| - 1];
      var sorted := SortByScore(init);
      assert SortedDesc(sorted) by { SortByScoreSortsAndPermutes(init); }
      calc {
        WithScore(SortByScore(s), v);
        WithScore(Insert(last, sorted), v);
        { InsertStable(last, sorted, v); }
        WithScore(sorted, v) + (if last.score == v then [last] else []);
        { SortByScoreStable(init, v); WithScoreSingleton(last, v); }
        WithScore(init, v) + WithScore([last], v);
        { WithScoreAppend(init, [last], v); }
        WithScore(init + [last], v);
        { assert s == init + [last]; }
        WithScore(s, v);
      }
    }
  }

  lemma WithScoreSingleton(x: Prediction, v: real)
    ensures WithScore([x], v) == if x.score == v then [x] else []
  {
    assert [x][1..] == [];
  }

  // ---------------------------------------------------------------------------
  // The in-place sort

  /** Inserting `x` at the first position whose element scores less than
      `x` is `Insert`. */
  lemma {:induction false} InsertAt(x: Prediction, t: seq<Prediction>, j: nat)
    requires j <= |t|
    requires forall k :: 0 <= k < j ==> t[k].score >= x.score
    requires forall k :: j <= k < |t| ==> t[k].score < x.score
    ensures Insert(x, t) == t[..j] + [x] + t[j..]
  {
    if j == 0 {
      assert t[j..] == t;
    } else {
      InsertAt(x, t[1..], j - 1);
      assert t[..j] == [t[0]] + t[1..][..j - 1];
      assert t[j..] == t[1..][j - 1..];
    }
  }

  /** The insertion point the inner loop of `SortInPlace` finds. */
  lemma InsertionPoint(x: Prediction, t: seq<Prediction>, j: nat)
    requires SortedDesc(t) && j <= |t|
    requires j == 0 || t[j - 1].score >= x.score
    requires forall k :: j <= k < |t| ==> t[k].score < x.score
    ensures Insert(x, t) == t[..j] + [x] + t[j..]
  {
    InsertAt(x, t, j);
  }

  /** One step of the insertion sort: `a[i]` is moved into the sorted
      prefix `a[..i]`, shifting the lower-scoring elements right. */
  method InsertInPlace(a: array<Prediction>, i: nat)
    requires i < a.Length && SortedDesc(a[..i])
    modifies a
    ensures a[..i + 1] == Insert(old(a[i]), old(a[..i]))
    ensures a[i + 1..] == old(a[i + 1..])
  {
    var key := a[i];
    ghost var sorted := a[..i];
    var j := i;
    while j > 0 && a[j - 1].score < key.score
      invariant 0 <= j <= i
      invariant forall k :: 0 <= k < j ==> a[k] == sorted[k]
      invariant forall k :: j < k <= i ==> a[k] == sorted[k - 1]
      invariant forall k :: i < k < a.Length ==> a[k] == old(a[k])
      invariant forall k :: j <= k < i ==> sorted[k].score < key.score
    {
      a[j] := a[j - 1];
      j := j - 1;
    }
    a[j] := key;
    ghost var inserted := sorted[..j] + [key] + sorted[j..];
    assert forall k :: 0 <= k <= i ==> a[k] == inserted[k];
    assert a[..i + 1] == inserted;
    InsertionPoint(key, sorted, j);
  }

  /** Insertion sort in place. */
  method SortInPlace(a: array<Prediction>)
    modifies a
    ensures a[..] == SortByScore(old(a[..]))
  {
    ghost var input := a[..];
    var i := 0;
    while i < a.Length
      invariant 0 <= i <= a.Length
      invariant a[..i] == SortByScore(input[..i])
      invariant a[i..] == input[i..]
    {
      SortByScoreSortsAndPermutes(input[..i]);
      assert a[i] == input[i];
      InsertInPlace(a, i);
      assert input[..i + 1][..i] == input[..i];
      i := i + 1;
    }
    assert input[..a.Length] == input;
  }
}
