/**
 * One row of the predictions table the squad selector reads, its ranking key
 * (predicted_point_range, prob_3, prob_2, prob_1, prob_0), the stable descending
 * sort pandas performs on that key, and the per-position candidate pools.
 */
module Predictions {
  import opened Combinatorics

  /**
   * A predictions row, fields in column order: name, value (cost in tenths of a
   * million), position, plays_for (the team), shift_opponent,
   * predicted_point_range and the class probabilities prob_0 .. prob_3.
   */
  datatype Prediction = Prediction(
    name: string,
    value: int,
    position: string,
    playsFor: string,
    shiftOpponent: string,
    predictedPointRange: int,
    prob0: real,
    prob1: real,
    prob2: real,
    prob3: real)

  /** `a` ranks at least as high as `b`: lexicographic comparison of the five key columns. */
  predicate RankAtLeast(a: Prediction, b: Prediction) {
    a.predictedPointRange > b.predictedPointRange ||
    (a.predictedPointRange == b.predictedPointRange &&
     (a.prob3 > b.prob3 ||
      (a.prob3 == b.prob3 &&
       (a.prob2 > b.prob2 ||
        (a.prob2 == b.prob2 &&
         (a.prob1 > b.prob1 ||
          (a.prob1 == b.prob1 && a.prob0 >= b.prob0)))))))
  }

  /** Equal on all five key columns. */
  predicate SameRank(a: Prediction, b: Prediction) {
    a.predictedPointRange == b.predictedPointRange && a.prob3 == b.prob3 &&
    a.prob2 == b.prob2 && a.prob1 == b.prob1 && a.prob0 == b.prob0
  }

  lemma RankIsTotalPreorder(a: Prediction, b: Prediction, c: Prediction)
    ensures RankAtLeast(a, a)
    ensures RankAtLeast(a, b) || RankAtLeast(b, a)
    ensures RankAtLeast(a, b) && RankAtLeast(b, c) ==> RankAtLeast(a, c)
    ensures RankAtLeast(a, b) && RankAtLeast(b, a) <==> SameRank(a, b)
  {
  }

  /** Non-increasing by rank. */
  predicate SortedByRank(s: seq<Prediction>) {
    forall i, j :: 0 <= i < j < |s| ==> RankAtLeast(s[i], s[j])
  }

  /** Puts `x` in front of the first element it ranks at least as high as. */
  function InsertByRank(x: Prediction, s: seq<Prediction>): seq<Prediction> {
    if s == [] then [x]
    else if RankAtLeast(x, s[0]) then [x] + s
    else [s[0]] + InsertByRank(x, s[1..])
  }

  /** Insertion adds exactly one row, `x`. */
  lemma {:induction false} InsertPermutes(x: Prediction, s: seq<Prediction>)
    ensures multiset(InsertByRank(x, s)) == multiset(s) + multiset{x}
  {
    if s != [] && !RankAtLeast(x, s[0]) {
      InsertPermutes(x, s[1..]);
      assert s == [s[0]] + s[1..];
    }
  }

  lemma {:induction false} InsertSorted(x: Prediction, s: seq<Prediction>)
    requires SortedByRank(s)
    ensures SortedByRank(InsertByRank(x, s))
  {
    if s != [] {
      SortedTail(s);
      if RankAtLeast(x, s[0]) {
        assert s == [s[0]] + s[1..];
        forall y | y in s ensures RankAtLeast(x, y) {
          if y != s[0] {
            RankIsTotalPreorder(x, s[0], y);
          }
        }
        SortedCons(x, s);
      } else {
        InsertSorted(x, s[1..]);
        InsertMembers(x, s[1..]);
        var rest := InsertByRank(x, s[1..]);
        forall y | y in rest ensures RankAtLeast(s[0], y) {
          if y == x {
            RankIsTotalPreorder(x, s[0], x);
          }
        }
        SortedCons(s[0], rest);
      }
    }
  }

  lemma {:induction false} SortedTail(s: seq<Prediction>)
    requires SortedByRank(s) && s != []
    ensures SortedByRank(s[1..])
    ensures forall y | y in s[1..] :: RankAtLeast(s[0], y)
  {
    forall i, j | 0 <= i < j < |s| - 1 ensures RankAtLeast(s[1..][i], s[1..][j]) {
      assert s[1..][i] == s[i + 1] && s[1..][j] == s[j + 1];
    }
    forall y | y in s[1..] ensures RankAtLeast(s[0], y) {
      var j :| 0 <= j < |s| - 1 && s[1..][j] == y;
      assert s[j + 1] == y;
    }
  }

  lemma {:induction false} SortedCons(h: Prediction, t: seq<Prediction>)
    requires SortedByRank(t) && forall y | y in t :: RankAtLeast(h, y)
    ensures SortedByRank([h] + t)
  {
    var r := [h] + t;
    forall i, j | 0 <= i < j < |r| ensures RankAtLeast(r[i], r[j]) {
      assert r[j] == t[j - 1];
      if i > 0 {
        assert r[i] == t[i - 1];
      }
    }
  }

  /** The rows after insertion are `x` and the rows before it. */
  lemma {:induction false} InsertMembers(x: Prediction, s: seq<Prediction>)
    ensures forall y | y in InsertByRank(x, s) :: y == x || y in s
  {
    if s != [] && !RankAtLeast(x, s[0]) {
      InsertMembers(x, s[1..]);
      assert InsertByRank(x, s) == [s[0]] + InsertByRank(x, s[1..]);
      assert forall y | y in s[1..] :: y in s;
    }
  }

  /**
   * The table sorted descending on predicted_point_range, then prob_3, prob_2,
   * prob_1 and prob_0: a stable sort, highest rank first.
   */
  function SortByRank(s: seq<Prediction>): (r: seq<Prediction>)
    ensures multiset(r) == multiset(s)
    ensures |r| == |s|
    ensures SortedByRank(r)
  {
    if s == [] then []
    else
      assert s == [s[0]] + s[1..];
      InsertSorted(s[0], SortByRank(s[1..]));
      InsertPermutes(s[0], SortByRank(s[1..]));
      InsertByRank(s[0], SortByRank(s[1..]))
  }

  /** The rows of `s` that tie with `x` on the whole key, in order. */
  function RankedLike(s: seq<Prediction>, x: Prediction): seq<Prediction> {
    if s == [] then []
    else (if SameRank(s[0], x) then [s[0]] else []) + RankedLike(s[1..], x)
  }

  lemma {:induction false} InsertKeepsTies(y: Prediction, t: seq<Prediction>, x: Prediction)
    ensures RankedLike(InsertByRank(y, t), x) ==
            (if SameRank(y, x) then [y] else []) + RankedLike(t, x)
  {
    if t == [] {
      RankedLikeCons(y, [], x);
    } else if RankAtLeast(y, t[0]) {
      RankedLikeCons(y, t, x);
    } else {
      InsertKeepsTies(y, t[1..], x);
      TiesPastHead(y, t, x);
    }
  }

  /** The inductive step of InsertKeepsTies: the row passes a head it ranks below. */
  lemma TiesPastHead(y: Prediction, t: seq<Prediction>, x: Prediction)
    requires t != [] && !RankAtLeast(y, t[0])
    requires RankedLike(InsertByRank(y, t[1..]), x) == (if SameRank(y, x) then [y] else []) + RankedLike(t[1..], x)
    ensures RankedLike(InsertByRank(y, t), x) == (if SameRank(y, x) then [y] else []) + RankedLike(t, x)
  {
    var inner := InsertByRank(y, t[1..]);
    assert InsertByRank(y, t) == [t[0]] + inner;
    assert t == [t[0]] + t[1..];
    RankedLikeCons(t[0], inner, x);
    RankedLikeCons(t[0], t[1..], x);
    var head, tied, rest := (if SameRank(t[0], x) then [t[0]] else []), (if SameRank(y, x) then [y] else []),
                            RankedLike(t[1..], x);
    assert !SameRank(y, x) || !SameRank(t[0], x);
    SwapEmpty(head, tied, rest);
  }

  /** Two parts of which one is empty can be exchanged. */
  lemma SwapEmpty(a: seq<Prediction>, b: seq<Prediction>, c: seq<Prediction>)
    requires a == [] || b == []
    ensures a + (b + c) == b + (a + c)
  {
    if a == [] {
      assert a + (b + c) == b + c && a + c == c;
    } else {
      assert b + (a + c) == a + c && b + c == c;
    }
  }

  lemma RankedLikeCons(h: Prediction, t: seq<Prediction>, x: Prediction)
    ensures RankedLike([h] + t, x) == (if SameRank(h, x) then [h] else []) + RankedLike(t, x)
  {
    assert ([h] + t)[1..] == t;
  }


  /** Stability: rows that tie on the key keep their relative order. */
  lemma {:induction false} SortIsStable(s: seq<Prediction>, x: Prediction)
    ensures RankedLike(SortByRank(s), x) == RankedLike(s, x)
  {
    if s != [] {
      SortIsStable(s[1..], x);
      InsertKeepsTies(s[0], SortByRank(s[1..]), x);
    }
  }

  /** Python's `s[:k]`: a negative bound counts from the end. */
  function SliceTo<T>(s: seq<T>, k: int): (r: seq<T>)
    ensures k >= 0 ==> |r| == if k < |s| then k else |s|
    ensures k < 0 ==> |r| == if |s| + k > 0 then |s| + k else 0
    ensures r == s[..|r|]
  {
    if k >= 0 then (if k < |s| then s[..k] else s)
    else (if |s| + k > 0 then s[..|s| + k] else [])
  }

  /** The rows of one position, in table order. */
  function OfPosition(s: seq<Prediction>, position: string): (r: seq<Prediction>)
    ensures forall p | p in r :: p.position == position
    ensures multiset(r) <= multiset(s)
  {
    if s == [] then []
    else
      assert s == [s[0]] + s[1..];
      (if s[0].position == position then [s[0]] else []) + OfPosition(s[1..], position)
  }

  /** How many rows have the position. */
  function CountPosition(s: seq<Prediction>, position: string): nat {
    if s == [] then 0 else (if s[0].position == position then 1 else 0) + CountPosition(s[1..], position)
  }

  lemma {:induction false} CountPositionConcat(a: seq<Prediction>, b: seq<Prediction>, position: string)
    ensures CountPosition(a + b, position) == CountPosition(a, position) + CountPosition(b, position)
  {
    if a == [] {
      assert a + b == b;
    } else {
      assert (a + b)[1..] == a[1..] + b;
      CountPositionConcat(a[1..], b, position);
    }
  }

  /** Counting the rows of one position in a group whose rows all have position `of`. */
  lemma {:induction false} CountPositionUniform(s: seq<Prediction>, of: string, position: string)
    requires forall p | p in s :: p.position == of
    ensures CountPosition(s, position) == if of == position then |s| else 0
  {
    if s != [] {
      assert s[0] in s;
      assert forall p | p in s[1..] :: p in s;
      CountPositionUniform(s[1..], of, position);
    }
  }

  lemma {:induction false} CountPositionAbsent(s: seq<Prediction>, position: string)
    requires forall p | p in s :: p.position != position
    ensures CountPosition(s, position) == 0
  {
    if s != [] {
      assert s[0] in s;
      assert forall p | p in s[1..] :: p in s;
      CountPositionAbsent(s[1..], position);
    }
  }

  /** The candidate pool of one position: its rows ranked, cut to `rowsToCheck`. */
  function Pool(predictions: seq<Prediction>, position: string, rowsToCheck: int): seq<Prediction> {
    SliceTo(SortByRank(OfPosition(predictions, position)), rowsToCheck)
  }

  /** The ranked rows of that position that did not make the cut. */
  function Dropped(predictions: seq<Prediction>, position: string, rowsToCheck: int): seq<Prediction> {
    var ranked := SortByRank(OfPosition(predictions, position));
    ranked[|SliceTo(ranked, rowsToCheck)|..]
  }

  lemma {:induction false} OfPositionCount(s: seq<Prediction>, position: string)
    ensures |OfPosition(s, position)| == CountPosition(s, position)
  {
    if s != [] {
      OfPositionCount(s[1..], position);
    }
  }

  lemma {:induction false} OfPositionDistinct(s: seq<Prediction>, position: string)
    requires Distinct(s)
    ensures Distinct(OfPosition(s, position))
  {
    if s != [] {
      OfPositionDistinct(s[1..], position);
      HeadNotInTail(s);
      var rest := OfPosition(s[1..], position);
      assert s[0] !in multiset(s[1..]);
      assert s[0] !in multiset(rest);
      var r := OfPosition(s, position);
      forall a, b | 0 <= a < b < |r| ensures r[a] != r[b] {
        if s[0].position == position && a == 0 {
          assert r[b] == rest[b - 1];
        } else if s[0].position == position {
          assert r[a] == rest[a - 1] && r[b] == rest[b - 1];
        }
      }
    }
  }

  /** A sequence with no element counted twice by its multiset has no repetitions. */
  lemma {:induction false} DistinctFromMultiset(s: seq<Prediction>, t: seq<Prediction>)
    requires Distinct(t) && multiset(s) <= multiset(t)
    ensures Distinct(s)
  {
    forall i, j | 0 <= i < j < |s| ensures s[i] != s[j] {
      if s[i] == s[j] {
        var x, front, back := s[i], s[..j], s[j..];
        assert s == front + back;
        assert front[i] == x && back[0] == x;
        assert x in multiset(front) && x in multiset(back);
        assert multiset(s)[x] == multiset(front)[x] + multiset(back)[x];
        MultiplicityAtMostOne(t, x);
      }
    }
  }

  lemma {:induction false} MultiplicityAtMostOne(t: seq<Prediction>, x: Prediction)
    requires Distinct(t)
    ensures multiset(t)[x] <= 1
  {
    if t != [] {
      assert t == [t[0]] + t[1..];
      HeadNotInTail(t);
      assert Distinct(t[1..]) by {
        forall i, j | 0 <= i < j < |t| - 1 ensures t[1..][i] != t[1..][j] {
          assert t[1..][i] == t[i + 1] && t[1..][j] == t[j + 1];
        }
      }
      MultiplicityAtMostOne(t[1..], x);
    }
  }

  lemma {:induction false} SortedPrefixes(s: seq<Prediction>, k: nat)
    requires SortedByRank(s) && k <= |s|
    ensures SortedByRank(s[..k])
    ensures forall p, q | p in s[..k] && q in s[k..] :: RankAtLeast(p, q)
  {
    forall p, q | p in s[..k] && q in s[k..] ensures RankAtLeast(p, q) {
      var i :| 0 <= i < k && s[..k][i] == p;
      var j :| 0 <= j < |s| - k && s[k..][j] == q;
      assert s[i] == p && s[k + j] == q;
    }
  }

  /** A pool holds rows of its position taken from the table. */
  lemma PoolMembers(predictions: seq<Prediction>, position: string, rowsToCheck: int)
    ensures forall p | p in Pool(predictions, position, rowsToCheck) :: p.position == position && p in predictions
  {
    var rows := OfPosition(predictions, position);
    var ranked := SortByRank(rows);
    var pool := Pool(predictions, position, rowsToCheck);
    forall p | p in pool ensures p.position == position && p in predictions {
      assert p in ranked;
      assert p in multiset(ranked);
      assert p in multiset(rows);
      assert p in multiset(predictions);
    }
  }

  /** A pool is ranked highest first and as long as Python's slice of the position's rows. */
  lemma PoolRankedAndSliced(predictions: seq<Prediction>, position: string, rowsToCheck: int)
    ensures var pool := Pool(predictions, position, rowsToCheck);
            var n := CountPosition(predictions, position);
            SortedByRank(pool) &&
            (rowsToCheck >= 0 ==> |pool| == if rowsToCheck < n then rowsToCheck else n) &&
            (rowsToCheck < 0 ==> |pool| == if n + rowsToCheck > 0 then n + rowsToCheck else 0)
  {
    var ranked := SortByRank(OfPosition(predictions, position));
    OfPositionCount(predictions, position);
    SortedPrefixes(ranked, |Pool(predictions, position, rowsToCheck)|);
  }

  /**
   * The pool and the dropped rows together are the position's rows, and every
   * kept row ranks at least as high as every dropped one.
   */
  lemma PoolKeepsTheBest(predictions: seq<Prediction>, position: string, rowsToCheck: int)
    ensures var pool := Pool(predictions, position, rowsToCheck);
            var dropped := Dropped(predictions, position, rowsToCheck);
            multiset(pool) + multiset(dropped) == multiset(OfPosition(predictions, position)) &&
            forall p, q | p in pool && q in dropped :: RankAtLeast(p, q)
  {
    var ranked := SortByRank(OfPosition(predictions, position));
    var k := |Pool(predictions, position, rowsToCheck)|;
    assert ranked == ranked[..k] + ranked[k..];
    SortedPrefixes(ranked, k);
  }

  /** A table without repeated rows gives pools without repeated rows. */
  lemma PoolDistinct(predictions: seq<Prediction>, position: string, rowsToCheck: int)
    requires Distinct(predictions)
    ensures Distinct(Pool(predictions, position, rowsToCheck))
  {
    var rows := OfPosition(predictions, position);
    OfPositionDistinct(predictions, position);
    DistinctPrefix(SortByRank(rows), rows, |Pool(predictions, position, rowsToCheck)|);
  }

  /** A prefix of a rearrangement of distinct rows is distinct. */
  lemma DistinctPrefix(r: seq<Prediction>, rows: seq<Prediction>, k: nat)
    requires k <= |r| && Distinct(rows) && multiset(r) == multiset(rows)
    ensures Distinct(r[..k])
  {
    assert r == r[..k] + r[k..];
    assert multiset(r[..k]) <= multiset(r);
    DistinctFromMultiset(r[..k], rows);
  }
}
