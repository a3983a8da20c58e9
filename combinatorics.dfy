/**
 * Selections of sequence elements. `Choose` is boolean-mask indexing (a pandas
 * `frame[mask]`), and `Combinations` is `itertools.combinations`: every k-element
 * selection of a sequence, each in the sequence's own order, listed in
 * lexicographic order of the chosen positions.
 */
module Combinatorics {

  /** No element occurs twice. */
  predicate Distinct<T(==)>(s: seq<T>) {
    forall i, j :: 0 <= i < j < |s| ==> s[i] != s[j]
  }

  /** The number of set flags. */
  function CountTrue(mask: seq<bool>): nat {
    if mask == [] then 0 else (if mask[0] then 1 else 0) + CountTrue(mask[1..])
  }

  /** Every flag flipped. */
  function Complement(mask: seq<bool>): (r: seq<bool>)
    ensures |r| == |mask|
    ensures forall i :: 0 <= i < |mask| ==> r[i] == !mask[i]
  {
    seq(|mask|, i requires 0 <= i < |mask| => !mask[i])
  }

  /** The elements of `s` whose flag is set, in the order of `s`. */
  function Choose<T>(s: seq<T>, mask: seq<bool>): (r: seq<T>)
    requires |mask| == |s|
    ensures |r| == CountTrue(mask)
  {
    if s == [] then []
    else
      assert s == [s[0]] + s[1..];
      (if mask[0] then [s[0]] else []) + Choose(s[1..], mask[1..])
  }

  /** `x` put in front of every sequence of `cs`. */
  function Prepend<T>(x: T, cs: seq<seq<T>>): (r: seq<seq<T>>)
    ensures |r| == |cs|
    ensures forall i :: 0 <= i < |cs| ==> r[i] == [x] + cs[i]
  {
    seq(|cs|, i requires 0 <= i < |cs| => [x] + cs[i])
  }

  /** Pascal's rule: the number of k-element subsets of an n-element set. */
  function Binomial(n: nat, k: nat): nat {
    if k == 0 then 1 else if n == 0 then 0 else Binomial(n - 1, k - 1) + Binomial(n - 1, k)
  }

  /**
   * itertools.combinations(s, k): the selections that take s[0] come first
   * (s[0] followed by each (k-1)-selection of the rest), then those that do not.
   */
  function Combinations<T>(s: seq<T>, k: nat): (r: seq<seq<T>>)
    decreases |s|
  {
    if k == 0 then [[]]
    else if s == [] then []
    else Prepend(s[0], Combinations(s[1..], k - 1)) + Combinations(s[1..], k)
  }

  /** As many selections are yielded as the binomial coefficient says. */
  lemma {:induction false} CombinationsCount<T>(s: seq<T>, k: nat)
    ensures |Combinations(s, k)| == Binomial(|s|, k)
    decreases |s|
  {
    if k > 0 && s != [] {
      CombinationsCount(s[1..], k - 1);
      CombinationsCount(s[1..], k);
    }
  }

  /** Every selection yielded has k elements. */
  lemma {:induction false} CombinationLength<T>(s: seq<T>, k: nat, c: seq<T>)
    requires c in Combinations(s, k)
    ensures |c| == k
  {
    var mask := CombinationIsChoice(s, k, c);
  }

  lemma {:induction false} BinomialZero(n: nat, k: nat)
    requires n < k
    ensures Binomial(n, k) == 0
  {
    if n > 0 {
      BinomialZero(n - 1, k - 1);
      BinomialZero(n - 1, k);
    }
  }

  /** Fewer than k elements: the iterator yields nothing. */
  lemma NoCombinationsOfTooFew<T>(s: seq<T>, k: nat)
    requires |s| < k
    ensures Combinations(s, k) == []
  {
    CombinationsCount(s, k);
    BinomialZero(|s|, k);
  }

  /** The first selection yielded is the first k elements. */
  lemma {:induction false} FirstCombination<T>(s: seq<T>, k: nat)
    requires k <= |s|
    ensures Combinations(s, k) != []
    ensures Combinations(s, k)[0] == s[..k]
  {
    if k == 0 {
      assert Combinations(s, k) == [[]];
    } else {
      FirstCombination(s[1..], k - 1);
      var inner := Combinations(s[1..], k - 1);
      var with := Prepend(s[0], inner);
      var all := Combinations(s, k);
      assert all == with + Combinations(s[1..], k);
      assert all[0] == with[0] == [s[0]] + inner[0];
      assert [s[0]] + s[1..][..k - 1] == s[..k];
    }
  }

  lemma {:induction false} ChooseConcat<T>(a: seq<T>, ma: seq<bool>, b: seq<T>, mb: seq<bool>)
    requires |ma| == |a| && |mb| == |b|
    ensures Choose(a + b, ma + mb) == Choose(a, ma) + Choose(b, mb)
    decreases |a|
  {
    if a == [] {
      assert a + b == b && ma + mb == mb;
    } else {
      var s, m := a + b, ma + mb;
      assert s[0] == a[0] && m[0] == ma[0];
      assert s[1..] == a[1..] + b;
      assert m[1..] == ma[1..] + mb;
      ChooseConcat(a[1..], ma[1..], b, mb);
      var head := if ma[0] then [a[0]] else [];
      assert Choose(s, m) == head + Choose(s[1..], m[1..]);
      assert Choose(a, ma) == head + Choose(a[1..], ma[1..]);
    }
  }

  lemma {:induction false} ChooseElement<T>(s: seq<T>, mask: seq<bool>, x: T)
    requires |mask| == |s| && x in Choose(s, mask)
    ensures x in s
  {
    if s != [] {
      if x != s[0] {
        assert x in Choose(s[1..], mask[1..]);
        ChooseElement(s[1..], mask[1..], x);
      }
    }
  }

  lemma HeadNotInTail<T>(s: seq<T>)
    requires s != [] && Distinct(s)
    ensures s[0] !in s[1..]
  {
    forall j | 0 <= j < |s| - 1 ensures s[1..][j] != s[0] {
      assert s[1..][j] == s[j + 1];
    }
  }

  lemma NotChosen<T>(s: seq<T>, mask: seq<bool>, x: T)
    requires |mask| == |s| && x !in s
    ensures x !in Choose(s, mask)
  {
    if x in Choose(s, mask) {
      ChooseElement(s, mask, x);
    }
  }

  /** In a sequence without repetitions, s[i] is selected exactly when its flag is set. */
  lemma {:induction false} ChooseMembership<T>(s: seq<T>, mask: seq<bool>, i: nat)
    requires |mask| == |s| && Distinct(s) && i < |s|
    ensures s[i] in Choose(s, mask) <==> mask[i]
  {
    var rest := Choose(s[1..], mask[1..]);
    assert Choose(s, mask) == (if mask[0] then [s[0]] else []) + rest;
    if i == 0 {
      HeadNotInTail(s);
      NotChosen(s[1..], mask[1..], s[0]);
    } else {
      ChooseMembership(s[1..], mask[1..], i - 1);
      assert s[1..][i - 1] == s[i];
    }
  }

  lemma {:induction false} ChooseDistinct<T>(s: seq<T>, mask: seq<bool>)
    requires |mask| == |s| && Distinct(s)
    ensures Distinct(Choose(s, mask))
  {
    if s != [] {
      ChooseDistinct(s[1..], mask[1..]);
      var rest := Choose(s[1..], mask[1..]);
      HeadNotInTail(s);
      NotChosen(s[1..], mask[1..], s[0]);
      var r := Choose(s, mask);
      assert r == (if mask[0] then [s[0]] else []) + rest;
      forall a, b | 0 <= a < b < |r| ensures r[a] != r[b] {
        if mask[0] && a == 0 {
          assert r[b] == rest[b - 1];
        } else if mask[0] {
          assert r[a] == rest[a - 1] && r[b] == rest[b - 1];
        }
      }
    }
  }

  /** A sequence is in Prepend(x, cs) exactly when it is x followed by a member of cs. */
  lemma {:induction false} PrependMember<T>(x: T, cs: seq<seq<T>>, c: seq<T>)
    ensures c in Prepend(x, cs) <==> |c| > 0 && c[0] == x && c[1..] in cs
  {
    var r := Prepend(x, cs);
    if c in r {
      var i :| 0 <= i < |r| && r[i] == c;
      assert c[1..] == cs[i];
    }
    if |c| > 0 && c[0] == x && c[1..] in cs {
      var i :| 0 <= i < |cs| && cs[i] == c[1..];
      assert r[i] == c;
    }
  }

  /** One step of the recursion of Combinations, as a statement about membership. */
  lemma {:induction false} CombinationsStep<T>(s: seq<T>, k: nat, c: seq<T>)
    requires k > 0 && s != []
    ensures c in Combinations(s, k) <==>
            (|c| > 0 && c[0] == s[0] && c[1..] in Combinations(s[1..], k - 1)) || c in Combinations(s[1..], k)
  {
    assert Combinations(s, k) == Prepend(s[0], Combinations(s[1..], k - 1)) + Combinations(s[1..], k);
    PrependMember(s[0], Combinations(s[1..], k - 1), c);
  }

  /** Every selection yielded is the masked selection of some mask with k flags set. */
  lemma {:induction false} CombinationIsChoice<T>(s: seq<T>, k: nat, c: seq<T>) returns (mask: seq<bool>)
    requires c in Combinations(s, k)
    ensures |mask| == |s| && CountTrue(mask) == k && Choose(s, mask) == c
    decreases |s|
  {
    if k == 0 {
      assert Combinations(s, k) == [[]];
      mask := seq(|s|, i => false);
      AllFalse(s, mask);
    } else {
      var tail, take := SplitCombination(s, k, c);
      var m := CombinationIsChoice(s[1..], if take then k - 1 else k, tail);
      mask := WithHead(s, m, c, take);
    }
  }

  /** A selection of k > 0 elements either takes the head, followed by a (k-1)-selection of the tail, or is a k-selection of the tail. */
  lemma {:induction false} SplitCombination<T>(s: seq<T>, k: nat, c: seq<T>) returns (tail: seq<T>, take: bool)
    requires k > 0 && c in Combinations(s, k)
    ensures s != []
    ensures take ==> |c| > 0 && c[0] == s[0] && tail == c[1..] && tail in Combinations(s[1..], k - 1)
    ensures !take ==> tail == c && tail in Combinations(s[1..], k)
  {
    assert s != [];
    CombinationsStep(s, k, c);
    take := |c| > 0 && c[0] == s[0] && c[1..] in Combinations(s[1..], k - 1);
    tail := if take then c[1..] else c;
  }

  /** Extending a mask of the tail by a flag for the head. */
  lemma {:induction false} WithHead<T>(s: seq<T>, m: seq<bool>, c: seq<T>, take: bool) returns (mask: seq<bool>)
    requires s != [] && |m| == |s| - 1
    requires take ==> |c| > 0 && c[0] == s[0] && Choose(s[1..], m) == c[1..]
    requires !take ==> Choose(s[1..], m) == c
    ensures mask == [take] + m && |mask| == |s|
    ensures CountTrue(mask) == CountTrue(m) + (if take then 1 else 0) && Choose(s, mask) == c
  {
    mask := [take] + m;
    assert mask[1..] == m;
    if take {
      assert c == [s[0]] + c[1..];
    }
  }

  lemma {:induction false} AllFalse<T>(s: seq<T>, mask: seq<bool>)
    requires |mask| == |s| && forall i :: 0 <= i < |mask| ==> !mask[i]
    ensures CountTrue(mask) == 0 && Choose(s, mask) == []
  {
    if s != [] {
      AllFalse(s[1..], mask[1..]);
    }
  }

  /** Conversely, every masked selection is yielded by itertools.combinations. */
  lemma {:induction false} ChoiceIsCombination<T>(s: seq<T>, mask: seq<bool>)
    requires |mask| == |s|
    ensures Choose(s, mask) in Combinations(s, CountTrue(mask))
    decreases |s|
  {
    if s == [] {
    } else if CountTrue(mask) == 0 {
      assert Choose(s, mask) == [];
    } else {
      ChoiceIsCombination(s[1..], mask[1..]);
      if mask[0] {
        TakeHead(s, mask);
      } else {
        SkipHead(s, mask);
      }
    }
  }

  lemma {:induction false} TakeHead<T>(s: seq<T>, mask: seq<bool>)
    requires |mask| == |s| && s != [] && mask[0]
    requires Choose(s[1..], mask[1..]) in Combinations(s[1..], CountTrue(mask[1..]))
    ensures Choose(s, mask) in Combinations(s, CountTrue(mask))
  {
    var c := Choose(s, mask);
    assert c == [s[0]] + Choose(s[1..], mask[1..]);
    assert c[1..] == Choose(s[1..], mask[1..]);
    CombinationsStep(s, CountTrue(mask), c);
  }

  lemma {:induction false} SkipHead<T>(s: seq<T>, mask: seq<bool>)
    requires |mask| == |s| && s != [] && !mask[0] && CountTrue(mask) > 0
    requires Choose(s[1..], mask[1..]) in Combinations(s[1..], CountTrue(mask[1..]))
    ensures Choose(s, mask) in Combinations(s, CountTrue(mask))
  {
    assert Choose(s, mask) == Choose(s[1..], mask[1..]);
    CombinationsStep(s, CountTrue(mask), Choose(s, mask));
  }

  lemma {:induction false} CountComplement(mask: seq<bool>)
    ensures CountTrue(Complement(mask)) == |mask| - CountTrue(mask)
  {
    if mask != [] {
      assert Complement(mask)[1..] == Complement(mask[1..]);
      CountComplement(mask[1..]);
    }
  }

  /** A selection and the complementary selection together hold every element once. */
  lemma {:induction false} ChoosePartition<T>(s: seq<T>, mask: seq<bool>)
    requires |mask| == |s|
    ensures multiset(Choose(s, mask)) + multiset(Choose(s, Complement(mask))) == multiset(s)
  {
    if s != [] {
      assert Complement(mask)[1..] == Complement(mask[1..]);
      ChoosePartition(s[1..], mask[1..]);
      assert s == [s[0]] + s[1..];
    }
  }

  /** A combination of a sequence without repetitions has none either, and takes its elements from it. */
  lemma CombinationDistinct<T>(s: seq<T>, k: nat, c: seq<T>)
    requires c in Combinations(s, k)
    ensures forall x | x in c :: x in s
    ensures Distinct(s) ==> Distinct(c)
  {
    var mask := CombinationIsChoice(s, k, c);
    forall x | x in c ensures x in s {
      ChooseElement(s, mask, x);
    }
    if Distinct(s) {
      ChooseDistinct(s, mask);
    }
  }


  /** A mask of n leading flags takes the first n elements. */
  lemma {:induction false} ChooseLeading<T>(s: seq<T>, mask: seq<bool>, n: nat)
    requires |mask| == |s| && n <= |s|
    requires forall i :: 0 <= i < |s| ==> mask[i] == (i < n)
    ensures Choose(s, mask) == s[..n]
  {
    if s != [] {
      if n > 0 {
        ChooseLeading(s[1..], mask[1..], n - 1);
        assert s[..n] == [s[0]] + s[1..][..n - 1];
      } else {
        AllFalse(s, mask);
      }
    }
  }

  /** The mask whose first k of n flags are set. */
  function Leading(n: nat, k: nat): (r: seq<bool>)
    ensures |r| == n && forall i :: 0 <= i < n ==> r[i] == (i < k)
  {
    seq(n, i => i < k)
  }

  lemma ComplementConcat(a: seq<bool>, b: seq<bool>)
    ensures Complement(a + b) == Complement(a) + Complement(b)
  {
  }

  /** Splitting a selection over a concatenation, for the mask and for its complement. */
  lemma {:induction false} SplitChoice<T>(a: seq<T>, b: seq<T>, mask: seq<bool>)
    requires |mask| == |a| + |b|
    ensures Choose(a + b, mask) == Choose(a, mask[..|a|]) + Choose(b, mask[|a|..])
    ensures Choose(a + b, Complement(mask)) == Choose(a, Complement(mask[..|a|])) + Choose(b, Complement(mask[|a|..]))
  {
    var ma, mb := mask[..|a|], mask[|a|..];
    assert mask == ma + mb;
    ChooseConcat(a, ma, b, mb);
    ComplementConcat(ma, mb);
    ChooseConcat(a, Complement(ma), b, Complement(mb));
  }

  /** A mask selecting the leading elements of four consecutive groups. */
  lemma {:induction false} LeadingOfFourMask<T>(a: seq<T>, b: seq<T>, c: seq<T>, d: seq<T>, ka: nat, kb: nat, kc: nat, kd: nat)
    returns (mask: seq<bool>)
    requires ka <= |a| && kb <= |b| && kc <= |c| && kd <= |d|
    ensures |mask| == |a + b + c + d| && CountTrue(mask) == ka + kb + kc + kd
    ensures Choose(a + b + c + d, mask) == a[..ka] + b[..kb] + c[..kc] + d[..kd]
  {
    var ma, mb, mc, md := Leading(|a|, ka), Leading(|b|, kb), Leading(|c|, kc), Leading(|d|, kd);
    ChooseLeading(a, ma, ka);
    ChooseLeading(b, mb, kb);
    ChooseLeading(c, mc, kc);
    ChooseLeading(d, md, kd);
    ChooseConcat(a, ma, b, mb);
    ChooseConcat(a + b, ma + mb, c, mc);
    ChooseConcat(a + b + c, ma + mb + mc, d, md);
    mask := ma + mb + mc + md;
  }
}
