/**
 * What get_best_squad promises, proved about its model: the constraint check,
 * which combinations are kept, the optimality of the chosen squad, the effect
 * of the shared iterators, and the shape of the squad sheet.
 */
module SquadProperties {
  import opened Wrappers
  import opened Combinatorics
  import opened Predictions
  import opened DataCleaningFunctions
  import opened BestPredictedSquad

  // ---------------------------------------------------------------------------
  // The constraint argument

  /** Only a name outside {'budget', 'team', 'all', 'none'} is rejected, on both searches. */
  lemma InvalidConstraintExactly(constraint: string, predictions: seq<Prediction>, rowsToCheck: int)
    ensures BestSquad(constraint, predictions, rowsToCheck) == Failure(InvalidConstraint) <==>
            constraint !in {"budget", "team", "all", "none"}
    ensures IntendedBestSquad(constraint, predictions, rowsToCheck) == Failure(InvalidConstraint) <==>
            constraint !in {"budget", "team", "all", "none"}
  {
    var parsed := ParseConstraint(constraint);
    if parsed.Some? {
      SelectSquadIsNeverInvalid(parsed.value, AsWrittenCandidates(predictions, rowsToCheck));
      SelectSquadIsNeverInvalid(parsed.value, IntendedCandidates(predictions, rowsToCheck));
    }
  }

  lemma SelectSquadIsNeverInvalid(c: Constraint, candidates: seq<TeamComb>)
    ensures SelectSquad(c, candidates) != Failure(InvalidConstraint)
  {
    if Retained(c, candidates) != [] {
      var squad := Squad(ChosenComb(c, candidates));
      assert StartingSheet(squad) != Failure(InvalidConstraint);
    }
  }

  // ---------------------------------------------------------------------------
  // Which combinations are kept

  lemma {:induction false} RetainedConcat(c: Constraint, a: seq<TeamComb>, b: seq<TeamComb>)
    ensures Retained(c, a + b) == Retained(c, a) + Retained(c, b)
    decreases |b|
  {
    if b == [] {
      assert a + b == a;
    } else {
      var init, last := b[..|b| - 1], b[|b| - 1];
      assert b == init + [last];
      assert a + b == (a + init) + [last];
      RetainedConcat(c, a, init);
      RetainedSnoc(c, a + init, last);
      RetainedSnoc(c, init, last);
    }
  }

  /** With no constraint every visited combination is kept, in order. */
  lemma {:induction false} UnconstrainedKeepsEverything(combs: seq<TeamComb>)
    ensures Retained(Unconstrained, combs) == combs
  {
    if combs != [] {
      var init, last := combs[..|combs| - 1], combs[|combs| - 1];
      assert combs == init + [last];
      UnconstrainedKeepsEverything(init);
      RetainedSnoc(Unconstrained, init, last);
    }
  }

  /** 'all' keeps, in order, exactly what 'team' keeps of what 'budget' keeps. */
  lemma {:induction false} AllIsTeamAfterBudget(combs: seq<TeamComb>)
    ensures Retained(All, combs) == Retained(Team, Retained(Budget, combs))
  {
    if combs != [] {
      var init, last := combs[..|combs| - 1], combs[|combs| - 1];
      assert combs == init + [last];
      AllIsTeamAfterBudget(init);
      RetainedSnoc(All, init, last);
      RetainedSnoc(Budget, init, last);
      var budget := Retained(Budget, init);
      if AdmitsComb(Budget, last) {
        RetainedSnoc(Team, budget, last);
      } else {
        assert budget + [] == budget;
      }
    }
  }

  /** `c1` admits no more than `c2`. */
  predicate Stricter(c1: Constraint, c2: Constraint) {
    c1 == c2 || c1 == All || c2 == Unconstrained
  }

  /** Relaxing the constraint never makes the search fail and never lowers the best (points, probabilities). */
  lemma RelaxingNeverLowersTheBest(c1: Constraint, c2: Constraint, candidates: seq<TeamComb>)
    requires Stricter(c1, c2) && Retained(c1, candidates) != []
    ensures Retained(c2, candidates) != []
    ensures !Beats(CombScore(ChosenComb(c1, candidates)), CombScore(ChosenComb(c2, candidates)))
  {
    var t1 := ChosenComb(c1, candidates);
    var kept1 := Retained(c1, candidates);
    RetainedMembership(c1, candidates);
    RetainedMembership(c2, candidates);
    assert t1 in kept1;
    assert AdmitsComb(c2, t1);
    var kept2 := Retained(c2, candidates);
    assert t1 in kept2;
    var j :| 0 <= j < |kept2| && kept2[j] == t1;
    assert CombScores(kept2)[j] == CombScore(t1);
  }

  /**
   * The chosen combination is a visited one that the constraint admits, and no
   * admitted one has higher (points, probabilities); it is kept at a position
   * where every admitted one kept before it has strictly lower.
   */
  lemma ChosenCombIsBest(c: Constraint, candidates: seq<TeamComb>)
    requires Retained(c, candidates) != []
    ensures var t := ChosenComb(c, candidates);
            t in candidates && AdmitsComb(c, t) &&
            (c == Budget || c == All ==> t.value <= BudgetLimit) &&
            (c == Team || c == All ==> forall team | team in Teams(Squad(t)) :: multiset(Teams(Squad(t)))[team] <= MaxPerTeam) &&
            (forall u | u in candidates && AdmitsComb(c, u) :: !Beats(CombScore(u), CombScore(t))) &&
            (exists i :: 0 <= i < |Retained(c, candidates)| && Retained(c, candidates)[i] == t &&
               forall j :: 0 <= j < i ==> Beats(CombScore(t), CombScore(Retained(c, candidates)[j])))
  {
    var kept := Retained(c, candidates);
    var t := ChosenComb(c, candidates);
    RetainedMembership(c, candidates);
    assert t in kept;
    var i := FirstBest(CombScores(kept));
    assert kept[i] == t;
    assert forall j :: 0 <= j < i ==> Beats(CombScore(t), CombScore(kept[j])) by {
      assert forall j :: 0 <= j < i ==> CombScores(kept)[j] == CombScore(kept[j]);
    }
    forall u | u in candidates && AdmitsComb(c, u) ensures !Beats(CombScore(u), CombScore(t)) {
      assert u in kept;
      var j :| 0 <= j < |kept| && kept[j] == u;
      assert CombScores(kept)[j] == CombScore(u);
    }
  }

  // ---------------------------------------------------------------------------
  // What the nested loops visit

  lemma {:induction false} WithMidfieldersCount(g: seq<Prediction>, d: seq<Prediction>, midC: seq<seq<Prediction>>, fwdC: seq<seq<Prediction>>)
    ensures |WithMidfielders(g, d, midC, fwdC)| == |midC| * |fwdC|
  {
    if midC != [] {
      WithMidfieldersCount(g, d, midC[1..], fwdC);
      assert |midC| * |fwdC| == |fwdC| + (|midC| - 1) * |fwdC|;
    }
  }

  lemma {:induction false} WithDefendersCount(g: seq<Prediction>, defC: seq<seq<Prediction>>, midC: seq<seq<Prediction>>, fwdC: seq<seq<Prediction>>)
    ensures |WithDefenders(g, defC, midC, fwdC)| == |defC| * (|midC| * |fwdC|)
  {
    if defC != [] {
      WithMidfieldersCount(g, defC[0], midC, fwdC);
      WithDefendersCount(g, defC[1..], midC, fwdC);
      assert |defC| * (|midC| * |fwdC|) == |midC| * |fwdC| + (|defC| - 1) * (|midC| * |fwdC|);
    }
  }

  /** The intended search visits one combination per choice of the four groups. */
  lemma {:induction false} CartesianCount(gkC: seq<seq<Prediction>>, defC: seq<seq<Prediction>>, midC: seq<seq<Prediction>>, fwdC: seq<seq<Prediction>>)
    ensures |CartesianCombs(gkC, defC, midC, fwdC)| == |gkC| * (|defC| * (|midC| * |fwdC|))
  {
    if gkC != [] {
      WithDefendersCount(gkC[0], defC, midC, fwdC);
      CartesianCount(gkC[1..], defC, midC, fwdC);
      assert |gkC| * (|defC| * (|midC| * |fwdC|)) ==
             |defC| * (|midC| * |fwdC|) + (|gkC| - 1) * (|defC| * (|midC| * |fwdC|));
    }
  }

  lemma {:induction false} WithMidfieldersComplete(g: seq<Prediction>, d: seq<Prediction>, midC: seq<seq<Prediction>>,
                                                   fwdC: seq<seq<Prediction>>, m: seq<Prediction>, f: seq<Prediction>)
    requires m in midC && f in fwdC
    ensures MakeTeamComb(g, d, m, f) in WithMidfielders(g, d, midC, fwdC)
  {
    if m == midC[0] {
      var i :| 0 <= i < |fwdC| && fwdC[i] == f;
      assert WithForwards(g, d, m, fwdC)[i] == MakeTeamComb(g, d, m, f);
    } else {
      WithMidfieldersComplete(g, d, midC[1..], fwdC, m, f);
    }
  }

  lemma {:induction false} WithDefendersComplete(g: seq<Prediction>, defC: seq<seq<Prediction>>, midC: seq<seq<Prediction>>,
                                                 fwdC: seq<seq<Prediction>>, d: seq<Prediction>, m: seq<Prediction>, f: seq<Prediction>)
    requires d in defC && m in midC && f in fwdC
    ensures MakeTeamComb(g, d, m, f) in WithDefenders(g, defC, midC, fwdC)
  {
    if d == defC[0] {
      WithMidfieldersComplete(g, d, midC, fwdC, m, f);
    } else {
      WithDefendersComplete(g, defC[1..], midC, fwdC, d, m, f);
    }
  }

  /** The intended search visits every choice of goalkeepers, defenders, midfielders and forwards. */
  lemma {:induction false} CartesianIsComplete(gkC: seq<seq<Prediction>>, defC: seq<seq<Prediction>>, midC: seq<seq<Prediction>>,
                                               fwdC: seq<seq<Prediction>>, g: seq<Prediction>, d: seq<Prediction>,
                                               m: seq<Prediction>, f: seq<Prediction>)
    requires g in gkC && d in defC && m in midC && f in fwdC
    ensures MakeTeamComb(g, d, m, f) in CartesianCombs(gkC, defC, midC, fwdC)
  {
    if g == gkC[0] {
      WithDefendersComplete(g, defC, midC, fwdC, d, m, f);
    } else {
      CartesianIsComplete(gkC[1..], defC, midC, fwdC, g, d, m, f);
    }
  }

  lemma {:induction false} WithMidfieldersMember(g: seq<Prediction>, d: seq<Prediction>, midC: seq<seq<Prediction>>,
                                                 fwdC: seq<seq<Prediction>>, t: TeamComb)
    returns (m: seq<Prediction>, f: seq<Prediction>)
    requires t in WithMidfielders(g, d, midC, fwdC)
    ensures m in midC && f in fwdC && t == MakeTeamComb(g, d, m, f)
  {
    if t in WithForwards(g, d, midC[0], fwdC) {
      var i :| 0 <= i < |fwdC| && WithForwards(g, d, midC[0], fwdC)[i] == t;
      m, f := midC[0], fwdC[i];
    } else {
      m, f := WithMidfieldersMember(g, d, midC[1..], fwdC, t);
    }
  }

  lemma {:induction false} WithDefendersMember(g: seq<Prediction>, defC: seq<seq<Prediction>>, midC: seq<seq<Prediction>>,
                                               fwdC: seq<seq<Prediction>>, t: TeamComb)
    returns (d: seq<Prediction>, m: seq<Prediction>, f: seq<Prediction>)
    requires t in WithDefenders(g, defC, midC, fwdC)
    ensures d in defC && m in midC && f in fwdC && t == MakeTeamComb(g, d, m, f)
  {
    if t in WithMidfielders(g, defC[0], midC, fwdC) {
      d := defC[0];
      m, f := WithMidfieldersMember(g, d, midC, fwdC, t);
    } else {
      d, m, f := WithDefendersMember(g, defC[1..], midC, fwdC, t);
    }
  }

  /** Conversely, everything the intended search visits is such a choice. */
  lemma {:induction false} CartesianMember(gkC: seq<seq<Prediction>>, defC: seq<seq<Prediction>>, midC: seq<seq<Prediction>>,
                                           fwdC: seq<seq<Prediction>>, t: TeamComb)
    returns (g: seq<Prediction>, d: seq<Prediction>, m: seq<Prediction>, f: seq<Prediction>)
    requires t in CartesianCombs(gkC, defC, midC, fwdC)
    ensures g in gkC && d in defC && m in midC && f in fwdC && t == MakeTeamComb(g, d, m, f)
  {
    if t in WithDefenders(gkC[0], defC, midC, fwdC) {
      g := gkC[0];
      d, m, f := WithDefendersMember(g, defC, midC, fwdC, t);
    } else {
      g, d, m, f := CartesianMember(gkC[1..], defC, midC, fwdC, t);
    }
  }

  /** The loops as written visit the first stretch of what the intended search visits. */
  lemma EnumeratedIsPrefixOfCartesian(gkC: seq<seq<Prediction>>, defC: seq<seq<Prediction>>,
                                      midC: seq<seq<Prediction>>, fwdC: seq<seq<Prediction>>)
    ensures var e := EnumeratedCombs(gkC, defC, midC, fwdC);
            var all := CartesianCombs(gkC, defC, midC, fwdC);
            |e| <= |all| && all[..|e|] == e
  {
    if gkC != [] && defC != [] && midC != [] {
      var e := WithForwards(gkC[0], defC[0], midC[0], fwdC);
      var mids := WithMidfielders(gkC[0], defC[0], midC, fwdC);
      var defs := WithDefenders(gkC[0], defC, midC, fwdC);
      assert mids == e + WithMidfielders(gkC[0], defC[0], midC[1..], fwdC);
      assert defs == mids + WithDefenders(gkC[0], defC[1..], midC, fwdC);
      assert CartesianCombs(gkC, defC, midC, fwdC) == defs + CartesianCombs(gkC[1..], defC, midC, fwdC);
      assert (e + WithMidfielders(gkC[0], defC[0], midC[1..], fwdC) + WithDefenders(gkC[0], defC[1..], midC, fwdC) +
              CartesianCombs(gkC[1..], defC, midC, fwdC))[..|e|] == e;
    }
  }

  /** Combinations of a group exist exactly when the pool holds enough players, the first being the top ones. */
  lemma GroupCombinationsShape(predictions: seq<Prediction>, k: nat, rowsToCheck: int)
    requires k < 4
    ensures var pool := Pool(predictions, GroupPositions[k], rowsToCheck);
            var combs := GroupCombinations(predictions, k, rowsToCheck);
            (combs != [] <==> |pool| >= GroupSizes[k]) &&
            (combs != [] ==> combs[0] == pool[..GroupSizes[k]]) &&
            |combs| == Binomial(|pool|, GroupSizes[k])
  {
    var pool := Pool(predictions, GroupPositions[k], rowsToCheck);
    CombinationsCount(pool, GroupSizes[k]);
    if |pool| >= GroupSizes[k] {
      FirstCombination(pool, GroupSizes[k]);
    } else {
      NoCombinationsOfTooFew(pool, GroupSizes[k]);
    }
  }

  /**
   * As written, every visited combination has the top two goalkeepers, the top
   * five defenders and the top five midfielders of the pools; only the forward
   * triple varies, over all of them.
   */
  lemma AsWrittenFixesThreeGroups(predictions: seq<Prediction>, rowsToCheck: int)
    ensures var gk := Pool(predictions, "GK", rowsToCheck);
            var df := Pool(predictions, "DEF", rowsToCheck);
            var md := Pool(predictions, "MID", rowsToCheck);
            var fw := Pool(predictions, "FWD", rowsToCheck);
            var combs := AsWrittenCandidates(predictions, rowsToCheck);
            |combs| == (if |gk| >= 2 && |df| >= 5 && |md| >= 5 then Binomial(|fw|, 3) else 0) &&
            forall t | t in combs :: t.gks == gk[..2] && t.defs == df[..5] && t.mids == md[..5]
  {
    GroupCombinationsShape(predictions, 0, rowsToCheck);
    GroupCombinationsShape(predictions, 1, rowsToCheck);
    GroupCombinationsShape(predictions, 2, rowsToCheck);
    GroupCombinationsShape(predictions, 3, rowsToCheck);
    forall t | t in AsWrittenCandidates(predictions, rowsToCheck)
      ensures t.gks == Pool(predictions, "GK", rowsToCheck)[..2]
      ensures t.defs == Pool(predictions, "DEF", rowsToCheck)[..5]
      ensures t.mids == Pool(predictions, "MID", rowsToCheck)[..5]
    {
      AsWrittenMember(predictions, rowsToCheck, t);
    }
  }

  /** A row with only a name and a value, for the example below. */
  function Priced(name: string, value: int): Prediction {
    Prediction(name, value, "", "", "", 0, 0.0, 0.0, 0.0, 0.0)
  }

  /**
   * The shared iterators lose admissible squads: with two defender choices, the
   * first over budget, the loops visit only the first and keep nothing, while
   * the intended search keeps the second.
   */
  lemma ConsumedIteratorsMissAnAffordableSquad()
    ensures var gkC := [[Priced("g", 100)]];
            var defC := [[Priced("a", 900)], [Priced("b", 100)]];
            var midC := [[Priced("m", 100)]];
            var fwdC := [[Priced("f", 100)]];
            Retained(Budget, EnumeratedCombs(gkC, defC, midC, fwdC)) == [] &&
            Retained(Budget, CartesianCombs(gkC, defC, midC, fwdC)) != []
  {
    var g, a, b, m, f := [Priced("g", 100)], [Priced("a", 900)], [Priced("b", 100)], [Priced("m", 100)], [Priced("f", 100)];
    var gkC, defC, midC, fwdC := [g], [a, b], [m], [f];
    var expensive := MakeTeamComb(g, a, m, f);
    var cheap := MakeTeamComb(g, b, m, f);
    PricedCombValue("g", "a", "m", "f", 100, 900, 100, 100);
    PricedCombValue("g", "b", "m", "f", 100, 100, 100, 100);
    assert EnumeratedCombs(gkC, defC, midC, fwdC) == [expensive];
    RetainedSnoc(Budget, [], expensive);
    assert [] + [expensive] == [expensive];
    CartesianIsComplete(gkC, defC, midC, fwdC, g, b, m, f);
    RetainedMembership(Budget, CartesianCombs(gkC, defC, midC, fwdC));
    assert AdmitsComb(Budget, cheap);
  }

  lemma SingleValue(p: Prediction)
    ensures SumOfInformation([p]).value == p.value
  {
    assert [p][1..] == [];
    assert TotalValue([p]) == p.value + TotalValue([]);
  }

  lemma PricedCombValue(g: string, d: string, m: string, f: string, gv: int, dv: int, mv: int, fv: int)
    ensures MakeTeamComb([Priced(g, gv)], [Priced(d, dv)], [Priced(m, mv)], [Priced(f, fv)]).value == gv + dv + mv + fv
  {
    SingleValue(Priced(g, gv));
    SingleValue(Priced(d, dv));
    SingleValue(Priced(m, mv));
    SingleValue(Priced(f, fv));
  }

  /**
   * As written, under 'budget' the search fails whenever the top goalkeepers,
   * defenders and midfielders alone exceed the budget, however cheap the other
   * players of their positions are.
   */
  lemma AsWrittenBudgetNeedsTopGroupsAffordable(predictions: seq<Prediction>, rowsToCheck: int)
    requires forall p | p in predictions :: p.value >= 0
    requires |Pool(predictions, "GK", rowsToCheck)| >= 2 && |Pool(predictions, "DEF", rowsToCheck)| >= 5
    requires |Pool(predictions, "MID", rowsToCheck)| >= 5
    requires TotalValue(Pool(predictions, "GK", rowsToCheck)[..2] + Pool(predictions, "DEF", rowsToCheck)[..5] +
                        Pool(predictions, "MID", rowsToCheck)[..5]) > BudgetLimit
    ensures BestSquad("budget", predictions, rowsToCheck) == Failure(NoTeamCombinations)
  {
    var combs := AsWrittenCandidates(predictions, rowsToCheck);
    forall t | t in combs ensures !AdmitsComb(Budget, t) {
      AsWrittenOverBudget(predictions, rowsToCheck, t);
    }
    NothingAdmittedNothingKept(Budget, combs);
  }

  lemma {:induction false} NothingAdmittedNothingKept(c: Constraint, combs: seq<TeamComb>)
    requires forall t | t in combs :: !AdmitsComb(c, t)
    ensures Retained(c, combs) == []
  {
    if combs != [] {
      var init, last := combs[..|combs| - 1], combs[|combs| - 1];
      assert combs == init + [last];
      assert forall t | t in init :: t in combs;
      NothingAdmittedNothingKept(c, init);
      RetainedSnoc(c, init, last);
    }
  }

  lemma AsWrittenOverBudget(predictions: seq<Prediction>, rowsToCheck: int, t: TeamComb)
    requires forall p | p in predictions :: p.value >= 0
    requires |Pool(predictions, "GK", rowsToCheck)| >= 2 && |Pool(predictions, "DEF", rowsToCheck)| >= 5
    requires |Pool(predictions, "MID", rowsToCheck)| >= 5
    requires TotalValue(Pool(predictions, "GK", rowsToCheck)[..2] + Pool(predictions, "DEF", rowsToCheck)[..5] +
                        Pool(predictions, "MID", rowsToCheck)[..5]) > BudgetLimit
    requires t in AsWrittenCandidates(predictions, rowsToCheck)
    ensures !AdmitsComb(Budget, t)
  {
    var top := Pool(predictions, "GK", rowsToCheck)[..2] + Pool(predictions, "DEF", rowsToCheck)[..5] +
               Pool(predictions, "MID", rowsToCheck)[..5];
    AsWrittenMember(predictions, rowsToCheck, t);
    GroupCombinationMembers(predictions, 3, rowsToCheck, t.fwds);
    assert Squad(t) == top + t.fwds;
    MakeTeamCombTotals(t.gks, t.defs, t.mids, t.fwds);
    OverBudget(top, t.fwds, t);
  }

  /** A combination the loops visit: the top three groups with a forward triple of the pool. */
  lemma AsWrittenMember(predictions: seq<Prediction>, rowsToCheck: int, t: TeamComb)
    requires t in AsWrittenCandidates(predictions, rowsToCheck)
    ensures |Pool(predictions, "GK", rowsToCheck)| >= 2 && |Pool(predictions, "DEF", rowsToCheck)| >= 5
    ensures |Pool(predictions, "MID", rowsToCheck)| >= 5
    ensures t.gks == Pool(predictions, "GK", rowsToCheck)[..2]
    ensures t.defs == Pool(predictions, "DEF", rowsToCheck)[..5]
    ensures t.mids == Pool(predictions, "MID", rowsToCheck)[..5]
    ensures t.fwds in GroupCombinations(predictions, 3, rowsToCheck)
    ensures t == MakeTeamComb(t.gks, t.defs, t.mids, t.fwds)
  {
    var gkC, defC := GroupCombinations(predictions, 0, rowsToCheck), GroupCombinations(predictions, 1, rowsToCheck);
    var midC, fwdC := GroupCombinations(predictions, 2, rowsToCheck), GroupCombinations(predictions, 3, rowsToCheck);
    assert gkC != [] && defC != [] && midC != [];
    GroupCombinationsShape(predictions, 0, rowsToCheck);
    GroupCombinationsShape(predictions, 1, rowsToCheck);
    GroupCombinationsShape(predictions, 2, rowsToCheck);
    var combs := WithForwards(gkC[0], defC[0], midC[0], fwdC);
    var i :| 0 <= i < |combs| && combs[i] == t;
  }

  lemma OverBudget(top: seq<Prediction>, fwds: seq<Prediction>, t: TeamComb)
    requires forall p | p in fwds :: p.value >= 0
    requires TotalValue(top) > BudgetLimit
    requires Squad(t) == top + fwds && SumOfInformation(Squad(t)).value == t.value
    ensures !AdmitsComb(Budget, t)
  {
    NonNegativeValue(fwds);
    SumOfInformationConcat(top, fwds);
  }

  lemma {:induction false} NonNegativeValue(s: seq<Prediction>)
    requires forall p | p in s :: p.value >= 0
    ensures TotalValue(s) >= 0
  {
    if s != [] {
      assert s[0] in s;
      assert forall p | p in s[1..] :: p in s;
      NonNegativeValue(s[1..]);
    }
  }

  // ---------------------------------------------------------------------------
  // The shape of the candidates

  /** A group of `size` players, all of the given position. */
  predicate GroupOf(g: seq<Prediction>, position: string, size: nat) {
    |g| == size && forall p | p in g :: p.position == position
  }

  /** Two goalkeepers, five defenders, five midfielders, three forwards. */
  predicate WellFormed(t: TeamComb) {
    GroupOf(t.gks, "GK", 2) && GroupOf(t.defs, "DEF", 5) && GroupOf(t.mids, "MID", 5) && GroupOf(t.fwds, "FWD", 3)
  }

  lemma GroupCombinationMembers(predictions: seq<Prediction>, k: nat, rowsToCheck: int, g: seq<Prediction>)
    requires k < 4 && g in GroupCombinations(predictions, k, rowsToCheck)
    ensures GroupOf(g, GroupPositions[k], GroupSizes[k])
    ensures forall p | p in g :: p in predictions
    ensures Distinct(predictions) ==> Distinct(g)
  {
    var pool := Pool(predictions, GroupPositions[k], rowsToCheck);
    PoolMembers(predictions, GroupPositions[k], rowsToCheck);
    CombinationDistinct(pool, GroupSizes[k], g);
    CombinationLength(pool, GroupSizes[k], g);
    if Distinct(predictions) {
      PoolDistinct(predictions, GroupPositions[k], rowsToCheck);
    }
  }

  lemma DistinctConcat(a: seq<Prediction>, b: seq<Prediction>)
    requires Distinct(a) && Distinct(b) && forall x | x in a :: x !in b
    ensures Distinct(a + b)
  {
    forall i, j | 0 <= i < j < |a + b| ensures (a + b)[i] != (a + b)[j] {
      if i < |a| && j >= |a| {
        assert (a + b)[i] in a && (a + b)[j] == b[j - |a|];
      } else if i >= |a| {
        assert (a + b)[i] == b[i - |a|] && (a + b)[j] == b[j - |a|];
      }
    }
  }

  /** Groups of different positions share no row, so the squad has no repeated row. */
  lemma DistinctSquad(t: TeamComb)
    requires WellFormed(t) && Distinct(t.gks) && Distinct(t.defs) && Distinct(t.mids) && Distinct(t.fwds)
    ensures Distinct(Squad(t))
  {
    DistinctConcat(t.gks, t.defs);
    DistinctConcat(t.gks + t.defs, t.mids);
    DistinctConcat(t.gks + t.defs + t.mids, t.fwds);
  }

  /**
   * Every combination of the intended search is well formed, its rows come from
   * the table, and it has no repeated row when the table has none.
   */
  lemma IntendedCandidateShape(predictions: seq<Prediction>, rowsToCheck: int, t: TeamComb)
    requires t in IntendedCandidates(predictions, rowsToCheck)
    ensures WellFormed(t) && t == MakeTeamComb(t.gks, t.defs, t.mids, t.fwds)
    ensures forall p | p in Squad(t) :: p in predictions
    ensures Distinct(predictions) ==> Distinct(Squad(t))
  {
    var g, d, m, f := CartesianMember(GroupCombinations(predictions, 0, rowsToCheck), GroupCombinations(predictions, 1, rowsToCheck),
                                      GroupCombinations(predictions, 2, rowsToCheck), GroupCombinations(predictions, 3, rowsToCheck), t);
    GroupCombinationMembers(predictions, 0, rowsToCheck, g);
    GroupCombinationMembers(predictions, 1, rowsToCheck, d);
    GroupCombinationMembers(predictions, 2, rowsToCheck, m);
    GroupCombinationMembers(predictions, 3, rowsToCheck, f);
    if Distinct(predictions) {
      DistinctSquad(t);
    }
  }

  lemma PrefixMembers(e: seq<TeamComb>, all: seq<TeamComb>)
    requires |e| <= |all| && all[..|e|] == e
    ensures forall t | t in e :: t in all
  {
    forall t | t in e ensures t in all {
      var i :| 0 <= i < |e| && e[i] == t;
      assert all[i] == all[..|e|][i];
    }
  }

  /** The loops as written visit only combinations the intended search visits. */
  lemma AsWrittenCandidatesAreIntended(predictions: seq<Prediction>, rowsToCheck: int)
    ensures forall t | t in AsWrittenCandidates(predictions, rowsToCheck) :: t in IntendedCandidates(predictions, rowsToCheck)
  {
    var gkC, defC := GroupCombinations(predictions, 0, rowsToCheck), GroupCombinations(predictions, 1, rowsToCheck);
    var midC, fwdC := GroupCombinations(predictions, 2, rowsToCheck), GroupCombinations(predictions, 3, rowsToCheck);
    EnumeratedIsPrefixOfCartesian(gkC, defC, midC, fwdC);
    PrefixMembers(EnumeratedCombs(gkC, defC, midC, fwdC), CartesianCombs(gkC, defC, midC, fwdC));
  }

  // ---------------------------------------------------------------------------
  // The starting eleven and the bench

  /** The first goalkeeper, four defenders, four midfielders and two forwards of a squad. */
  function FirstEleven(t: TeamComb): seq<Prediction>
    requires WellFormed(t)
  {
    t.gks[..1] + t.defs[..4] + t.mids[..4] + t.fwds[..2]
  }

  lemma FirstElevenCount(t: TeamComb, position: string)
    requires WellFormed(t)
    ensures CountPosition(FirstEleven(t), position) ==
            (if position == "GK" then 1 else 0) + (if position == "DEF" then 4 else 0) +
            (if position == "MID" then 4 else 0) + (if position == "FWD" then 2 else 0)
  {
    CountPositionConcat(t.gks[..1], t.defs[..4], position);
    CountPositionConcat(t.gks[..1] + t.defs[..4], t.mids[..4], position);
    CountPositionConcat(t.gks[..1] + t.defs[..4] + t.mids[..4], t.fwds[..2], position);
    assert forall p | p in t.gks[..1] :: p in t.gks;
    assert forall p | p in t.defs[..4] :: p in t.defs;
    assert forall p | p in t.mids[..4] :: p in t.mids;
    assert forall p | p in t.fwds[..2] :: p in t.fwds;
    CountPositionUniform(t.gks[..1], "GK", position);
    CountPositionUniform(t.defs[..4], "DEF", position);
    CountPositionUniform(t.mids[..4], "MID", position);
    CountPositionUniform(t.fwds[..2], "FWD", position);
  }

  lemma FirstElevenIsCombination(t: TeamComb)
    requires WellFormed(t)
    ensures FirstEleven(t) in Combinations(Squad(t), 11)
  {
    var mask := LeadingOfFourMask(t.gks, t.defs, t.mids, t.fwds, 1, 4, 4, 2);
    assert Choose(Squad(t), mask) == FirstEleven(t);
    ChoiceIsCombination(Squad(t), mask);
  }

  /** Every well-formed squad has a legal eleven (one goalkeeper, four defenders, four midfielders, two forwards). */
  lemma LegalElevenExists(t: TeamComb)
    requires WellFormed(t)
    ensures LegalElevens(Squad(t)) != []
  {
    FirstElevenIsCombination(t);
    FirstElevenCount(t, "GK");
    FirstElevenCount(t, "DEF");
    FirstElevenCount(t, "MID");
    FirstElevenCount(t, "FWD");
    assert LegalFormation(FirstEleven(t));
    assert FirstEleven(t) in LegalElevens(Squad(t));
  }

  /** The bench of an eleven of a squad without repeated rows is the complementary selection. */
  lemma BenchIsComplement(t: TeamComb, eleven: seq<Prediction>) returns (mask: seq<bool>)
    requires Distinct(Squad(t)) && eleven in Combinations(Squad(t), 11)
    ensures |mask| == |Squad(t)| && CountTrue(mask) == 11 && Choose(Squad(t), mask) == eleven
    ensures DifferenceBetweenLists(eleven, Squad(t)) == Choose(Squad(t), Complement(mask))
    ensures multiset(eleven) + multiset(DifferenceBetweenLists(eleven, Squad(t))) == multiset(Squad(t))
  {
    var s := Squad(t);
    mask := CombinationIsChoice(s, 11, eleven);
    forall x | x in eleven ensures x in s {
      ChooseElement(s, mask, x);
    }
    DifferenceOfSublist(eleven, s);
    forall i | 0 <= i < |s| ensures s[i] in eleven <==> mask[i] {
      ChooseMembership(s, mask, i);
    }
    OutsideOfChoice(s, mask, eleven);
    ChoosePartition(s, mask);
  }

  /** Selecting from a group of one position followed by rows of other positions counts the group's flags. */
  lemma CountSelected(a: seq<Prediction>, b: seq<Prediction>, mask: seq<bool>, position: string)
    requires |mask| == |a| + |b|
    requires forall p | p in a :: p.position == position
    requires forall p | p in b :: p.position != position
    ensures CountPosition(Choose(a + b, mask), position) == CountTrue(mask[..|a|])
  {
    SplitChoice(a, b, mask);
    var ca, cb := Choose(a, mask[..|a|]), Choose(b, mask[|a|..]);
    forall p | p in ca ensures p.position == position {
      ChooseElement(a, mask[..|a|], p);
    }
    forall p | p in cb ensures p.position != position {
      ChooseElement(b, mask[|a|..], p);
    }
    CountPositionConcat(ca, cb, position);
    CountPositionUniform(ca, position, position);
    CountPositionAbsent(cb, position);
  }

  /** The complementary selection starts with the one unselected row of the group, then holds none of its position. */
  lemma UnselectedFirst(a: seq<Prediction>, b: seq<Prediction>, mask: seq<bool>, position: string)
    requires |mask| == |a| + |b| && CountTrue(mask[..|a|]) == |a| - 1
    requires forall p | p in a :: p.position == position
    requires forall p | p in b :: p.position != position
    ensures var subs := Choose(a + b, Complement(mask));
            |subs| >= 1 && subs[0] in a && subs[0].position == position &&
            forall p | p in subs[1..] :: p.position != position
  {
    SplitChoice(a, b, mask);
    CountComplement(mask[..|a|]);
    var first := Choose(a, Complement(mask[..|a|]));
    var others := Choose(b, Complement(mask[|a|..]));
    var subs := first + others;
    assert |first| == 1;
    assert subs[0] == first[0];
    ChooseElement(a, Complement(mask[..|a|]), first[0]);
    assert subs[1..] == others;
    forall p | p in others ensures p.position != position {
      ChooseElement(b, Complement(mask[|a|..]), p);
    }
  }

  lemma OutfieldNotGoalkeepers(t: TeamComb)
    requires WellFormed(t)
    ensures Squad(t) == t.gks + (t.defs + t.mids + t.fwds)
    ensures forall p | p in t.defs + t.mids + t.fwds :: p.position != "GK"
  {
  }

  /**
   * In a squad without repeated rows, the bench of any legal eleven is the four
   * squad rows outside it: the other goalkeeper first, then three outfield rows.
   */
  lemma BenchOfDistinctSquad(t: TeamComb, eleven: seq<Prediction>)
    requires WellFormed(t) && Distinct(Squad(t))
    requires eleven in Combinations(Squad(t), 11) && LegalFormation(eleven)
    ensures var subs := DifferenceBetweenLists(eleven, Squad(t));
            |subs| == 4 && multiset(eleven) + multiset(subs) == multiset(Squad(t)) &&
            subs[0].position == "GK" && subs[0] in t.gks &&
            forall p | p in subs[1..] :: p.position != "GK"
  {
    var mask := BenchIsComplement(t, eleven);
    var rest := t.defs + t.mids + t.fwds;
    OutfieldNotGoalkeepers(t);
    CountSelected(t.gks, rest, mask, "GK");
    UnselectedFirst(t.gks, rest, mask, "GK");
    CountComplement(mask);
  }
}
