/**
 * What get_best_squad delivers: the layout of the squad sheet, the captain
 * flag, the choice of the starting eleven, and the outcome of both searches
 * on a predictions table without repeated rows.
 */
module SheetProperties {
  import opened Wrappers
  import opened Combinatorics
  import opened Predictions
  import opened DataCleaningFunctions
  import opened BestPredictedSquad
  import opened SquadProperties

  /** The player rows of a sheet, without the captain column. */
  function SheetPlayers(sheet: seq<SquadRow>): (players: seq<Prediction>)
    ensures |players| == |sheet| && forall i :: 0 <= i < |sheet| ==> players[i] == sheet[i].row
  {
    seq(|sheet|, i requires 0 <= i < |sheet| => sheet[i].row)
  }

  /** The labels of the three outfield substitutes. */
  const SubLabels: seq<string> := ["Sub1", "Sub2", "Sub3"]

  // ---------------------------------------------------------------------------
  // The sheet

  lemma SheetIsRows(eleven: seq<Prediction>, subs: seq<Prediction>)
    requires |subs| == 4 && eleven != []
    ensures SheetPlayers(SquadSheet(eleven, subs)) == SheetRows(eleven, subs)
  {
  }

  /** The outfield bench of the sheet: the three bench rows by rank, relabelled. */
  predicate RelabelledBench(rest: seq<Prediction>, bench: seq<Prediction>)
    requires |rest| == 3
  {
    var ranked := SortByRank(rest);
    bench == [ranked[0].(position := "Sub1"), ranked[1].(position := "Sub2"), ranked[2].(position := "Sub3")]
  }

  lemma SheetRowsSplit(eleven: seq<Prediction>, subs: seq<Prediction>)
    requires |subs| == 4
    ensures var rows := SheetRows(eleven, subs);
            var e := |eleven|;
            rows[..e] == eleven && rows[e] == subs[0].(position := "SubGK") && RelabelledBench(subs[1..], rows[e + 1..])
  {
  }

  /** Relabelling a row keeps its rank. */
  lemma RelabelledRank(p: Prediction, q: Prediction, a: string, b: string)
    requires RankAtLeast(p, q)
    ensures RankAtLeast(p.(position := a), q.(position := b))
  {
  }

  /** Three rows labelled Sub1-Sub3, from highest to lowest rank. */
  predicate LabelledByRank(bench: seq<Prediction>) {
    |bench| == 3 && (forall k :: 0 <= k < 3 ==> bench[k].position == SubLabels[k]) &&
    RankAtLeast(bench[0], bench[1]) && RankAtLeast(bench[1], bench[2])
  }

  /** The three rows are the rows of `rest`, in some order, each under its label. */
  ghost predicate RelabelsEach(rest: seq<Prediction>, bench: seq<Prediction>) {
    |bench| == 3 &&
    exists order: seq<Prediction> :: |order| == 3 && multiset(order) == multiset(rest) &&
                                     forall k :: 0 <= k < 3 ==> bench[k] == order[k].(position := SubLabels[k])
  }

  lemma BenchOrder(rest: seq<Prediction>, bench: seq<Prediction>)
    requires |rest| == 3 && RelabelledBench(rest, bench)
    ensures LabelledByRank(bench)
  {
    var ranked := SortByRank(rest);
    RelabelledRank(ranked[0], ranked[1], "Sub1", "Sub2");
    RelabelledRank(ranked[1], ranked[2], "Sub2", "Sub3");
  }

  lemma BenchIsBenchRows(rest: seq<Prediction>, bench: seq<Prediction>)
    requires |rest| == 3 && RelabelledBench(rest, bench)
    ensures RelabelsEach(rest, bench)
  {
    var ranked := SortByRank(rest);
    assert forall k :: 0 <= k < 3 ==> bench[k] == ranked[k].(position := SubLabels[k]);
  }

  /** The bench of the sheet relabels the four bench rows: the goalkeeper first, the others by rank. */
  lemma BenchRelabelled(rest: seq<Prediction>, bench: seq<Prediction>)
    requires |rest| == 3 && RelabelledBench(rest, bench)
    ensures LabelledByRank(bench) && RelabelsEach(rest, bench)
  {
    BenchOrder(rest, bench);
    BenchIsBenchRows(rest, bench);
  }

  /**
   * The sheet lists the eleven as chosen, then the bench goalkeeper as SubGK,
   * then the three other substitutes from highest to lowest rank as Sub1-Sub3:
   * those three are the other bench rows, each relabelled.
   */
  lemma SheetLayout(eleven: seq<Prediction>, subs: seq<Prediction>)
    requires |subs| == 4 && eleven != []
    ensures var players := SheetPlayers(SquadSheet(eleven, subs));
            var e := |eleven|;
            |players| == e + 4 && players[..e] == eleven && players[e] == subs[0].(position := "SubGK") &&
            LabelledByRank(players[e + 1..]) && RelabelsEach(subs[1..], players[e + 1..])
  {
    SheetIsRows(eleven, subs);
    SheetRowsSplit(eleven, subs);
    BenchRelabelled(subs[1..], SheetRows(eleven, subs)[|eleven| + 1..]);
  }

  // ---------------------------------------------------------------------------
  // The captain

  /** `x` is the largest prob_3 of the eleven. */
  predicate IsTopProb3(x: real, eleven: seq<Prediction>) {
    (exists j :: 0 <= j < |eleven| && eleven[j].prob3 == x) && forall j :: 0 <= j < |eleven| ==> eleven[j].prob3 <= x
  }

  lemma TopProb3Unique(x: real, y: real, eleven: seq<Prediction>)
    requires IsTopProb3(x, eleven) && IsTopProb3(y, eleven)
    ensures x == y
  {
    var i :| 0 <= i < |eleven| && eleven[i].prob3 == x;
    var j :| 0 <= j < |eleven| && eleven[j].prob3 == y;
  }

  /** Across all rows of the sheet, bench included, the flag is 1 exactly where prob_3 is the eleven's largest. */
  lemma CaptainIsTopOfEleven(eleven: seq<Prediction>, subs: seq<Prediction>)
    requires |subs| == 4 && eleven != []
    ensures var sheet := SquadSheet(eleven, subs);
            forall i :: 0 <= i < |sheet| ==> sheet[i].captain == if IsTopProb3(sheet[i].row.prob3, eleven) then 1 else 0
  {
    var sheet := SquadSheet(eleven, subs);
    var top := MaxProb3(eleven);
    assert IsTopProb3(top, eleven);
    forall i | 0 <= i < |sheet| ensures sheet[i].captain == if IsTopProb3(sheet[i].row.prob3, eleven) then 1 else 0 {
      if IsTopProb3(sheet[i].row.prob3, eleven) {
        TopProb3Unique(sheet[i].row.prob3, top, eleven);
      }
    }
  }

  /** At least one starter is flagged captain. */
  lemma CaptainAmongStarters(eleven: seq<Prediction>, subs: seq<Prediction>)
    requires |subs| == 4 && eleven != []
    ensures exists i :: 0 <= i < |eleven| && SquadSheet(eleven, subs)[i].captain == 1
  {
    var top := MaxProb3(eleven);
    var j :| 0 <= j < |eleven| && eleven[j].prob3 == top;
    SheetRowsSplit(eleven, subs);
    assert SheetRows(eleven, subs)[..|eleven|][j] == eleven[j];
    assert SquadSheet(eleven, subs)[j].row == eleven[j];
  }

  // ---------------------------------------------------------------------------
  // The starting eleven

  /**
   * The chosen eleven is an 11-row selection of the squad in a legal formation,
   * no legal selection has higher (points, probabilities), and every legal one
   * listed before it has strictly lower.
   */
  lemma ChosenElevenIsBest(squad: seq<Prediction>)
    requires LegalElevens(squad) != []
    ensures var elevens := LegalElevens(squad);
            var eleven := ChosenEleven(squad);
            eleven in Combinations(squad, 11) && |eleven| == 11 && LegalFormation(eleven) &&
            (forall other | other in Combinations(squad, 11) && LegalFormation(other) ::
               !Beats(ElevenScore(other), ElevenScore(eleven))) &&
            exists i :: 0 <= i < |elevens| && elevens[i] == eleven &&
                        forall j :: 0 <= j < i ==> Beats(ElevenScore(eleven), ElevenScore(elevens[j]))
  {
    var elevens := LegalElevens(squad);
    var scores := ElevenScores(elevens);
    var i := FirstBest(scores);
    var eleven := elevens[i];
    assert eleven in elevens;
    CombinationLength(squad, 11, eleven);
    forall other | other in Combinations(squad, 11) && LegalFormation(other)
      ensures !Beats(ElevenScore(other), ElevenScore(eleven))
    {
      assert other in elevens;
      var j :| 0 <= j < |elevens| && elevens[j] == other;
      assert scores[j] == ElevenScore(other);
    }
    forall j | 0 <= j < i ensures Beats(ElevenScore(eleven), ElevenScore(elevens[j])) {
      assert scores[j] == ElevenScore(elevens[j]);
    }
  }

  /** The rows of an 11-row selection of a squad without repeated rows are squad rows, none repeated. */
  lemma ElevenRows(squad: seq<Prediction>, eleven: seq<Prediction>)
    requires eleven in Combinations(squad, 11)
    ensures forall p | p in eleven :: p in squad
    ensures Distinct(squad) ==> Distinct(eleven)
  {
    CombinationDistinct(squad, 11, eleven);
  }

  /**
   * A well-formed squad without repeated rows always reaches a sheet: the chosen
   * eleven is legal, and its bench is the other goalkeeper followed by three
   * outfield rows, together making up the squad.
   */
  lemma StartingSheetOfWellFormed(t: TeamComb)
    requires WellFormed(t) && Distinct(Squad(t))
    ensures StartingSheet(Squad(t)).Success? && LegalElevens(Squad(t)) != []
    ensures var eleven := ChosenEleven(Squad(t));
            var subs := DifferenceBetweenLists(eleven, Squad(t));
            |eleven| == 11 && |subs| == 4 && StartingSheet(Squad(t)).value == SquadSheet(eleven, subs) &&
            eleven in Combinations(Squad(t), 11) && LegalFormation(eleven) &&
            multiset(eleven) + multiset(subs) == multiset(Squad(t)) &&
            subs[0].position == "GK" && subs[0] in t.gks && forall p | p in subs[1..] :: p.position != "GK"
  {
    LegalElevenExists(t);
    ChosenElevenIsBest(Squad(t));
    BenchOfDistinctSquad(t, ChosenEleven(Squad(t)));
  }

  // ---------------------------------------------------------------------------
  // What a search delivers

  /**
   * A delivered sheet: fifteen rows; first a legal eleven of distinct table
   * rows; then the bench goalkeeper (a table row) as SubGK and three
   * substitutes from highest to lowest rank as Sub1-Sub3; a starter is captain.
   */
  predicate DeliveredSheet(sheet: seq<SquadRow>, predictions: seq<Prediction>) {
    var players := SheetPlayers(sheet);
    |players| == 15 && LegalFormation(players[..11]) && Distinct(players[..11]) &&
    (forall p | p in players[..11] :: p in predictions) &&
    players[11].position == "SubGK" && players[11].(position := "GK") in predictions &&
    LabelledByRank(players[12..]) &&
    exists i :: 0 <= i < 11 && sheet[i].captain == 1
  }

  /** The sheet of a legal eleven of distinct table rows and a goalkeeper of the table first on the bench. */
  lemma SheetIsDelivered(eleven: seq<Prediction>, subs: seq<Prediction>, predictions: seq<Prediction>)
    requires |eleven| == 11 && |subs| == 4 && LegalFormation(eleven) && Distinct(eleven)
    requires forall p | p in eleven :: p in predictions
    requires subs[0].position == "GK" && subs[0] in predictions
    ensures DeliveredSheet(SquadSheet(eleven, subs), predictions)
  {
    SheetLayout(eleven, subs);
    CaptainAmongStarters(eleven, subs);
    var players := SheetPlayers(SquadSheet(eleven, subs));
    assert players[11].(position := "GK") == subs[0];
  }

  /** The sheet of a chosen combination of the intended search is a delivered sheet. */
  lemma SheetOfCandidate(predictions: seq<Prediction>, rowsToCheck: int, t: TeamComb)
    requires Distinct(predictions) && t in IntendedCandidates(predictions, rowsToCheck)
    ensures StartingSheet(Squad(t)).Success? && DeliveredSheet(StartingSheet(Squad(t)).value, predictions)
  {
    IntendedCandidateShape(predictions, rowsToCheck, t);
    StartingSheetOfWellFormed(t);
    var squad := Squad(t);
    var eleven := ChosenEleven(squad);
    var subs := DifferenceBetweenLists(eleven, squad);
    ElevenRows(squad, eleven);
    assert subs[0] in squad;
    SheetIsDelivered(eleven, subs, predictions);
  }

  /**
   * Over candidates of the intended search, on a table without repeated rows,
   * the selection fails only when the constraint admits none of them, and
   * otherwise delivers a sheet.
   */
  lemma SelectSquadOutcome(c: Constraint, candidates: seq<TeamComb>, predictions: seq<Prediction>, rowsToCheck: int)
    requires Distinct(predictions)
    requires forall t | t in candidates :: t in IntendedCandidates(predictions, rowsToCheck)
    ensures var r := SelectSquad(c, candidates);
            (r.Failure? <==> Retained(c, candidates) == []) &&
            (r.Failure? ==> r.error == NoTeamCombinations) &&
            (r.Success? ==> DeliveredSheet(r.value, predictions))
  {
    if Retained(c, candidates) != [] {
      ChosenCombIsBest(c, candidates);
      SheetOfCandidate(predictions, rowsToCheck, ChosenComb(c, candidates));
    }
  }

  /**
   * get_best_squad as written, on a table without repeated rows: it stops only
   * on an unknown constraint or when nothing is admitted, never in the eleven or
   * bench stage, and otherwise delivers a sheet.
   */
  lemma BestSquadOutcome(constraint: string, predictions: seq<Prediction>, rowsToCheck: int)
    requires Distinct(predictions)
    ensures var r := BestSquad(constraint, predictions, rowsToCheck);
            (r.Failure? ==> r.error == InvalidConstraint || r.error == NoTeamCombinations) &&
            (r == Failure(NoTeamCombinations) <==>
               ParseConstraint(constraint).Some? &&
               Retained(ParseConstraint(constraint).value, AsWrittenCandidates(predictions, rowsToCheck)) == []) &&
            (r.Success? ==> DeliveredSheet(r.value, predictions))
  {
    AsWrittenCandidatesAreIntended(predictions, rowsToCheck);
    if ParseConstraint(constraint).Some? {
      SelectSquadOutcome(ParseConstraint(constraint).value, AsWrittenCandidates(predictions, rowsToCheck), predictions, rowsToCheck);
    }
  }

  /** The same for the intended search over every combination of the four groups. */
  lemma IntendedBestSquadOutcome(constraint: string, predictions: seq<Prediction>, rowsToCheck: int)
    requires Distinct(predictions)
    ensures var r := IntendedBestSquad(constraint, predictions, rowsToCheck);
            (r.Failure? ==> r.error == InvalidConstraint || r.error == NoTeamCombinations) &&
            (r == Failure(NoTeamCombinations) <==>
               ParseConstraint(constraint).Some? &&
               Retained(ParseConstraint(constraint).value, IntendedCandidates(predictions, rowsToCheck)) == []) &&
            (r.Success? ==> DeliveredSheet(r.value, predictions))
  {
    if ParseConstraint(constraint).Some? {
      SelectSquadOutcome(ParseConstraint(constraint).value, IntendedCandidates(predictions, rowsToCheck), predictions, rowsToCheck);
    }
  }

  // ---------------------------------------------------------------------------
  // The intended search is exhaustive

  /** A squad built from one combination of each group's pool. */
  predicate FromGroups(predictions: seq<Prediction>, rowsToCheck: int, g: seq<Prediction>, d: seq<Prediction>,
                       m: seq<Prediction>, f: seq<Prediction>) {
    g in GroupCombinations(predictions, 0, rowsToCheck) && d in GroupCombinations(predictions, 1, rowsToCheck) &&
    m in GroupCombinations(predictions, 2, rowsToCheck) && f in GroupCombinations(predictions, 3, rowsToCheck)
  }

  /** The intended search finds nothing exactly when the constraint admits no choice of the four groups. */
  lemma IntendedFailsOnlyWhenNothingAdmitted(c: Constraint, predictions: seq<Prediction>, rowsToCheck: int)
    ensures Retained(c, IntendedCandidates(predictions, rowsToCheck)) == [] <==>
            forall g, d, m, f | FromGroups(predictions, rowsToCheck, g, d, m, f) :: !AdmitsComb(c, MakeTeamComb(g, d, m, f))
  {
    var gkC, defC := GroupCombinations(predictions, 0, rowsToCheck), GroupCombinations(predictions, 1, rowsToCheck);
    var midC, fwdC := GroupCombinations(predictions, 2, rowsToCheck), GroupCombinations(predictions, 3, rowsToCheck);
    var all := IntendedCandidates(predictions, rowsToCheck);
    RetainedMembership(c, all);
    if Retained(c, all) != [] {
      var t := Retained(c, all)[0];
      var g, d, m, f := CartesianMember(gkC, defC, midC, fwdC, t);
      assert FromGroups(predictions, rowsToCheck, g, d, m, f) && AdmitsComb(c, MakeTeamComb(g, d, m, f));
    }
    forall g, d, m, f | FromGroups(predictions, rowsToCheck, g, d, m, f) && AdmitsComb(c, MakeTeamComb(g, d, m, f))
      ensures Retained(c, all) != []
    {
      CartesianIsComplete(gkC, defC, midC, fwdC, g, d, m, f);
    }
  }

  /** No admitted choice of the four groups has higher (points, probabilities) than the intended search's squad. */
  lemma IntendedSearchIsOptimal(c: Constraint, predictions: seq<Prediction>, rowsToCheck: int)
    requires Retained(c, IntendedCandidates(predictions, rowsToCheck)) != []
    ensures var best := ChosenComb(c, IntendedCandidates(predictions, rowsToCheck));
            forall g, d, m, f | FromGroups(predictions, rowsToCheck, g, d, m, f) && AdmitsComb(c, MakeTeamComb(g, d, m, f)) ::
              !Beats(CombScore(MakeTeamComb(g, d, m, f)), CombScore(best))
  {
    var gkC, defC := GroupCombinations(predictions, 0, rowsToCheck), GroupCombinations(predictions, 1, rowsToCheck);
    var midC, fwdC := GroupCombinations(predictions, 2, rowsToCheck), GroupCombinations(predictions, 3, rowsToCheck);
    ChosenCombIsBest(c, IntendedCandidates(predictions, rowsToCheck));
    forall g, d, m, f | FromGroups(predictions, rowsToCheck, g, d, m, f) && AdmitsComb(c, MakeTeamComb(g, d, m, f))
      ensures MakeTeamComb(g, d, m, f) in IntendedCandidates(predictions, rowsToCheck)
    {
      CartesianIsComplete(gkC, defC, midC, fwdC, g, d, m, f);
    }
  }

  /**
   * The shared iterators lose squads on whole tables: under 'budget', when the
   * top goalkeeper pair, defender five and midfielder five already exceed the
   * budget but some other choice of the four groups fits it, the search as
   * written fails while the intended one keeps a squad and goes on to build
   * the sheet of the best one it kept.
   */
  lemma SharedIteratorsMissAffordableSquad(predictions: seq<Prediction>, rowsToCheck: int,
                                           g: seq<Prediction>, d: seq<Prediction>, m: seq<Prediction>, f: seq<Prediction>)
    requires forall p | p in predictions :: p.value >= 0
    requires |Pool(predictions, "GK", rowsToCheck)| >= 2 && |Pool(predictions, "DEF", rowsToCheck)| >= 5
    requires |Pool(predictions, "MID", rowsToCheck)| >= 5
    requires TotalValue(Pool(predictions, "GK", rowsToCheck)[..2] + Pool(predictions, "DEF", rowsToCheck)[..5] +
                        Pool(predictions, "MID", rowsToCheck)[..5]) > BudgetLimit
    requires FromGroups(predictions, rowsToCheck, g, d, m, f) && AdmitsComb(Budget, MakeTeamComb(g, d, m, f))
    ensures BestSquad("budget", predictions, rowsToCheck) == Failure(NoTeamCombinations)
    ensures Retained(Budget, IntendedCandidates(predictions, rowsToCheck)) != []
    ensures IntendedBestSquad("budget", predictions, rowsToCheck) ==
            StartingSheet(Squad(ChosenComb(Budget, IntendedCandidates(predictions, rowsToCheck))))
  {
    AsWrittenBudgetNeedsTopGroupsAffordable(predictions, rowsToCheck);
    var gkC, defC := GroupCombinations(predictions, 0, rowsToCheck), GroupCombinations(predictions, 1, rowsToCheck);
    var midC, fwdC := GroupCombinations(predictions, 2, rowsToCheck), GroupCombinations(predictions, 3, rowsToCheck);
    CartesianIsComplete(gkC, defC, midC, fwdC, g, d, m, f);
    RetainedMembership(Budget, CartesianCombs(gkC, defC, midC, fwdC));
    assert MakeTeamComb(g, d, m, f) in Retained(Budget, IntendedCandidates(predictions, rowsToCheck));
  }

  /** With one group that has no combination there is no choice of the four groups. */
  lemma NoChoiceWithoutAGroup(gkC: seq<seq<Prediction>>, defC: seq<seq<Prediction>>,
                              midC: seq<seq<Prediction>>, fwdC: seq<seq<Prediction>>)
    requires gkC == [] || defC == [] || midC == [] || fwdC == []
    ensures CartesianCombs(gkC, defC, midC, fwdC) == [] && EnumeratedCombs(gkC, defC, midC, fwdC) == []
  {
    CartesianCount(gkC, defC, midC, fwdC);
    if gkC != [] && defC != [] && midC != [] {
      assert |fwdC| == 0;
      assert |CartesianCombs(gkC, defC, midC, fwdC)| == 0;
    } else if gkC != [] && defC != [] {
      assert |midC| == 0;
      assert |CartesianCombs(gkC, defC, midC, fwdC)| == 0;
    } else if gkC != [] {
      assert |defC| == 0;
      assert |CartesianCombs(gkC, defC, midC, fwdC)| == 0;
    }
  }

  /** A pool with fewer players than its group needs leaves both searches with nothing to keep. */
  lemma TooFewPlayersMeansNoSquad(c: Constraint, predictions: seq<Prediction>, rowsToCheck: int, k: nat)
    requires k < 4 && |Pool(predictions, GroupPositions[k], rowsToCheck)| < GroupSizes[k]
    ensures Retained(c, AsWrittenCandidates(predictions, rowsToCheck)) == []
    ensures Retained(c, IntendedCandidates(predictions, rowsToCheck)) == []
  {
    var gkC, defC := GroupCombinations(predictions, 0, rowsToCheck), GroupCombinations(predictions, 1, rowsToCheck);
    var midC, fwdC := GroupCombinations(predictions, 2, rowsToCheck), GroupCombinations(predictions, 3, rowsToCheck);
    GroupCombinationsShape(predictions, k, rowsToCheck);
    assert k == 0 ==> gkC == [];
    assert k == 1 ==> defC == [];
    assert k == 2 ==> midC == [];
    assert k == 3 ==> fwdC == [];
    NoChoiceWithoutAGroup(gkC, defC, midC, fwdC);
    assert Retained(c, []) == [];
  }
}
