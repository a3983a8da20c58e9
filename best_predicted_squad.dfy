/**
 * get_best_squad: choose the best 15-player squad (2 goalkeepers, 5 defenders,
 * 5 midfielders, 3 forwards) from the predictions table under a constraint,
 * then its best legal starting eleven, its bench and its captain flags.
 *
 * `BestSquad` states what the function computes; `GetBestSquad` follows the
 * source's loops and is proved equal to it. The four combination objects are
 * single-pass iterators shared by the nested loops, so the inner loops run to
 * exhaustion only once: `EnumeratedCombs` is what the loops really visit and
 * `CartesianCombs` what they were written to visit.
 */
module BestPredictedSquad {
  import opened Wrappers
  import opened Combinatorics
  import opened Predictions
  import opened DataCleaningFunctions

  /** The values of the constraint argument. */
  datatype Constraint = Budget | Team | All | Unconstrained

  /** The argument's spelling of each constraint. */
  function ConstraintName(c: Constraint): string {
    match c
    case Budget => "budget"
    case Team => "team"
    case All => "all"
    case Unconstrained => "none"
  }

  /** Whether the name is one of the four constraints the search accepts. */
  function ParseConstraint(s: string): (c: Option<Constraint>)
    ensures c.None? <==> s !in {"budget", "team", "all", "none"}
    ensures c.Some? ==> ConstraintName(c.value) == s
  {
    if s == "budget" then Some(Budget)
    else if s == "team" then Some(Team)
    else if s == "all" then Some(All)
    else if s == "none" then Some(Unconstrained)
    else None
  }

  /** The application budget, in tenths of a million. */
  const BudgetLimit := 1000

  /** At most this many players from one team. */
  const MaxPerTeam := 3

  /** No team supplies more than three of the players. */
  predicate WithinTeamCap(teams: seq<string>) {
    forall t | t in teams :: multiset(teams)[t] <= MaxPerTeam
  }

  /** The if/elif chain deciding whether a combination is appended. */
  predicate Admits(c: Constraint, value: int, teams: seq<string>) {
    match c
    case All => value <= BudgetLimit && WithinTeamCap(teams)
    case Team => WithinTeamCap(teams)
    case Budget => value <= BudgetLimit
    case Unconstrained => true
  }

  /** A team combination: its four groups, then its total value, predicted points and summed probabilities. */
  datatype TeamComb = TeamComb(gks: seq<Prediction>, defs: seq<Prediction>, mids: seq<Prediction>,
                               fwds: seq<Prediction>, value: int, points: int, probs: real)

  /** The 15 players of a combination, goalkeepers first. */
  function Squad(t: TeamComb): seq<Prediction> {
    t.gks + t.defs + t.mids + t.fwds
  }

  /** A combination with its totals, each the sum of the four groups' totals. */
  function MakeTeamComb(gks: seq<Prediction>, defs: seq<Prediction>, mids: seq<Prediction>, fwds: seq<Prediction>): (t: TeamComb)
    ensures Squad(t) == gks + defs + mids + fwds
  {
    var g, d, m, f := SumOfInformation(gks), SumOfInformation(defs), SumOfInformation(mids), SumOfInformation(fwds);
    TeamComb(gks, defs, mids, fwds, g.value + d.value + m.value + f.value,
             g.points + d.points + m.points + f.points, g.probs + d.probs + m.probs + f.probs)
  }

  /** The totals of a combination are the totals of its 15-player squad. */
  lemma MakeTeamCombTotals(gks: seq<Prediction>, defs: seq<Prediction>, mids: seq<Prediction>, fwds: seq<Prediction>)
    ensures var t := MakeTeamComb(gks, defs, mids, fwds);
            SumOfInformation(Squad(t)) == Information(t.value, t.points, t.probs,
              SumOfInformation(gks).teams + SumOfInformation(defs).teams +
              SumOfInformation(mids).teams + SumOfInformation(fwds).teams)
  {
    SumOfInformationConcat(gks, defs);
    SumOfInformationConcat(gks + defs, mids);
    SumOfInformationConcat(gks + defs + mids, fwds);
  }

  /** The loop body's sums of the four groups' totals are the combination and its squad's teams. */
  lemma CombFromGroupTotals(gks: seq<Prediction>, defs: seq<Prediction>, mids: seq<Prediction>, fwds: seq<Prediction>)
    ensures var g, d, m, f := SumOfInformation(gks), SumOfInformation(defs), SumOfInformation(mids), SumOfInformation(fwds);
            MakeTeamComb(gks, defs, mids, fwds) ==
              TeamComb(gks, defs, mids, fwds, g.value + d.value + m.value + f.value,
                       g.points + d.points + m.points + f.points, g.probs + d.probs + m.probs + f.probs) &&
            Teams(Squad(MakeTeamComb(gks, defs, mids, fwds))) == g.teams + d.teams + m.teams + f.teams
  {
    var t := MakeTeamComb(gks, defs, mids, fwds);
    MakeTeamCombTotals(gks, defs, mids, fwds);
    assert Teams(Squad(t)) == SumOfInformation(Squad(t)).teams;
  }

  /** Whether the constraint admits a combination: its value and the teams of its squad. */
  predicate AdmitsComb(c: Constraint, t: TeamComb) {
    Admits(c, t.value, Teams(Squad(t)))
  }

  /** The appended combinations, in the order they were visited. */
  function Retained(c: Constraint, combs: seq<TeamComb>): seq<TeamComb> {
    if combs == [] then []
    else
      var last := combs[|combs| - 1];
      Retained(c, combs[..|combs| - 1]) + (if AdmitsComb(c, last) then [last] else [])
  }

  /** Appending one visited combination appends it to the kept ones exactly when it is admitted. */
  lemma {:induction false} RetainedSnoc(c: Constraint, combs: seq<TeamComb>, t: TeamComb)
    ensures Retained(c, combs + [t]) == Retained(c, combs) + (if AdmitsComb(c, t) then [t] else [])
  {
    var all := combs + [t];
    assert all[..|all| - 1] == combs;
  }

  /** A kept combination was visited and is admitted; every admitted visited one is kept. */
  lemma {:induction false} RetainedMembership(c: Constraint, combs: seq<TeamComb>)
    ensures forall t | t in Retained(c, combs) :: t in combs && AdmitsComb(c, t)
    ensures forall t | t in combs && AdmitsComb(c, t) :: t in Retained(c, combs)
  {
    if combs != [] {
      var init, last := combs[..|combs| - 1], combs[|combs| - 1];
      assert combs == init + [last];
      RetainedMembership(c, init);
      RetainedSnoc(c, init, last);
    }
  }

  // ---------------------------------------------------------------------------
  // The candidate pools and what the nested loops visit

  /** The four entries of the positions dict, in insertion order. */
  const GroupPositions: seq<string> := ["GK", "DEF", "MID", "FWD"]
  const GroupSizes: seq<nat> := [2, 5, 5, 3]

  /** Every selection of group k's size from the best rows_to_check players of its position, in selection order. */
  function GroupCombinations(predictions: seq<Prediction>, k: nat, rowsToCheck: int): seq<seq<Prediction>>
    requires k < 4
  {
    Combinations(Pool(predictions, GroupPositions[k], rowsToCheck), GroupSizes[k])
  }

  /** One combination for each forward triple, with the other three groups fixed. */
  function WithForwards(gks: seq<Prediction>, defs: seq<Prediction>, mids: seq<Prediction>,
                        fwdC: seq<seq<Prediction>>): (r: seq<TeamComb>)
    ensures |r| == |fwdC|
    ensures forall i :: 0 <= i < |fwdC| ==> r[i] == MakeTeamComb(gks, defs, mids, fwdC[i])
  {
    seq(|fwdC|, i requires 0 <= i < |fwdC| => MakeTeamComb(gks, defs, mids, fwdC[i]))
  }

  /** The loop body's totals are those of the combination, and its `if` tests that combination. */
  lemma CombOfGroupTotals(c: Constraint, gks: seq<Prediction>, gInfo: Information, defs: seq<Prediction>,
                          dInfo: Information, mids: seq<Prediction>, mInfo: Information,
                          fwds: seq<Prediction>, fInfo: Information, comb: TeamComb, allTeams: seq<string>)
    requires gInfo == SumOfInformation(gks) && dInfo == SumOfInformation(defs) && mInfo == SumOfInformation(mids)
    requires fInfo == SumOfInformation(fwds)
    requires comb == TeamComb(gks, defs, mids, fwds, gInfo.value + dInfo.value + mInfo.value + fInfo.value,
                              gInfo.points + dInfo.points + mInfo.points + fInfo.points,
                              gInfo.probs + dInfo.probs + mInfo.probs + fInfo.probs)
    requires allTeams == gInfo.teams + dInfo.teams + mInfo.teams + fInfo.teams
    ensures comb == MakeTeamComb(gks, defs, mids, fwds)
    ensures AdmitsComb(c, comb) == Admits(c, comb.value, allTeams)
  {
    CombFromGroupTotals(gks, defs, mids, fwds);
  }

  /** One pass of the forward loop keeps the next combination exactly when the constraint admits it. */
  lemma {:induction false} ForwardStep(c: Constraint, gks: seq<Prediction>, defs: seq<Prediction>, mids: seq<Prediction>,
                                       fwdC: seq<seq<Prediction>>, f: nat, comb: TeamComb)
    requires f < |fwdC| && comb == MakeTeamComb(gks, defs, mids, fwdC[f])
    ensures AdmitsComb(c, comb) ==>
            Retained(c, WithForwards(gks, defs, mids, fwdC[..f + 1])) == Retained(c, WithForwards(gks, defs, mids, fwdC[..f])) + [comb]
    ensures !AdmitsComb(c, comb) ==>
            Retained(c, WithForwards(gks, defs, mids, fwdC[..f + 1])) == Retained(c, WithForwards(gks, defs, mids, fwdC[..f]))
  {
    WithForwardsSnoc(gks, defs, mids, fwdC, f);
    RetainedSnoc(c, WithForwards(gks, defs, mids, fwdC[..f]), comb);
  }

  lemma {:induction false} WithForwardsSnoc(gks: seq<Prediction>, defs: seq<Prediction>, mids: seq<Prediction>,
                                           fwdC: seq<seq<Prediction>>, f: nat)
    requires f < |fwdC|
    ensures WithForwards(gks, defs, mids, fwdC[..f + 1]) == WithForwards(gks, defs, mids, fwdC[..f]) + [MakeTeamComb(gks, defs, mids, fwdC[f])]
  {
    var longer, shorter := WithForwards(gks, defs, mids, fwdC[..f + 1]), WithForwards(gks, defs, mids, fwdC[..f]);
    assert forall i :: 0 <= i < f ==> longer[i] == shorter[i];
  }

  /**
   * What the nested loops visit: the first goalkeeper pair, defender five and
   * midfielder five with every forward triple; nothing when one of those three
   * iterators is empty. Every later pass finds an inner iterator exhausted.
   */
  function EnumeratedCombs(gkC: seq<seq<Prediction>>, defC: seq<seq<Prediction>>,
                           midC: seq<seq<Prediction>>, fwdC: seq<seq<Prediction>>): seq<TeamComb>
  {
    if gkC == [] || defC == [] || midC == [] then []
    else WithForwards(gkC[0], defC[0], midC[0], fwdC)
  }

  function WithMidfielders(gks: seq<Prediction>, defs: seq<Prediction>,
                           midC: seq<seq<Prediction>>, fwdC: seq<seq<Prediction>>): seq<TeamComb>
  {
    if midC == [] then [] else WithForwards(gks, defs, midC[0], fwdC) + WithMidfielders(gks, defs, midC[1..], fwdC)
  }

  function WithDefenders(gks: seq<Prediction>, defC: seq<seq<Prediction>>,
                         midC: seq<seq<Prediction>>, fwdC: seq<seq<Prediction>>): seq<TeamComb>
  {
    if defC == [] then [] else WithMidfielders(gks, defC[0], midC, fwdC) + WithDefenders(gks, defC[1..], midC, fwdC)
  }

  /** What four nested loops over re-startable sequences visit: every choice of the four groups. */
  function CartesianCombs(gkC: seq<seq<Prediction>>, defC: seq<seq<Prediction>>,
                          midC: seq<seq<Prediction>>, fwdC: seq<seq<Prediction>>): seq<TeamComb>
  {
    if gkC == [] then [] else WithDefenders(gkC[0], defC, midC, fwdC) + CartesianCombs(gkC[1..], defC, midC, fwdC)
  }

  function AsWrittenCandidates(predictions: seq<Prediction>, rowsToCheck: int): seq<TeamComb> {
    EnumeratedCombs(GroupCombinations(predictions, 0, rowsToCheck), GroupCombinations(predictions, 1, rowsToCheck),
                    GroupCombinations(predictions, 2, rowsToCheck), GroupCombinations(predictions, 3, rowsToCheck))
  }

  function IntendedCandidates(predictions: seq<Prediction>, rowsToCheck: int): seq<TeamComb> {
    CartesianCombs(GroupCombinations(predictions, 0, rowsToCheck), GroupCombinations(predictions, 1, rowsToCheck),
                   GroupCombinations(predictions, 2, rowsToCheck), GroupCombinations(predictions, 3, rowsToCheck))
  }

  // ---------------------------------------------------------------------------
  // Choosing the best: a stable descending sort's first element

  /** The (points, probabilities) sort key. */
  datatype Score = Score(points: int, probs: real)

  /** Python's tuple order, strictly. */
  predicate Beats(a: Score, b: Score) {
    a.points > b.points || (a.points == b.points && a.probs > b.probs)
  }

  /** The index of the first element of a stable descending sort: a maximal score, earliest among equals. */
  function FirstBest(scores: seq<Score>): (i: nat)
    requires scores != []
    ensures i < |scores|
    ensures forall j :: 0 <= j < |scores| ==> !Beats(scores[j], scores[i])
    ensures forall j :: 0 <= j < i ==> Beats(scores[i], scores[j])
  {
    if |scores| == 1 then 0
    else
      var k := FirstBest(scores[..|scores| - 1]);
      assert forall j :: 0 <= j < |scores| - 1 ==> scores[..|scores| - 1][j] == scores[j];
      if Beats(scores[|scores| - 1], scores[k]) then |scores| - 1 else k
  }

  function CombScore(t: TeamComb): Score {
    Score(t.points, t.probs)
  }

  function CombScores(combs: seq<TeamComb>): (r: seq<Score>)
    ensures |r| == |combs| && forall i :: 0 <= i < |combs| ==> r[i] == CombScore(combs[i])
  {
    seq(|combs|, i requires 0 <= i < |combs| => CombScore(combs[i]))
  }

  // ---------------------------------------------------------------------------
  // The starting eleven, the bench and the captain

  /** Exactly one goalkeeper, at least three defenders, three midfielders and one forward. */
  predicate LegalFormation(team: seq<Prediction>) {
    CountPosition(team, "GK") == 1 && CountPosition(team, "DEF") >= 3 &&
    CountPosition(team, "MID") >= 3 && CountPosition(team, "FWD") >= 1
  }

  /** The legal selections among `teams`, in order. */
  function KeepLegal(teams: seq<seq<Prediction>>): (r: seq<seq<Prediction>>)
    ensures forall t | t in r :: t in teams && LegalFormation(t)
    ensures forall t | t in teams && LegalFormation(t) :: t in r
  {
    if teams == [] then []
    else
      var init := teams[..|teams| - 1];
      assert teams == init + [teams[|teams| - 1]];
      KeepLegal(init) + (if LegalFormation(teams[|teams| - 1]) then [teams[|teams| - 1]] else [])
  }

  /** possible_starting_11s */
  function LegalElevens(squad: seq<Prediction>): seq<seq<Prediction>> {
    KeepLegal(Combinations(squad, 11))
  }

  function ElevenScore(team: seq<Prediction>): Score {
    Score(SumOfInformation(team).points, SumOfInformation(team).probs)
  }

  function ElevenScores(teams: seq<seq<Prediction>>): (r: seq<Score>)
    ensures |r| == |teams| && forall i :: 0 <= i < |teams| ==> r[i] == ElevenScore(teams[i])
  {
    seq(|teams|, i requires 0 <= i < |teams| => ElevenScore(teams[i]))
  }

  /** The largest prob_3 among the eleven. */
  function MaxProb3(team: seq<Prediction>): (m: real)
    requires team != []
    ensures exists i :: 0 <= i < |team| && team[i].prob3 == m
    ensures forall i :: 0 <= i < |team| ==> team[i].prob3 <= m
  {
    if |team| == 1 then team[0].prob3
    else
      var rest := MaxProb3(team[1..]);
      assert forall i :: 1 <= i < |team| ==> team[i] == team[1..][i - 1];
      if team[0].prob3 >= rest then team[0].prob3 else rest
  }

  /** A row of the squad sheet: the player's row indexed by its label, and the captain flag (1 or 0). */
  datatype SquadRow = SquadRow(row: Prediction, captain: int)

  /** The rows in sheet order: the eleven as chosen, the bench goalkeeper, the outfield bench by rank. */
  function SheetRows(eleven: seq<Prediction>, subs: seq<Prediction>): (rows: seq<Prediction>)
    requires |subs| == 4
    ensures |rows| == |eleven| + 4
  {
    var outSubs := SortByRank(subs[1..]);
    eleven + [subs[0].(position := "SubGK")] +
    [outSubs[0].(position := "Sub1"), outSubs[1].(position := "Sub2"), outSubs[2].(position := "Sub3")]
  }

  /** fpl_squad with its captain column: 1 where prob_3 equals the eleven's largest prob_3. */
  function SquadSheet(eleven: seq<Prediction>, subs: seq<Prediction>): (sheet: seq<SquadRow>)
    requires |subs| == 4 && eleven != []
    ensures |sheet| == |eleven| + 4
    ensures forall i :: 0 <= i < |sheet| ==> sheet[i].row == SheetRows(eleven, subs)[i]
    ensures forall i :: 0 <= i < |sheet| ==>
              sheet[i].captain == if sheet[i].row.prob3 == MaxProb3(eleven) then 1 else 0
  {
    var rows := SheetRows(eleven, subs);
    var top := MaxProb3(eleven);
    seq(|rows|, i requires 0 <= i < |rows| => SquadRow(rows[i], if rows[i].prob3 == top then 1 else 0))
  }

  /** Where get_best_squad stops without writing a squad. */
  datatype SquadError =
    | InvalidConstraint      // the ValueError of the constraint check
    | NoTeamCombinations     // the message printed when no combination is admitted
    | NoLegalStartingEleven  // the pandas error on an empty table of elevens
    | BenchSizeMismatch      // the pandas error when the bench is not four rows

  /** best_starting_11: the first legal eleven of highest (points, probabilities). */
  function ChosenEleven(squad: seq<Prediction>): seq<Prediction>
    requires LegalElevens(squad) != []
  {
    var elevens := LegalElevens(squad);
    elevens[FirstBest(ElevenScores(elevens))]
  }

  /** From the chosen squad on: best legal eleven, bench, sheet. */
  function StartingSheet(squad: seq<Prediction>): Result<seq<SquadRow>, SquadError> {
    if LegalElevens(squad) == [] then Failure(NoLegalStartingEleven)
    else
      var eleven := ChosenEleven(squad);
      var subs := DifferenceBetweenLists(eleven, squad);
      if |subs| != 4 then Failure(BenchSizeMismatch)
      else
        assert eleven in Combinations(squad, 11);
        Success(SquadSheet(eleven, subs))
  }

  /** The chosen combination: the first admitted one of highest (points, probabilities). */
  function ChosenComb(c: Constraint, candidates: seq<TeamComb>): TeamComb
    requires Retained(c, candidates) != []
  {
    var kept := Retained(c, candidates);
    kept[FirstBest(CombScores(kept))]
  }

  /** The admitted candidates, the best of them, and its sheet. */
  function SelectSquad(c: Constraint, candidates: seq<TeamComb>): Result<seq<SquadRow>, SquadError> {
    if Retained(c, candidates) == [] then Failure(NoTeamCombinations)
    else StartingSheet(Squad(ChosenComb(c, candidates)))
  }

  /** The squad search on a predictions table, as the code is written. */
  function BestSquad(constraint: string, predictions: seq<Prediction>, rowsToCheck: int): Result<seq<SquadRow>, SquadError> {
    match ParseConstraint(constraint)
    case None => Failure(InvalidConstraint)
    case Some(c) => SelectSquad(c, AsWrittenCandidates(predictions, rowsToCheck))
  }

  /** The same search over every combination of the four groups, as the nested loops intend. */
  function IntendedBestSquad(constraint: string, predictions: seq<Prediction>, rowsToCheck: int): Result<seq<SquadRow>, SquadError> {
    match ParseConstraint(constraint)
    case None => Failure(InvalidConstraint)
    case Some(c) => SelectSquad(c, IntendedCandidates(predictions, rowsToCheck))
  }

  // ---------------------------------------------------------------------------
  // The source's loops

  /**
   * The forward loop for one goalkeeper pair, defender five and midfielder
   * five: it drains the forward iterator, appending each admitted combination.
   */
  method ForwardLoop(c: Constraint, gks: seq<Prediction>, gInfo: Information, defs: seq<Prediction>, dInfo: Information,
                     mids: seq<Prediction>, mInfo: Information, fwdIt: seq<seq<Prediction>>)
    returns (appended: seq<TeamComb>)
    requires gInfo == SumOfInformation(gks) && dInfo == SumOfInformation(defs) && mInfo == SumOfInformation(mids)
    ensures appended == Retained(c, WithForwards(gks, defs, mids, fwdIt))
  {
    appended := [];
    var f := 0;
    while f < |fwdIt|
      invariant 0 <= f <= |fwdIt|
      invariant appended == Retained(c, WithForwards(gks, defs, mids, fwdIt[..f]))
    {
      var fwds := fwdIt[f];
      var fInfo := SumOfInformation(fwds);
      var teamValue := gInfo.value + dInfo.value + mInfo.value + fInfo.value;
      var teamPoints := gInfo.points + dInfo.points + mInfo.points + fInfo.points;
      var teamProbs := gInfo.probs + dInfo.probs + mInfo.probs + fInfo.probs;
      var allTeams := gInfo.teams + dInfo.teams + mInfo.teams + fInfo.teams;
      var comb := TeamComb(gks, defs, mids, fwds, teamValue, teamPoints, teamProbs);
      CombOfGroupTotals(c, gks, gInfo, defs, dInfo, mids, mInfo, fwds, fInfo, comb, allTeams);
      ForwardStep(c, gks, defs, mids, fwdIt, f, comb);
      if Admits(c, teamValue, allTeams) {
        appended := appended + [comb];
      }
      f := f + 1;
    }
    assert fwdIt[..f] == fwdIt;
  }

  /**
   * The midfielder loop; `fwdOut` is what is left of the forward iterator. Only
   * the first midfielder five meets a fresh forward iterator.
   */
  method MidfielderLoop(c: Constraint, gks: seq<Prediction>, gInfo: Information, defs: seq<Prediction>, dInfo: Information,
                        midIt: seq<seq<Prediction>>, fwdIt: seq<seq<Prediction>>)
    returns (appended: seq<TeamComb>, fwdOut: seq<seq<Prediction>>)
    requires gInfo == SumOfInformation(gks) && dInfo == SumOfInformation(defs)
    ensures appended == if midIt == [] then [] else Retained(c, WithForwards(gks, defs, midIt[0], fwdIt))
    ensures fwdOut == if midIt == [] then fwdIt else []
  {
    appended, fwdOut := [], fwdIt;
    var m := 0;
    while m < |midIt|
      invariant 0 <= m <= |midIt|
      invariant m == 0 ==> appended == [] && fwdOut == fwdIt
      invariant m > 0 ==> appended == Retained(c, WithForwards(gks, defs, midIt[0], fwdIt)) && fwdOut == []
    {
      var mids := midIt[m];
      var mInfo := SumOfInformation(mids);
      var found := ForwardLoop(c, gks, gInfo, defs, dInfo, mids, mInfo, fwdOut);
      if m > 0 {
        assert found == [] by { assert WithForwards(gks, defs, mids, fwdOut) == []; }
      }
      appended := appended + found;
      fwdOut := [];
      m := m + 1;
    }
  }

  /** The defender loop; only the first defender five meets a fresh midfielder iterator. */
  method DefenderLoop(c: Constraint, gks: seq<Prediction>, gInfo: Information,
                      defIt: seq<seq<Prediction>>, midIt: seq<seq<Prediction>>, fwdIt: seq<seq<Prediction>>)
    returns (appended: seq<TeamComb>, midOut: seq<seq<Prediction>>, fwdOut: seq<seq<Prediction>>)
    requires gInfo == SumOfInformation(gks)
    ensures appended == if defIt == [] || midIt == [] then [] else Retained(c, WithForwards(gks, defIt[0], midIt[0], fwdIt))
    ensures midOut == if defIt == [] then midIt else []
    ensures fwdOut == if defIt == [] || midIt == [] then fwdIt else []
  {
    appended, midOut, fwdOut := [], midIt, fwdIt;
    var d := 0;
    while d < |defIt|
      invariant 0 <= d <= |defIt|
      invariant d == 0 ==> appended == [] && midOut == midIt && fwdOut == fwdIt
      invariant d > 0 ==> midOut == [] && fwdOut == (if midIt == [] then fwdIt else [])
      invariant d > 0 ==> appended == if midIt == [] then [] else Retained(c, WithForwards(gks, defIt[0], midIt[0], fwdIt))
    {
      var defs := defIt[d];
      var dInfo := SumOfInformation(defs);
      var found;
      found, fwdOut := MidfielderLoop(c, gks, gInfo, defs, dInfo, midOut, fwdOut);
      appended := appended + found;
      midOut := [];
      d := d + 1;
    }
  }

  /** Lines building team_combs: the goalkeeper loop around the three inner loops. */
  method EnumerateTeamCombs(c: Constraint, gkIt: seq<seq<Prediction>>, defIt: seq<seq<Prediction>>,
                            midIt: seq<seq<Prediction>>, fwdIt: seq<seq<Prediction>>)
    returns (teamCombs: seq<TeamComb>)
    ensures teamCombs == Retained(c, EnumeratedCombs(gkIt, defIt, midIt, fwdIt))
  {
    teamCombs := [];
    var defRest, midRest, fwdRest := defIt, midIt, fwdIt;
    var g := 0;
    ghost var target := Retained(c, EnumeratedCombs(gkIt, defIt, midIt, fwdIt));
    while g < |gkIt|
      invariant 0 <= g <= |gkIt|
      invariant g == 0 ==> teamCombs == [] && defRest == defIt && midRest == midIt && fwdRest == fwdIt
      invariant g > 0 ==> defRest == [] && teamCombs == target
    {
      var gks := gkIt[g];
      var gInfo := SumOfInformation(gks);
      ghost var midBefore, fwdBefore := midRest, fwdRest;
      var found;
      found, midRest, fwdRest := DefenderLoop(c, gks, gInfo, defRest, midRest, fwdRest);
      if g == 0 {
        assert gks == gkIt[0] && defRest == defIt && midBefore == midIt && fwdBefore == fwdIt;
        assert found == target by {
          if defIt == [] || midIt == [] {
            assert EnumeratedCombs(gkIt, defIt, midIt, fwdIt) == [];
            assert Retained(c, []) == [];
          }
        }
        assert teamCombs + found == found;
      } else {
        assert found == [];
        assert teamCombs + found == teamCombs;
      }
      teamCombs := teamCombs + found;
      defRest := [];
      g := g + 1;
    }
  }

  /** The squad of a combination: its four groups concatenated, goalkeepers first. */
  method SquadOf(best: TeamComb) returns (squad: seq<Prediction>)
    ensures squad == Squad(best)
  {
    var groups := [best.gks, best.defs, best.mids, best.fwds];
    squad := [];
    var i := 0;
    while i < 4
      invariant 0 <= i <= 4
      invariant squad == if i == 0 then [] else if i == 1 then best.gks
                         else if i == 2 then best.gks + best.defs
                         else if i == 3 then best.gks + best.defs + best.mids
                         else Squad(best)
    {
      squad := squad + groups[i];
      i := i + 1;
    }
  }

  /** The loop filtering combinations(best_squad, 11) by formation. */
  method StartingElevens(squad: seq<Prediction>) returns (elevens: seq<seq<Prediction>>)
    ensures elevens == LegalElevens(squad)
  {
    var all := Combinations(squad, 11);
    elevens := [];
    var i := 0;
    while i < |all|
      invariant 0 <= i <= |all|
      invariant elevens == KeepLegal(all[..i])
    {
      var team := all[i];
      assert all[..i + 1] == all[..i] + [team];
      assert (all[..i] + [team])[..i] == all[..i];
      if CountPosition(team, "GK") == 1 {
        if CountPosition(team, "DEF") >= 3 {
          if CountPosition(team, "MID") >= 3 {
            if CountPosition(team, "FWD") >= 1 {
              elevens := elevens + [team];
            }
          }
        }
      }
      i := i + 1;
    }
    assert all[..i] == all;
  }

  /** possible_starting_11s_stats */
  method ElevenStats(elevens: seq<seq<Prediction>>) returns (stats: seq<Score>)
    ensures stats == ElevenScores(elevens)
  {
    stats := [];
    var i := 0;
    while i < |elevens|
      invariant 0 <= i <= |elevens| && |stats| == i
      invariant forall j :: 0 <= j < i ==> stats[j] == ElevenScore(elevens[j])
    {
      var info := SumOfInformation(elevens[i]);
      stats := stats + [Score(info.points, info.probs)];
      i := i + 1;
    }
  }

  /** The loop over the positions dict that replaces each entry by its combination iterator. */
  method CombinationIterators(predictions: seq<Prediction>, rowsToCheck: int)
    returns (iterators: seq<seq<seq<Prediction>>>)
    ensures |iterators| == 4
    ensures forall j :: 0 <= j < 4 ==> iterators[j] == GroupCombinations(predictions, j, rowsToCheck)
  {
    iterators := [];
    var k := 0;
    while k < 4
      invariant 0 <= k <= 4 && |iterators| == k
      invariant forall j :: 0 <= j < k ==> iterators[j] == GroupCombinations(predictions, j, rowsToCheck)
    {
      var players := OfPosition(predictions, GroupPositions[k]);
      var ranked := SliceTo(SortByRank(players), rowsToCheck);
      var combs := Combinations(ranked, GroupSizes[k]);
      assert combs == GroupCombinations(predictions, k, rowsToCheck);
      iterators := iterators + [combs];
      k := k + 1;
    }
  }

  /** From best_squad to the finished sheet. */
  method PickStartingEleven(squad: seq<Prediction>) returns (r: Result<seq<SquadRow>, SquadError>)
    ensures r == StartingSheet(squad)
  {
    var elevens := StartingElevens(squad);
    if elevens == [] {
      return Failure(NoLegalStartingEleven);
    }
    var stats := ElevenStats(elevens);
    var eleven := elevens[FirstBest(stats)];
    var subs := DifferenceBetweenLists(eleven, squad);
    if |subs| != 4 {
      return Failure(BenchSizeMismatch);
    }
    assert eleven in Combinations(squad, 11);
    return Success(SquadSheet(eleven, subs));
  }

  /** get_best_squad on a predictions table; the file reads and writes are left to the caller. */
  method GetBestSquad(constraint: string, predictions: seq<Prediction>, rowsToCheck: int)
    returns (r: Result<seq<SquadRow>, SquadError>)
    ensures r == BestSquad(constraint, predictions, rowsToCheck)
  {
    var parsed := ParseConstraint(constraint);
    if parsed.None? {
      return Failure(InvalidConstraint);
    }
    var c := parsed.value;
    var iterators := CombinationIterators(predictions, rowsToCheck);
    var teamCombs := EnumerateTeamCombs(c, iterators[0], iterators[1], iterators[2], iterators[3]);
    if teamCombs == [] {
      return Failure(NoTeamCombinations);
    }
    var best := teamCombs[FirstBest(CombScores(teamCombs))];
    var squad := SquadOf(best);
    r := PickStartingEleven(squad);
  }
}
