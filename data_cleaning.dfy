/**
 * The row-level helpers of the cleaning pipeline. A column that the
 * pipeline computes row by row and assigns to the frame is a pure column
 * function here (what each row gets) plus a method of the frame class that
 * assigns the field. Whole-frame filters and the bucketing rule are functions.
 */
module DataCleaningFunctions {
  import opened Wrappers
  import opened Combinatorics
  import opened Predictions

  /** A cell of a column whose type pandas decides at run time; NaN is a missing value. */
  datatype Value = Num(n: int) | Float(r: real) | Text(s: string) | NaN

  /** The Python exceptions the helpers can raise. */
  datatype PyError = KeyError | IndexError | ValueError

  // ---------------------------------------------------------------------------
  // sum_of_information and difference_between_lists (used by the squad selector)

  function TotalValue(players: seq<Prediction>): int {
    if players == [] then 0 else players[0].value + TotalValue(players[1..])
  }

  function TotalPoints(players: seq<Prediction>): int {
    if players == [] then 0 else players[0].predictedPointRange + TotalPoints(players[1..])
  }

  function TotalProb3(players: seq<Prediction>): real {
    if players == [] then 0.0 else players[0].prob3 + TotalProb3(players[1..])
  }

  /** The plays_for column (field 3) of the players, one entry per player, in order. */
  function Teams(players: seq<Prediction>): (r: seq<string>)
    ensures |r| == |players|
    ensures forall i :: 0 <= i < |players| ==> r[i] == players[i].playsFor
  {
    seq(|players|, i requires 0 <= i < |players| => players[i].playsFor)
  }

  /** (sum of values, sum of predicted points, sum of prob_3, list of teams). */
  datatype Information = Information(value: int, points: int, probs: real, teams: seq<string>)

  function SumOfInformation(players: seq<Prediction>): (info: Information)
    ensures |info.teams| == |players|
    ensures forall i :: 0 <= i < |players| ==> info.teams[i] == players[i].playsFor
  {
    Information(TotalValue(players), TotalPoints(players), TotalProb3(players), Teams(players))
  }

  /** The totals of a concatenation are the sums of the parts' totals, and the teams concatenate. */
  lemma {:induction false} SumOfInformationConcat(a: seq<Prediction>, b: seq<Prediction>)
    ensures SumOfInformation(a + b) ==
            Information(SumOfInformation(a).value + SumOfInformation(b).value,
                        SumOfInformation(a).points + SumOfInformation(b).points,
                        SumOfInformation(a).probs + SumOfInformation(b).probs,
                        SumOfInformation(a).teams + SumOfInformation(b).teams)
  {
    if a != [] {
      assert (a + b)[1..] == a[1..] + b;
      SumOfInformationConcat(a[1..], b);
    } else {
      assert a + b == b;
    }
  }

  /** The elements of `xs` that are missing from `l1` or from `l2`, in order. */
  function NotInBoth<T(==)>(xs: seq<T>, l1: seq<T>, l2: seq<T>): (r: seq<T>)
    ensures forall x | x in r :: x in xs && (x !in l1 || x !in l2)
    ensures forall x | x in xs && (x !in l1 || x !in l2) :: x in r
  {
    if xs == [] then []
    else (if xs[0] !in l1 || xs[0] !in l2 then [xs[0]] else []) + NotInBoth(xs[1..], l1, l2)
  }

  /** The elements of list1 followed by list2 that are missing from at least one of the two lists, in order. */
  function DifferenceBetweenLists<T(==)>(l1: seq<T>, l2: seq<T>): (r: seq<T>)
    ensures forall x | x in r :: (x in l1 && x !in l2) || (x in l2 && x !in l1)
    ensures forall x | x in l1 && x !in l2 :: x in r
    ensures forall x | x in l2 && x !in l1 :: x in r
  {
    NotInBoth(l1 + l2, l1, l2)
  }

  /** The elements of `xs` that `l` lacks, in order. */
  function Outside<T(==)>(xs: seq<T>, l: seq<T>): seq<T> {
    if xs == [] then [] else (if xs[0] !in l then [xs[0]] else []) + Outside(xs[1..], l)
  }

  lemma {:induction false} NotInBothOfContained<T>(xs: seq<T>, l1: seq<T>, l2: seq<T>)
    requires forall x | x in xs :: x in l2
    ensures NotInBoth(xs, l1, l2) == Outside(xs, l1)
  {
    if xs != [] {
      NotInBothOfContained(xs[1..], l1, l2);
    }
  }

  /** When every element of `l1` is in `l2`: the elements of `l2` outside `l1`, in the order of `l2`. */
  lemma DifferenceOfSublist<T>(l1: seq<T>, l2: seq<T>)
    requires forall x | x in l1 :: x in l2
    ensures DifferenceBetweenLists(l1, l2) == Outside(l2, l1)
  {
    NotInBothConcat(l1, l2, l1, l2);
    NotInBothOfContained(l1, l1, l2);
    OutsideOfItself(l1);
    NotInBothOfContained(l2, l1, l2);
  }

  lemma {:induction false} OutsideOfItself<T>(l: seq<T>)
    ensures Outside(l, l) == []
  {
    OutsideOfContained(l, l);
  }

  lemma {:induction false} OutsideOfContained<T>(xs: seq<T>, l: seq<T>)
    requires forall x | x in xs :: x in l
    ensures Outside(xs, l) == []
  {
    if xs != [] {
      OutsideOfContained(xs[1..], l);
    }
  }

  lemma {:induction false} NotInBothConcat<T>(a: seq<T>, b: seq<T>, l1: seq<T>, l2: seq<T>)
    ensures NotInBoth(a + b, l1, l2) == NotInBoth(a, l1, l2) + NotInBoth(b, l1, l2)
  {
    if a == [] {
      assert a + b == b;
    } else {
      assert (a + b)[1..] == a[1..] + b;
      NotInBothConcat(a[1..], b, l1, l2);
    }
  }

  /** In a sequence without repetitions, taking away a masked selection leaves the complementary selection. */
  lemma {:induction false} OutsideOfChoice<T>(s: seq<T>, mask: seq<bool>, l: seq<T>)
    requires |mask| == |s|
    requires forall i :: 0 <= i < |s| ==> (s[i] in l <==> mask[i])
    ensures Outside(s, l) == Choose(s, Complement(mask))
  {
    if s != [] {
      assert Complement(mask)[1..] == Complement(mask[1..]);
      OutsideOfChoice(s[1..], mask[1..], l);
    }
  }

  // ---------------------------------------------------------------------------
  // minutes_played and adjust_points

  /** Which rows the filter on positive minutes keeps. */
  function PlayedMask(minutes: seq<int>): (m: seq<bool>)
    ensures |m| == |minutes|
  {
    seq(|minutes|, i requires 0 <= i < |minutes| => minutes[i] > 0)
  }

  /** One column of the frame cut down to the rows with positive minutes. */
  function MinutesPlayed<T>(minutes: seq<int>, column: seq<T>): seq<T>
    requires |column| == |minutes|
  {
    Choose(column, PlayedMask(minutes))
  }

  function CountPlayed(minutes: seq<int>): nat {
    if minutes == [] then 0 else (if minutes[0] > 0 then 1 else 0) + CountPlayed(minutes[1..])
  }

  /** The filter keeps exactly the rows with minutes played, in order. */
  lemma {:induction false} MinutesPlayedKeepsPlayers(minutes: seq<int>)
    ensures forall m | m in MinutesPlayed(minutes, minutes) :: m > 0
    ensures |MinutesPlayed(minutes, minutes)| == CountPlayed(minutes)
  {
    if minutes != [] {
      assert PlayedMask(minutes)[1..] == PlayedMask(minutes[1..]);
      MinutesPlayedKeepsPlayers(minutes[1..]);
    }
  }

  /**
   * The same filter on any column of the frame: the row at position i with
   * positive minutes lands at the position counting the played rows before it,
   * so the kept rows are the played rows of the column, in order.
   */
  lemma {:induction false} MinutesPlayedKeepsRows<T>(minutes: seq<int>, column: seq<T>)
    requires |column| == |minutes|
    ensures |MinutesPlayed(minutes, column)| == CountPlayed(minutes)
    ensures forall i :: 0 <= i < |minutes| && minutes[i] > 0 ==>
              CountPlayed(minutes[..i]) < |MinutesPlayed(minutes, column)| &&
              MinutesPlayed(minutes, column)[CountPlayed(minutes[..i])] == column[i]
  {
    if minutes != [] {
      assert PlayedMask(minutes)[1..] == PlayedMask(minutes[1..]);
      MinutesPlayedKeepsRows(minutes[1..], column[1..]);
      var rest := MinutesPlayed(minutes[1..], column[1..]);
      assert MinutesPlayed(minutes, column) == (if minutes[0] > 0 then [column[0]] else []) + rest;
      forall i | 0 < i < |minutes| && minutes[i] > 0
        ensures CountPlayed(minutes[..i]) == (if minutes[0] > 0 then 1 else 0) + CountPlayed(minutes[1..][..i - 1])
        ensures minutes[1..][i - 1] == minutes[i] && column[1..][i - 1] == column[i]
      {
        assert minutes[..i][1..] == minutes[1..][..i - 1];
      }
      assert minutes[..0] == [];
    }
  }

  /** The FPL appearance award: 1 point for under 60 minutes, 2 for 60 or more, none without playing. */
  function AppearancePoints(minutes: int): int {
    if minutes <= 0 then 0 else if minutes < 60 then 1 else 2
  }

  /** Each row's total points less one when it played under 60 minutes, less two otherwise. */
  function AdjustedPoints(minutes: seq<int>, totalPoints: seq<int>): (r: seq<int>)
    requires |minutes| == |totalPoints|
    ensures |r| == |minutes|
    ensures forall i :: 0 <= i < |r| && minutes[i] > 0 ==> r[i] == totalPoints[i] - AppearancePoints(minutes[i])
    ensures forall i :: 0 <= i < |r| && minutes[i] <= 0 ==> r[i] == totalPoints[i] - 1
  {
    seq(|minutes|, i requires 0 <= i < |minutes| =>
      if minutes[i] < 60 then totalPoints[i] - 1 else totalPoints[i] - 2)
  }

  /** After minutes_played, adjust_points removes exactly the appearance award from every row. */
  lemma AdjustedAfterMinutesPlayed(minutes: seq<int>, totalPoints: seq<int>)
    requires |minutes| == |totalPoints|
    ensures var m := MinutesPlayed(minutes, minutes);
            var p := MinutesPlayed(minutes, totalPoints);
            forall i :: 0 <= i < |m| ==> AdjustedPoints(m, p)[i] + AppearancePoints(m[i]) == p[i]
  {
    MinutesPlayedKeepsPlayers(minutes);
    var m := MinutesPlayed(minutes, minutes);
    forall i | 0 <= i < |m| ensures m[i] > 0 {
      assert m[i] in m;
    }
  }

  // ---------------------------------------------------------------------------
  // won_the_game

  /** The side letter of each row: H for a home game, A for an away game. */
  function HomeAway(wasHome: seq<bool>): (r: seq<string>)
    ensures |r| == |wasHome|
    ensures forall i :: 0 <= i < |r| ==> (r[i] == "H" <==> wasHome[i]) && (r[i] == "A" <==> !wasHome[i])
  {
    seq(|wasHome|, i requires 0 <= i < |wasHome| => if wasHome[i] then "H" else "A")
  }

  /** One row's result: 0 on a draw, 1 when the full-time result names the row's side, -1 otherwise. */
  function WonFlag(side: string, ftr: string): int {
    if ftr == "D" then 0 else if side == ftr then 1 else -1
  }

  function Won(homeAway: seq<string>, ftr: seq<string>): (r: seq<int>)
    requires |homeAway| == |ftr|
    ensures |r| == |ftr|
    ensures forall i :: 0 <= i < |r| ==> -1 <= r[i] <= 1
    ensures forall i :: 0 <= i < |r| ==> (r[i] == 0 <==> ftr[i] == "D")
    ensures forall i :: 0 <= i < |r| ==> (r[i] == 1 <==> ftr[i] != "D" && ftr[i] == homeAway[i])
  {
    seq(|ftr|, i requires 0 <= i < |ftr| => WonFlag(homeAway[i], ftr[i]))
  }

  /**
   * For a recorded result (H, A or D) the two sides of a match get opposite
   * values; a result outside those letters counts as a loss for both sides.
   */
  lemma WonIsAntisymmetric(ftr: string)
    ensures ftr in {"H", "A", "D"} ==> WonFlag(HomeAway([true])[0], ftr) == -WonFlag(HomeAway([false])[0], ftr)
    ensures ftr !in {"H", "A", "D"} ==> WonFlag(HomeAway([true])[0], ftr) == -1 == WonFlag(HomeAway([false])[0], ftr)
  {
  }

  // ---------------------------------------------------------------------------
  // played_for, shifted_was_home, shifted_opponent

  /** The team each row played for: the home team of a home game, the away team of an away game. */
  function PlaysFor(wasHome: seq<bool>, homeTeam: seq<Value>, awayTeam: seq<Value>): (r: seq<Value>)
    requires |wasHome| == |homeTeam| == |awayTeam|
    ensures |r| == |wasHome|
    ensures forall i :: 0 <= i < |r| && wasHome[i] ==> r[i] == homeTeam[i]
    ensures forall i :: 0 <= i < |r| && !wasHome[i] ==> r[i] == awayTeam[i]
  {
    seq(|wasHome|, i requires 0 <= i < |wasHome| => if wasHome[i] then homeTeam[i] else awayTeam[i])
  }

  /** 1 where the next fixture's home team is the row's own team, 0 elsewhere. */
  function ShiftWasHome(shiftHomeTeam: seq<string>, playsFor: seq<string>): (r: seq<int>)
    requires |shiftHomeTeam| == |playsFor|
    ensures |r| == |playsFor|
    ensures forall i :: 0 <= i < |r| ==> (r[i] == 1 <==> shiftHomeTeam[i] == playsFor[i])
    ensures forall i :: 0 <= i < |r| ==> (r[i] == 0 <==> shiftHomeTeam[i] != playsFor[i])
  {
    seq(|playsFor|, i requires 0 <= i < |playsFor| => if shiftHomeTeam[i] == playsFor[i] then 1 else 0)
  }

  /** The next opponent: the away team where the row is at home next, the home team elsewhere; any nonzero flag counts as home. */
  function ShiftOpponent(shiftWasHome: seq<int>, shiftHomeTeam: seq<string>, shiftAwayTeam: seq<string>): (r: seq<string>)
    requires |shiftWasHome| == |shiftHomeTeam| == |shiftAwayTeam|
    ensures |r| == |shiftWasHome|
    ensures forall i :: 0 <= i < |r| && shiftWasHome[i] != 0 ==> r[i] == shiftAwayTeam[i]
    ensures forall i :: 0 <= i < |r| && shiftWasHome[i] == 0 ==> r[i] == shiftHomeTeam[i]
  {
    seq(|shiftWasHome|, i requires 0 <= i < |shiftWasHome| =>
      if shiftWasHome[i] != 0 then shiftAwayTeam[i] else shiftHomeTeam[i])
  }

  /**
   * shifted_was_home followed by shifted_opponent: for a row joined to a
   * fixture its team plays in (as next_odds_joiner joins them) between two
   * different teams, the opponent is the other team of that fixture.
   */
  lemma ShiftedOpponentIsTheOtherTeam(shiftHomeTeam: seq<string>, shiftAwayTeam: seq<string>, playsFor: seq<string>)
    requires |shiftHomeTeam| == |shiftAwayTeam| == |playsFor|
    ensures var opponent := ShiftOpponent(ShiftWasHome(shiftHomeTeam, playsFor), shiftHomeTeam, shiftAwayTeam);
            forall i ::
              (0 <= i < |playsFor| && shiftHomeTeam[i] != shiftAwayTeam[i] &&
               (playsFor[i] == shiftHomeTeam[i] || playsFor[i] == shiftAwayTeam[i])) ==>
              opponent[i] != playsFor[i] &&
              {opponent[i], playsFor[i]} == {shiftHomeTeam[i], shiftAwayTeam[i]}
  {
  }

  // ---------------------------------------------------------------------------
  // home_and_away_teams

  /** The opponents recorded in the rows of fixture i, as a set. */
  function OpponentsIn(fixture: seq<int>, opponent: seq<Value>, i: int): set<Value>
    requires |fixture| == |opponent|
  {
    set j | 0 <= j < |fixture| && fixture[j] == i :: opponent[j]
  }

  function MaxOf(s: seq<int>): (m: int)
    requires s != []
    ensures m in s
    ensures forall x | x in s :: x <= m
  {
    if |s| == 1 then s[0]
    else
      var rest := MaxOf(s[1..]);
      assert s == [s[0]] + s[1..];
      if s[0] >= rest then s[0] else rest
  }

  function MinOf(s: seq<int>): (m: int)
    requires s != []
    ensures m in s
    ensures forall x | x in s :: m <= x
  {
    if |s| == 1 then s[0]
    else
      var rest := MinOf(s[1..]);
      assert s == [s[0]] + s[1..];
      if s[0] <= rest then s[0] else rest
  }

  /** The candidates for the team row j played for: the teams seen in its fixture other than its opponent. */
  function OtherTeams(fixture: seq<int>, opponent: seq<Value>, j: nat): set<Value>
    requires |fixture| == |opponent| && j < |fixture|
  {
    OpponentsIn(fixture, opponent, fixture[j]) - {opponent[j]}
  }

  /**
   * What looking up row j's other team raises: fixture_ids is keyed by the
   * fixture numbers from 1 to the largest, so a fixture below 1 is a KeyError;
   * taking the first of no candidates is an IndexError.
   */
  function RowError(fixture: seq<int>, opponent: seq<Value>, j: nat): Option<PyError>
    requires |fixture| == |opponent| && j < |fixture|
  {
    if fixture[j] < 1 then Some(KeyError)
    else if OtherTeams(fixture, opponent, j) == {} then Some(IndexError)
    else None
  }

  /** The first error among the rows from `from` on whose was_home equals `side`. */
  function FirstRowError(fixture: seq<int>, opponent: seq<Value>, wasHome: seq<bool>, side: bool, from: nat): Option<PyError>
    requires |fixture| == |opponent| == |wasHome|
    decreases |fixture| - from
  {
    if from >= |fixture| then None
    else if wasHome[from] == side && RowError(fixture, opponent, from).Some? then RowError(fixture, opponent, from)
    else FirstRowError(fixture, opponent, wasHome, side, from + 1)
  }

  /**
   * A team column as home_and_away_teams fills it: rows on `side` get a team of
   * their fixture other than their opponent, the other rows get the opponent.
   */
  ghost predicate FilledFromFixtures(column: seq<Value>, fixture: seq<int>, opponent: seq<Value>, wasHome: seq<bool>, side: bool)
    requires |fixture| == |opponent| == |wasHome|
  {
    |column| == |fixture| &&
    forall j :: 0 <= j < |fixture| ==>
      if wasHome[j] == side then column[j] in OtherTeams(fixture, opponent, j) else column[j] == opponent[j]
  }

  /** When both sides of a fixture appear as opponents, the team found is the uniquely determined other one. */
  lemma FixtureTeamIsDetermined(column: seq<Value>, fixture: seq<int>, opponent: seq<Value>, wasHome: seq<bool>,
                                side: bool, j: nat, other: Value)
    requires |fixture| == |opponent| == |wasHome| && j < |fixture|
    requires FilledFromFixtures(column, fixture, opponent, wasHome, side)
    requires wasHome[j] == side && other != opponent[j]
    requires OpponentsIn(fixture, opponent, fixture[j]) == {opponent[j], other}
    ensures column[j] == other
  {
  }

  /**
   * home_and_away_teams followed by played_for: no player plays for its own
   * opponent, and the home and away teams are its team and its opponent.
   */
  lemma NeverPlaysForOpponent(fixture: seq<int>, opponent: seq<Value>, wasHome: seq<bool>,
                              homeTeam: seq<Value>, awayTeam: seq<Value>)
    requires |fixture| == |opponent| == |wasHome|
    requires FilledFromFixtures(homeTeam, fixture, opponent, wasHome, true)
    requires FilledFromFixtures(awayTeam, fixture, opponent, wasHome, false)
    ensures forall j :: 0 <= j < |fixture| ==>
              PlaysFor(wasHome, homeTeam, awayTeam)[j] != opponent[j] &&
              {PlaysFor(wasHome, homeTeam, awayTeam)[j], opponent[j]} == {homeTeam[j], awayTeam[j]}
  {
    forall j | 0 <= j < |fixture|
      ensures PlaysFor(wasHome, homeTeam, awayTeam)[j] != opponent[j]
    {
      if wasHome[j] {
        assert homeTeam[j] in OtherTeams(fixture, opponent, j);
      } else {
        assert awayTeam[j] in OtherTeams(fixture, opponent, j);
      }
    }
  }

  // ---------------------------------------------------------------------------
  // clean_team_names and the position codes

  /** Python's `<` on str: lexicographic by code point, a proper prefix first. */
  predicate StrLess(a: string, b: string) {
    if a == [] then b != []
    else if b == [] then false
    else a[0] < b[0] || (a[0] == b[0] && StrLess(a[1..], b[1..]))
  }

  lemma {:induction false} StrLessIrreflexive(a: string)
    ensures !StrLess(a, a)
  {
    if a != [] {
      StrLessIrreflexive(a[1..]);
    }
  }

  lemma {:induction false} StrLessTransitive(a: string, b: string, c: string)
    requires StrLess(a, b) && StrLess(b, c)
    ensures StrLess(a, c)
  {
    if a != [] && b != [] && c != [] && a[0] == b[0] && b[0] == c[0] {
      StrLessTransitive(a[1..], b[1..], c[1..]);
    }
  }

  lemma {:induction false} StrLessTotal(a: string, b: string)
    ensures a == b || StrLess(a, b) || StrLess(b, a)
  {
    if a != [] && b != [] && a[0] == b[0] {
      StrLessTotal(a[1..], b[1..]);
      if a[1..] == b[1..] {
        assert a == [a[0]] + a[1..] && b == [b[0]] + b[1..];
      }
    }
  }

  predicate StrictlySorted(s: seq<string>) {
    forall i, j :: 0 <= i < j < |s| ==> StrLess(s[i], s[j])
  }

  /** The names a list holds. */
  function Elements(s: seq<string>): set<string> {
    set n | n in s
  }

  /** Inserts a name into a strictly sorted list unless it is there already. */
  function InsertName(x: string, s: seq<string>): (r: seq<string>)
    ensures Elements(r) == Elements(s) + {x}
  {
    if s == [] then [x]
    else if x == s[0] then s
    else if StrLess(x, s[0]) then [x] + s
    else
      var rest := InsertName(x, s[1..]);
      assert Elements([s[0]] + rest) == {s[0]} + Elements(rest);
      assert Elements(s) == {s[0]} + Elements(s[1..]) by {
        assert s == [s[0]] + s[1..];
      }
      [s[0]] + rest
  }

  lemma {:induction false} InsertNameSorted(x: string, s: seq<string>)
    requires StrictlySorted(s)
    ensures StrictlySorted(InsertName(x, s))
  {
    if s != [] && x != s[0] {
      StrLessTotal(x, s[0]);
      var r := InsertName(x, s);
      if StrLess(x, s[0]) {
        forall i, j | 0 <= i < j < |r| ensures StrLess(r[i], r[j]) {
          if i == 0 {
            if j > 1 {
              StrLessTransitive(x, s[0], s[j - 1]);
            }
          } else {
            assert r[i] == s[i - 1] && r[j] == s[j - 1];
          }
        }
      } else {
        assert StrictlySorted(s[1..]) by {
          forall i, j | 0 <= i < j < |s| - 1 ensures StrLess(s[1..][i], s[1..][j]) {
            assert s[1..][i] == s[i + 1] && s[1..][j] == s[j + 1];
          }
        }
        InsertNameSorted(x, s[1..]);
        var rest := InsertName(x, s[1..]);
        forall j | 0 <= j < |rest| ensures StrLess(s[0], rest[j]) {
          assert rest[j] in Elements(rest);
          assert rest[j] in Elements(s[1..]) + {x};
          if rest[j] != x {
            assert rest[j] in s[1..];
            var k :| 0 <= k < |s[1..]| && s[1..][k] == rest[j];
            assert s[k + 1] == rest[j];
          }
        }
        forall i, j | 0 <= i < j < |r| ensures StrLess(r[i], r[j]) {
          if i == 0 {
            assert r[j] == rest[j - 1];
          } else {
            assert r[i] == rest[i - 1] && r[j] == rest[j - 1];
          }
        }
      }
    }
  }

  /** The distinct home-team names of the odds table, in sorted order. */
  function SortedUnique(names: seq<string>): (r: seq<string>)
    ensures StrictlySorted(r)
    ensures Elements(r) == Elements(names)
  {
    if names == [] then []
    else
      assert Elements(names) == {names[0]} + Elements(names[1..]) by {
        assert names == [names[0]] + names[1..];
      }
      InsertNameSorted(names[0], SortedUnique(names[1..]));
      InsertName(names[0], SortedUnique(names[1..]))
  }

  /** The name numbered k (from 1) in a list. */
  function NameOfCode(names: seq<string>, k: int): string
    requires 1 <= k <= |names|
  {
    names[k - 1]
  }

  /** The code table: the sorted distinct home-team names numbered from 1. */
  function TeamCodes(oddsHomeTeam: seq<string>): map<int, string> {
    var names := SortedUnique(oddsHomeTeam);
    map k | 1 <= k <= |names| :: NameOfCode(names, k)
  }

  /**
   * The integer a cell equals under Python's numeric `==`: an int, or a float
   * with no fractional part (a column with NaN in it holds its codes as floats).
   */
  function IntegerCode(v: Value): Option<int> {
    match v
    case Num(n) => Some(n)
    case Float(r) => if r == r.Floor as real then Some(r.Floor) else None
    case _ => None
  }

  /** Whether a cell equals one of the code table's keys. */
  predicate IsTeamCode(v: Value, oddsHomeTeam: seq<string>) {
    IntegerCode(v).Some? && IntegerCode(v).value in TeamCodes(oddsHomeTeam)
  }

  /** Replacing by the code table: a cell equal to a code becomes that code's name, other cells are kept. */
  function CleanedTeamNames(opponentTeam: seq<Value>, oddsHomeTeam: seq<string>): (r: seq<Value>)
    ensures |r| == |opponentTeam|
    ensures forall i :: 0 <= i < |r| ==>
              if IsTeamCode(opponentTeam[i], oddsHomeTeam)
              then r[i] == Text(TeamCodes(oddsHomeTeam)[IntegerCode(opponentTeam[i]).value])
              else r[i] == opponentTeam[i]
  {
    var table := TeamCodes(oddsHomeTeam);
    seq(|opponentTeam|, i requires 0 <= i < |opponentTeam| =>
      if IsTeamCode(opponentTeam[i], oddsHomeTeam) then Text(table[IntegerCode(opponentTeam[i]).value])
      else opponentTeam[i])
  }

  /**
   * The code table numbers the distinct home-team names 1 .. N in sorted order:
   * every name gets a code, different codes name different teams, and a lower
   * code names an alphabetically earlier team.
   */
  lemma TeamCodesNumberTheTeams(oddsHomeTeam: seq<string>)
    ensures var table := TeamCodes(oddsHomeTeam);
            (forall name | name in oddsHomeTeam :: exists k :: k in table && table[k] == name) &&
            (forall k | k in table :: table[k] in oddsHomeTeam) &&
            (forall k1, k2 | k1 in table && k2 in table && k1 < k2 :: StrLess(table[k1], table[k2]))
  {
    var names := SortedUnique(oddsHomeTeam);
    var table := TeamCodes(oddsHomeTeam);
    forall name | name in oddsHomeTeam ensures exists k :: k in table && table[k] == name {
      assert name in Elements(oddsHomeTeam);
      assert name in Elements(names);
      var i :| 0 <= i < |names| && names[i] == name;
      assert NameOfCode(names, i + 1) == name;
      assert table[i + 1] == name;
    }
    forall k | k in table ensures table[k] in oddsHomeTeam {
      assert table[k] == NameOfCode(names, k) == names[k - 1];
      assert names[k - 1] in Elements(names);
      assert names[k - 1] in Elements(oddsHomeTeam);
    }
    forall k1, k2 | k1 in table && k2 in table && k1 < k2 ensures StrLess(table[k1], table[k2]) {
      assert table[k1] == NameOfCode(names, k1) == names[k1 - 1];
      assert table[k2] == NameOfCode(names, k2) == names[k2 - 1];
    }
  }

  /** After cleaning, distinct codes of the table never collapse onto one name. */
  lemma CleanTeamNamesIsInjective(opponentTeam: seq<Value>, oddsHomeTeam: seq<string>, i: nat, j: nat)
    requires i < |opponentTeam| && j < |opponentTeam|
    requires IsTeamCode(opponentTeam[i], oddsHomeTeam) && IsTeamCode(opponentTeam[j], oddsHomeTeam)
    ensures CleanedTeamNames(opponentTeam, oddsHomeTeam)[i] == CleanedTeamNames(opponentTeam, oddsHomeTeam)[j]
            <==> IntegerCode(opponentTeam[i]) == IntegerCode(opponentTeam[j])
  {
    TeamCodesNumberTheTeams(oddsHomeTeam);
    var table := TeamCodes(oddsHomeTeam);
    var a, b := IntegerCode(opponentTeam[i]).value, IntegerCode(opponentTeam[j]).value;
    if a < b {
      StrLessIrreflexive(table[a]);
      assert StrLess(table[a], table[b]);
    } else if b < a {
      StrLessIrreflexive(table[b]);
      assert StrLess(table[b], table[a]);
    }
  }

  /**
   * The position of one element_type cell: a cell equal to 1, 2, 3 or 4 (an int
   * or a whole float) names GK, DEF, MID or FWD; any other cell is kept.
   */
  function PositionName(code: Value): Value {
    match IntegerCode(code)
    case Some(1) => Text("GK")
    case Some(2) => Text("DEF")
    case Some(3) => Text("MID")
    case Some(4) => Text("FWD")
    case _ => code
  }

  function PositionNames(elementType: seq<Value>): (r: seq<Value>)
    ensures |r| == |elementType|
    ensures forall i :: 0 <= i < |r| ==> r[i] == PositionName(elementType[i])
  {
    seq(|elementType|, i requires 0 <= i < |elementType| => PositionName(elementType[i]))
  }

  /**
   * Codes 1-4 name the squad's four positions one-to-one, a whole float naming
   * the same position as the int it equals; any other cell is left as it was.
   */
  lemma PositionCodesAreTheSquadPositions(c1: int, c2: int, v: Value)
    requires 1 <= c1 <= 4 && 1 <= c2 <= 4
    ensures PositionName(Num(c1)).Text? && PositionName(Num(c1)).s in {"GK", "DEF", "MID", "FWD"}
    ensures PositionName(Num(c1)) == PositionName(Num(c2)) <==> c1 == c2
    ensures PositionName(Float(c1 as real)) == PositionName(Num(c1))
    ensures IntegerCode(v).Some? && 1 <= IntegerCode(v).value <= 4 ==> PositionName(v) == PositionName(Num(IntegerCode(v).value))
    ensures !(IntegerCode(v).Some? && 1 <= IntegerCode(v).value <= 4) ==> PositionName(v) == v
  {
    assert (c1 as real).Floor == c1;
  }

  /** A float column with a missing cell, as an unmatched join row leaves it, is still named. */
  lemma PositionNamesOfFloatColumn()
    ensures PositionNames([Float(1.0), NaN, Float(4.0)]) == [Text("GK"), NaN, Text("FWD")]
  {
    assert (1.0).Floor == 1 && (4.0).Floor == 4;
  }

  // ---------------------------------------------------------------------------
  // shifted_points_range

  /** The shift_points values that are not NaN, in order. */
  function Present(points: seq<Option<int>>): (r: seq<int>)
    ensures forall x | x in r :: Some(x) in points
    ensures forall i :: 0 <= i < |points| && points[i].Some? ==> points[i].value in r
  {
    if points == [] then []
    else
      var rest := Present(points[1..]);
      assert forall i :: 1 <= i < |points| ==> points[i] == points[1..][i - 1];
      (if points[0].Some? then [points[0].value] else []) + rest
  }

  /** pd.cut with right-closed bins (lo, 0], (0, 4], (4, 10], (10, hi] and labels 0-3; outside them, NaN. */
  function CutLabel(x: int, lo: int, hi: int): Option<int> {
    if lo < x <= 0 then Some(0)
    else if 0 < x <= 4 then Some(1)
    else if 4 < x <= 10 then Some(2)
    else if 10 < x <= hi then Some(3)
    else None
  }

  /** Every value's label under the given outer edges; NaN stays NaN. */
  function Cut(points: seq<Option<int>>, lo: int, hi: int): (r: seq<Option<int>>)
    ensures |r| == |points|
    ensures forall i :: 0 <= i < |points| ==>
              r[i] == if points[i].Some? then CutLabel(points[i].value, lo, hi) else None
  {
    seq(|points|, i requires 0 <= i < |points| =>
      if points[i].Some? then CutLabel(points[i].value, lo, hi) else None)
  }

  /**
   * shifted_points_range as written: the bins start at the minimum itself, so
   * with pd.cut's default include_lowest=False that value falls outside every
   * bin. The minimum of no values, or edges that do not strictly increase, raise.
   */
  function ShiftedPointsRange(points: seq<Option<int>>): Result<seq<Option<int>>, PyError> {
    var present := Present(points);
    if present == [] then Failure(ValueError)
    else
      var lo, hi := MinOf(present), MaxOf(present);
      if !(lo < 0 && 10 < hi) then Failure(ValueError)
      else Success(Cut(points, lo, hi))
  }

  /** The same with the lowest edge included, as bins starting at the minimum evidently intend. */
  function ShiftedPointsRangeIncludingLowest(points: seq<Option<int>>): Result<seq<Option<int>>, PyError> {
    var present := Present(points);
    if present == [] then Failure(ValueError)
    else
      var lo, hi := MinOf(present), MaxOf(present);
      if !(lo < 0 && 10 < hi) then Failure(ValueError)
      else Success(Cut(points, lo - 1, hi))
  }

  /** Both versions fail exactly when no value is present or the edges do not strictly increase. */
  lemma ShiftedPointsRangeErrors(points: seq<Option<int>>)
    ensures ShiftedPointsRange(points).Failure? <==> ShiftedPointsRangeIncludingLowest(points).Failure?
    ensures ShiftedPointsRange(points).Failure? <==>
              (forall i | 0 <= i < |points| :: points[i].None?) ||
              (exists i | 0 <= i < |points| :: points[i].Some? && points[i].value >= 0 &&
                 forall j | 0 <= j < |points| && points[j].Some? :: points[j].value >= 0) ||
              (forall j | 0 <= j < |points| && points[j].Some? :: points[j].value <= 10)
  {
    var present := Present(points);
    if present != [] {
      var lo, hi := MinOf(present), MaxOf(present);
      var k :| 0 <= k < |points| && points[k] == Some(lo);
      var m :| 0 <= m < |points| && points[m] == Some(hi);
      forall j | 0 <= j < |points| && points[j].Some? ensures lo <= points[j].value <= hi {
        assert points[j].value in present;
      }
    }
  }

  /** As written, a value is left unlabelled exactly when it is NaN or is the minimum. */
  lemma MinimumIsUnlabelled(points: seq<Option<int>>)
    requires ShiftedPointsRange(points).Success?
    ensures var labels := ShiftedPointsRange(points).value;
            var lo := MinOf(Present(points));
            |labels| == |points| &&
            forall i :: 0 <= i < |points| ==> (labels[i].None? <==> points[i].None? || points[i] == Some(lo))
  {
    var present := Present(points);
    var lo, hi := MinOf(present), MaxOf(present);
    var labels := Cut(points, lo, hi);
    forall i | 0 <= i < |points| ensures labels[i].None? <==> points[i].None? || points[i] == Some(lo) {
      if points[i].Some? {
        assert points[i].value in present;
      }
    }
  }

  /** A concrete table whose lowest observation, -3, loses its label. */
  lemma MinimumIsUnlabelledExample()
    ensures ShiftedPointsRange([Some(-3), Some(2), Some(12)]) == Success([None, Some(1), Some(3)])
  {
    var points: seq<Option<int>> := [Some(-3), Some(2), Some(12)];
    ExamplePresent();
    ExampleBounds();
    var labels := Cut(points, -3, 12);
    assert labels[0] == None && labels[1] == Some(1) && labels[2] == Some(3);
    assert labels == [None, Some(1), Some(3)];
  }

  lemma ExamplePresent()
    ensures Present([Some(-3), Some(2), Some(12)]) == [-3, 2, 12]
  {
    var points: seq<Option<int>> := [Some(-3), Some(2), Some(12)];
    assert points[1..] == [Some(2), Some(12)];
    var last: seq<Option<int>> := [Some(12)];
    assert points[1..][1..] == last && last[1..] == [];
    assert Present(last) == [12];
    assert Present(points[1..]) == [2, 12];
  }

  lemma ExampleBounds()
    ensures MinOf([-3, 2, 12]) == -3 && MaxOf([-3, 2, 12]) == 12
  {
    var present := [-3, 2, 12];
    assert present[1..] == [2, 12] && present[1..][1..] == [12];
    assert MinOf([12]) == 12 && MaxOf([12]) == 12;
    assert MinOf([2, 12]) == 2 && MaxOf([2, 12]) == 12;
  }

  /**
   * With the lowest edge included every observed value gets a label, labels grow
   * with the points, and the two versions differ only at the minimum.
   */
  lemma IncludingLowestLabelsEveryValue(points: seq<Option<int>>)
    requires ShiftedPointsRangeIncludingLowest(points).Success?
    ensures ShiftedPointsRange(points).Success?
    ensures var fixed := ShiftedPointsRangeIncludingLowest(points).value;
            var asWritten := ShiftedPointsRange(points).value;
            var lo := MinOf(Present(points));
            |fixed| == |points| &&
            (forall i :: 0 <= i < |points| ==> (fixed[i].Some? <==> points[i].Some?)) &&
            (forall i, j ::
               (0 <= i < |points| && 0 <= j < |points| && points[i].Some? && points[j].Some? &&
                points[i].value <= points[j].value) ==> fixed[i].value <= fixed[j].value) &&
            (forall i :: 0 <= i < |points| && points[i] != Some(lo) ==> fixed[i] == asWritten[i])
  {
    var present := Present(points);
    var lo, hi := MinOf(present), MaxOf(present);
    forall i | 0 <= i < |points| && points[i].Some? ensures lo <= points[i].value <= hi {
      assert points[i].value in present;
    }
    CutIncludingLowest(points, lo, hi);
  }

  /** Bins from just below the lowest value label every value, in order, and agree above it. */
  lemma CutIncludingLowest(points: seq<Option<int>>, lo: int, hi: int)
    requires lo < 0 && 10 < hi
    requires forall i | 0 <= i < |points| && points[i].Some? :: lo <= points[i].value <= hi
    ensures var fixed, asWritten := Cut(points, lo - 1, hi), Cut(points, lo, hi);
            (forall i :: 0 <= i < |points| ==> (fixed[i].Some? <==> points[i].Some?)) &&
            (forall i, j ::
               (0 <= i < |points| && 0 <= j < |points| && points[i].Some? && points[j].Some? &&
                points[i].value <= points[j].value) ==> fixed[i].value <= fixed[j].value) &&
            (forall i :: 0 <= i < |points| && points[i] != Some(lo) ==> fixed[i] == asWritten[i])
  {
    var fixed := Cut(points, lo - 1, hi);
    forall i, j | 0 <= i < |points| && 0 <= j < |points| && points[i].Some? && points[j].Some? &&
                  points[i].value <= points[j].value
      ensures fixed[i].value <= fixed[j].value
    {
      CutLabelMonotone(points[i].value, points[j].value, lo - 1, hi);
    }
  }

  /** pd.cut's labels never decrease with the value inside the outer edges. */
  lemma CutLabelMonotone(x: int, y: int, lo: int, hi: int)
    requires lo < x <= y <= hi && lo < 0 && 10 < hi
    ensures CutLabel(x, lo, hi).Some? && CutLabel(y, lo, hi).Some?
    ensures CutLabel(x, lo, hi).value <= CutLabel(y, lo, hi).value
  {
  }

  // ---------------------------------------------------------------------------
  // fix_columns

  /** A named column of a frame. */
  datatype Column = Column(name: string, values: seq<Value>)

  function Zeros(height: nat): (r: seq<Value>)
    ensures |r| == height && forall i :: 0 <= i < height ==> r[i] == Num(0)
  {
    seq(height, i => Num(0))
  }

  /**
   * The wanted columns, selected after the missing ones were set to 0: exactly
   * those columns in the wanted order, a column that existed keeping its values.
   */
  function FixedColumns(present: map<string, seq<Value>>, height: nat, wanted: seq<string>): (r: seq<Column>)
    ensures |r| == |wanted|
    ensures forall i :: 0 <= i < |wanted| ==> r[i].name == wanted[i]
    ensures forall i :: 0 <= i < |wanted| && wanted[i] in present ==> r[i].values == present[wanted[i]]
    ensures forall i :: 0 <= i < |wanted| && wanted[i] !in present ==> r[i].values == Zeros(height)
  {
    var filled := present + map c | c in wanted && c !in present :: Zeros(height);
    seq(|wanted|, i requires 0 <= i < |wanted| => Column(wanted[i], filled[wanted[i]]))
  }

  /** Fixing a frame that was already fixed for the same columns changes nothing. */
  lemma FixedColumnsIsIdempotent(present: map<string, seq<Value>>, height: nat, wanted: seq<string>)
    ensures var filled := present + map c | c in wanted && c !in present :: Zeros(height);
            FixedColumns(filled, height, wanted) == FixedColumns(present, height, wanted)
  {
  }

  /** A frame with named columns of one height, as fix_columns sees it. */
  class DataFrame {
    var columns: seq<string>
    var cells: map<string, seq<Value>>
    var height: nat

    ghost predicate Valid()
      reads this
    {
      Distinct(columns) &&
      (forall c :: c in cells <==> c in columns) &&
      (forall c | c in cells :: |cells[c]| == height)
    }

    constructor (columns: seq<string>, cells: map<string, seq<Value>>, height: nat)
      requires Distinct(columns) && (forall c :: c in cells <==> c in columns)
      requires forall c | c in cells :: |cells[c]| == height
      ensures Valid() && this.columns == columns && this.cells == cells && this.height == height
    {
      this.columns := columns;
      this.cells := cells;
      this.height := height;
    }

    /** Sets a column the frame lacks to all zeros, appending it at the end. */
    method AddZeroColumn(c: string)
      requires Valid() && c !in cells
      modifies this`columns, this`cells
      ensures Valid()
      ensures columns == old(columns) + [c] && cells == old(cells)[c := Zeros(height)]
    {
      assert c !in columns;
      columns := columns + [c];
      cells := cells[c := Zeros(height)];
    }

    /**
     * Adds a zero column for each wanted column the frame lacks (in the
     * arbitrary order of a Python set) and returns the wanted columns in order.
     */
    method FixColumns(wanted: seq<string>) returns (selected: seq<Column>)
      requires Valid()
      modifies this`columns, this`cells
      ensures Valid()
      ensures |columns| >= |old(columns)| && columns[..|old(columns)|] == old(columns)
      ensures forall c :: c in cells <==> c in old(cells) || c in wanted
      ensures forall c | c in old(cells) :: cells[c] == old(cells)[c]
      ensures forall c | c in cells && c !in old(cells) :: cells[c] == Zeros(height)
      ensures selected == FixedColumns(old(cells), height, wanted)
    {
      var missing := set c | c in wanted && c !in cells;
      while missing != {}
        invariant Valid()
        invariant |columns| >= |old(columns)| && columns[..|old(columns)|] == old(columns)
        invariant forall c :: c in missing <==> c in wanted && c !in cells
        invariant forall c :: c in cells <==> c in old(cells) || (c in wanted && c !in missing)
        invariant forall c | c in old(cells) :: cells[c] == old(cells)[c]
        invariant forall c | c in cells && c !in old(cells) :: cells[c] == Zeros(height)
        decreases |missing|
      {
        var c :| c in missing;
        AddZeroColumn(c);
        missing := missing - {c};
      }
      var filled := cells;
      assert forall i :: 0 <= i < |wanted| ==> wanted[i] in filled;
      selected := seq(|wanted|, i requires 0 <= i < |wanted| && wanted[i] in filled => Column(wanted[i], filled[wanted[i]]));
      ghost var expected := FixedColumns(old(cells), height, wanted);
      forall i | 0 <= i < |wanted| ensures selected[i] == expected[i] {
      }
    }
  }

  // ---------------------------------------------------------------------------
  // The gameweeks frame and the helpers that write its columns in place

  class GameweeksFrame {
    var minutes: seq<int>
    var totalPoints: seq<int>
    var adjustedPoints: seq<int>
    var wasHome: seq<bool>
    var ftr: seq<string>
    var won: seq<int>
    var fixture: seq<int>
    var opponentTeam: seq<Value>
    var homeTeam: seq<Value>
    var awayTeam: seq<Value>
    var playsFor: seq<Value>

    /** All columns have one height. */
    ghost predicate Valid()
      reads this
    {
      |totalPoints| == |minutes| && |adjustedPoints| == |minutes| && |wasHome| == |minutes| &&
      |ftr| == |minutes| && |won| == |minutes| && |fixture| == |minutes| &&
      |opponentTeam| == |minutes| && |homeTeam| == |minutes| && |awayTeam| == |minutes| &&
      |playsFor| == |minutes|
    }

    constructor (minutes: seq<int>, totalPoints: seq<int>, adjustedPoints: seq<int>, wasHome: seq<bool>,
                 ftr: seq<string>, won: seq<int>, fixture: seq<int>, opponentTeam: seq<Value>,
                 homeTeam: seq<Value>, awayTeam: seq<Value>, playsFor: seq<Value>)
      requires |totalPoints| == |minutes| && |adjustedPoints| == |minutes| && |wasHome| == |minutes|
      requires |ftr| == |minutes| && |won| == |minutes| && |fixture| == |minutes|
      requires |opponentTeam| == |minutes| && |homeTeam| == |minutes| && |awayTeam| == |minutes|
      requires |playsFor| == |minutes|
      ensures Valid()
      ensures this.minutes == minutes && this.totalPoints == totalPoints && this.adjustedPoints == adjustedPoints
      ensures this.wasHome == wasHome && this.ftr == ftr && this.won == won && this.fixture == fixture
      ensures this.opponentTeam == opponentTeam && this.homeTeam == homeTeam && this.awayTeam == awayTeam
      ensures this.playsFor == playsFor
    {
      this.minutes, this.totalPoints, this.adjustedPoints := minutes, totalPoints, adjustedPoints;
      this.wasHome, this.ftr, this.won, this.fixture := wasHome, ftr, won, fixture;
      this.opponentTeam, this.homeTeam, this.awayTeam, this.playsFor := opponentTeam, homeTeam, awayTeam, playsFor;
    }

    /** minutes_played: a new frame holding the rows with minutes > 0. */
    method MinutesPlayed() returns (kept: GameweeksFrame)
      requires Valid()
      ensures fresh(kept) && kept.Valid()
      ensures var m := PlayedMask(minutes);
              kept.minutes == Choose(minutes, m) && kept.totalPoints == Choose(totalPoints, m) &&
              kept.adjustedPoints == Choose(adjustedPoints, m) && kept.wasHome == Choose(wasHome, m) &&
              kept.ftr == Choose(ftr, m) && kept.won == Choose(won, m) && kept.fixture == Choose(fixture, m) &&
              kept.opponentTeam == Choose(opponentTeam, m) && kept.homeTeam == Choose(homeTeam, m) &&
              kept.awayTeam == Choose(awayTeam, m) && kept.playsFor == Choose(playsFor, m)
    {
      var m := PlayedMask(minutes);
      kept := new GameweeksFrame(Choose(minutes, m), Choose(totalPoints, m), Choose(adjustedPoints, m),
                                 Choose(wasHome, m), Choose(ftr, m), Choose(won, m), Choose(fixture, m),
                                 Choose(opponentTeam, m), Choose(homeTeam, m), Choose(awayTeam, m),
                                 Choose(playsFor, m));
    }

    /** adjust_points */
    method AdjustPoints()
      requires Valid()
      modifies this`adjustedPoints
      ensures Valid()
      ensures adjustedPoints == AdjustedPoints(minutes, totalPoints)
    {
      adjustedPoints := AdjustedPoints(minutes, totalPoints);
    }

    /** won_the_game */
    method WonTheGame()
      requires Valid()
      modifies this`won
      ensures Valid()
      ensures won == Won(HomeAway(wasHome), ftr)
    {
      var homeAway := HomeAway(wasHome);
      won := Won(homeAway, ftr);
    }

    /** played_for */
    method PlayedFor()
      requires Valid()
      modifies this`playsFor
      ensures Valid()
      ensures playsFor == PlaysFor(wasHome, homeTeam, awayTeam)
    {
      playsFor := PlaysFor(wasHome, homeTeam, awayTeam);
    }

    /** clean_team_names */
    method CleanTeamNames(oddsHomeTeam: seq<string>)
      requires Valid()
      modifies this`opponentTeam
      ensures Valid()
      ensures opponentTeam == CleanedTeamNames(old(opponentTeam), oddsHomeTeam)
    {
      opponentTeam := CleanedTeamNames(opponentTeam, oddsHomeTeam);
    }

    /**
     * The fixture_ids loop: for each fixture number from 1 to the largest, the
     * set of opponent teams seen in that fixture.
     */
    static method FixtureIds(fixture: seq<int>, opponent: seq<Value>) returns (ids: map<int, set<Value>>)
      requires |fixture| == |opponent| && fixture != []
      ensures forall i :: i in ids <==> 1 <= i <= MaxOf(fixture)
      ensures forall i | i in ids :: ids[i] == OpponentsIn(fixture, opponent, i)
    {
      var stop := MaxOf(fixture) + 1;
      ids := map[];
      var i := 1;
      while i < stop
        invariant 1 <= i && (i > 1 ==> i <= stop)
        invariant forall k :: k in ids <==> 1 <= k < i
        invariant forall k | k in ids :: ids[k] == OpponentsIn(fixture, opponent, k)
      {
        ids := ids[i := set j | 0 <= j < |fixture| && fixture[j] == i :: opponent[j]];
        i := i + 1;
      }
    }

    /**
     * home_and_away_teams. The home_team list is built in full before it is
     * assigned and before the away_team list is started, so an error while
     * building away_team leaves the new home_team in place.
     */
    method HomeAndAwayTeams() returns (error: Option<PyError>)
      requires Valid()
      modifies this`homeTeam, this`awayTeam
      ensures Valid()
      ensures fixture == [] ==> error == Some(ValueError) && homeTeam == old(homeTeam) && awayTeam == old(awayTeam)
      ensures fixture != [] ==>
        var homeError := FirstRowError(fixture, opponentTeam, wasHome, true, 0);
        var awayError := FirstRowError(fixture, opponentTeam, wasHome, false, 0);
        error == (if homeError.Some? then homeError else awayError) &&
        (homeError.Some? ==> homeTeam == old(homeTeam) && awayTeam == old(awayTeam)) &&
        (homeError.None? ==> FilledFromFixtures(homeTeam, fixture, opponentTeam, wasHome, true)) &&
        (homeError.None? && awayError.Some? ==> awayTeam == old(awayTeam)) &&
        (homeError.None? && awayError.None? ==> FilledFromFixtures(awayTeam, fixture, opponentTeam, wasHome, false))
    {
      if fixture == [] {
        return Some(ValueError);
      }
      var ids := FixtureIds(fixture, opponentTeam);
      var home := FillFromFixtures(ids, true);
      if home.Failure? {
        return Some(home.error);
      }
      homeTeam := home.value;
      var away := FillFromFixtures(ids, false);
      if away.Failure? {
        return Some(away.error);
      }
      awayTeam := away.value;
      return None;
    }

    /**
     * One of the two comprehensions: rows on `side` look up the team of their
     * fixture that is not their opponent (the first such team in the set's
     * iteration order, which the model leaves open); other rows take the opponent.
     */
    method FillFromFixtures(ids: map<int, set<Value>>, side: bool) returns (column: Result<seq<Value>, PyError>)
      requires Valid() && fixture != []
      requires forall i :: i in ids <==> 1 <= i <= MaxOf(fixture)
      requires forall i | i in ids :: ids[i] == OpponentsIn(fixture, opponentTeam, i)
      ensures column.Failure? <==> FirstRowError(fixture, opponentTeam, wasHome, side, 0).Some?
      ensures column.Failure? ==> column.error == FirstRowError(fixture, opponentTeam, wasHome, side, 0).value
      ensures column.Success? ==> FilledFromFixtures(column.value, fixture, opponentTeam, wasHome, side)
    {
      var filled: seq<Value> := [];
      var j := 0;
      while j < |fixture|
        invariant 0 <= j <= |fixture| && |filled| == j
        invariant FirstRowError(fixture, opponentTeam, wasHome, side, 0) == FirstRowError(fixture, opponentTeam, wasHome, side, j)
        invariant forall k :: 0 <= k < j ==>
          if wasHome[k] == side then filled[k] in OtherTeams(fixture, opponentTeam, k) else filled[k] == opponentTeam[k]
      {
        if wasHome[j] == side {
          assert fixture[j] <= MaxOf(fixture) by { assert fixture[j] in fixture; }
          if fixture[j] !in ids {
            return Failure(KeyError);
          }
          var others := ids[fixture[j]] - {opponentTeam[j]};
          if others == {} {
            return Failure(IndexError);
          }
          var team :| team in others;
          filled := filled + [team];
        } else {
          filled := filled + [opponentTeam[j]];
        }
        j := j + 1;
      }
      return Success(filled);
    }
  }

  /** The next-fixtures frame (after next_odds_joiner) and its two column writers. */
  class NextFixturesFrame {
    var playsFor: seq<string>
    var shiftHomeTeam: seq<string>
    var shiftAwayTeam: seq<string>
    var shiftWasHome: seq<int>
    var shiftOpponent: seq<string>

    ghost predicate Valid()
      reads this
    {
      |shiftHomeTeam| == |playsFor| && |shiftAwayTeam| == |playsFor| &&
      |shiftWasHome| == |playsFor| && |shiftOpponent| == |playsFor|
    }

    constructor (playsFor: seq<string>, shiftHomeTeam: seq<string>, shiftAwayTeam: seq<string>,
                 shiftWasHome: seq<int>, shiftOpponent: seq<string>)
      requires |shiftHomeTeam| == |playsFor| && |shiftAwayTeam| == |playsFor|
      requires |shiftWasHome| == |playsFor| && |shiftOpponent| == |playsFor|
      ensures Valid()
      ensures this.playsFor == playsFor && this.shiftHomeTeam == shiftHomeTeam && this.shiftAwayTeam == shiftAwayTeam
      ensures this.shiftWasHome == shiftWasHome && this.shiftOpponent == shiftOpponent
    {
      this.playsFor, this.shiftHomeTeam, this.shiftAwayTeam := playsFor, shiftHomeTeam, shiftAwayTeam;
      this.shiftWasHome, this.shiftOpponent := shiftWasHome, shiftOpponent;
    }

    /** shifted_was_home */
    method ShiftedWasHome()
      requires Valid()
      modifies this`shiftWasHome
      ensures Valid()
      ensures shiftWasHome == ShiftWasHome(shiftHomeTeam, playsFor)
    {
      shiftWasHome := ShiftWasHome(shiftHomeTeam, playsFor);
    }

    /** shifted_opponent */
    method ShiftedOpponent()
      requires Valid()
      modifies this`shiftOpponent
      ensures Valid()
      ensures shiftOpponent == ShiftOpponent(shiftWasHome, shiftHomeTeam, shiftAwayTeam)
    {
      shiftOpponent := ShiftOpponent(shiftWasHome, shiftHomeTeam, shiftAwayTeam);
    }
  }
}
