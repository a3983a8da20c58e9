# Best predicted FPL squad: a Dafny model

This project models the squad selector of a Fantasy Premier League prediction
pipeline, and the row-level helpers it depends on. Everything is proved in Dafny.

`get_best_squad(constraint, rows_to_check)` reads a table of predicted player rows. It then:

- splits the rows into goalkeeper, defender, midfielder and forward pools;
- ranks each pool by `(predicted_point_range, prob_3, prob_2, prob_1, prob_0)`, highest first, and cuts it to `rows_to_check` rows;
- enumerates groups of 2, 5, 5 and 3 players;
- sums cost, points and `prob_3` for every combination;
- keeps the combinations that the constraint admits:
  - `budget`: total value at most 1000;
  - `team`: at most three players from one club;
  - `all`: both;
  - `none`: everything;
- picks the first combination with the highest `(points, probabilities)`;
- picks the best legal starting eleven in the same way, from all 11-player selections of that squad;
- labels the bench `SubGK`, `Sub1`, `Sub2` and `Sub3`;
- flags the captain.

The helpers come from the data-cleaning module:

- `sum_of_information` and `difference_between_lists`, which the selector calls;
- the column writers `adjust_points`, `won_the_game`, `played_for`, `shifted_was_home`, `shifted_opponent`, `home_and_away_teams` and `clean_team_names`;
- the position-code map, `minutes_played` and `fix_columns`;
- the points bucketing of `shifted_points_range`.

Layout:

- `wrappers.dfy`: `Option` and `Result`.
- `combinatorics.dfy`: `itertools.combinations`, as selection masks, and its counting and membership facts.
- `predictions.dfy`: the prediction row, the ranking key, the stable descending sort and the position pools.
- `data_cleaning.dfy`: the helpers.
  - Pure code becomes functions with lemmas.
  - Code that writes columns in place becomes methods of the classes `DataFrame`, `GameweeksFrame` and `NextFixturesFrame`. Each method modifies only the column it writes.
- `best_predicted_squad.dfy`: the selector.
  - Its specification functions are `BestSquad` (as written) and `IntendedBestSquad`.
  - Its loops are the methods `ForwardLoop`, `MidfielderLoop`, `DefenderLoop`, `EnumerateTeamCombs`, `SquadOf`, `StartingElevens`, `ElevenStats`, `CombinationIterators`, `PickStartingEleven` and `GetBestSquad`. Each is proved equal to its specification function.
- `squad_properties.dfy` and `sheet_properties.dfy`: what the selector guarantees. This covers:
  - constraint rejection;
  - the filter and how the constraints relate to each other;
  - optimality and tie-breaking;
  - what each enumeration visits;
  - the existence and choice of the starting eleven;
  - the bench and the sheet layout;
  - the captain flag;
  - the possible outcomes of a whole search.

Modelling choices:

- Probabilities are exact `real`s. They are only summed and compared.
- Cells that hold a number, a float, a name or NaN are the datatype `Value`. An int and a float with no fractional part count as equal codes, as Python's `==` compares them when `replace` looks a cell up.
- A pandas error becomes a `Failure` carrying a named error. A `print` without a result becomes `Failure(NoTeamCombinations)`.

Where the code and the design description disagree, the model follows the code:

- **Enumeration.** The description speaks of the full Cartesian product of the four groups. The code evaluates far fewer combinations; see Findings.
- **Captain.** The description asks for exactly one captain among the starters. The code flags every one of the 15 rows whose `prob_3` equals the largest `prob_3` of the eleven. Bench rows are included, and ties flag several rows. `CaptainIsTopOfEleven` states the rule as written.

## Model

| member | source | states |
|---|---|---|
| BestPredictedSquad.ParseConstraint | PYTHON/best_predicted_squad.py:21-22 | no constraint exactly for a name outside {'budget', 'team', 'all', 'none'}; otherwise the constraint of that name |
| SquadProperties.InvalidConstraintExactly | PYTHON/best_predicted_squad.py:21-22 | both searches fail with InvalidConstraint if and only if the name is outside the four accepted ones |
| SquadProperties.SelectSquadIsNeverInvalid | PYTHON/best_predicted_squad.py:21-22 | once a constraint is accepted, the rest of the search never reports InvalidConstraint |
| BestPredictedSquad.CombinationIterators | PYTHON/best_predicted_squad.py:31-39 | the loop over the positions dict leaves, for each of the four groups in order, the combinations of its pool of the group's size |
| Predictions.RankIsTotalPreorder | PYTHON/best_predicted_squad.py:37-38 | the five-column descending key is reflexive, total and transitive, and mutual rank means equal keys |
| Predictions.SortByRank | PYTHON/best_predicted_squad.py:37-38 | sorting keeps the same rows with the same multiplicities, and the result is ordered highest rank first |
| Predictions.SortIsStable | PYTHON/best_predicted_squad.py:37-38 | rows that tie on the whole key keep their relative order |
| Predictions.SliceTo | PYTHON/best_predicted_squad.py:38 | Python's `[:k]` gives a prefix of length min(k, n), and a negative k counts from the end |
| Predictions.OfPosition | PYTHON/best_predicted_squad.py:31-34 | a position filter keeps only rows of that position, and only rows of the table |
| Predictions.PoolMembers | PYTHON/best_predicted_squad.py:31-38 | every pool row has the pool's position and comes from the table |
| Predictions.PoolRankedAndSliced | PYTHON/best_predicted_squad.py:37-38 | a pool is ranked highest first, and its length is min(rows_to_check, number of rows of that position); a negative bound is handled as Python does |
| Predictions.PoolKeepsTheBest | PYTHON/best_predicted_squad.py:37-38 | kept and dropped rows together are the position's rows, and every kept row ranks at least as high as every dropped row |
| Predictions.PoolDistinct | PYTHON/best_predicted_squad.py:31-38 | a table without repeated rows gives pools without repeated rows |
| Combinatorics.CombinationsCount | PYTHON/best_predicted_squad.py:39 | `combinations(s, k)` yields as many selections as the binomial coefficient of the input length and k |
| Combinatorics.CombinationLength | PYTHON/best_predicted_squad.py:39 | every yielded selection has k elements |
| Combinatorics.FirstCombination | PYTHON/best_predicted_squad.py:39 | with at least k elements, the first selection yielded is the first k elements |
| Combinatorics.NoCombinationsOfTooFew | PYTHON/best_predicted_squad.py:39 | with fewer than k elements nothing is yielded |
| Combinatorics.CombinationIsChoice | PYTHON/best_predicted_squad.py:75 | every selection is the masked choice of the input under a mask with exactly k flags set |
| Combinatorics.CombinationDistinct | PYTHON/best_predicted_squad.py:75 | a selection holds only input elements, and has no repetition when the input has none |
| SquadProperties.GroupCombinationsShape | PYTHON/best_predicted_squad.py:31-39 | a group has combinations if and only if its pool holds enough players; the first is the pool's top players, and their number is the binomial coefficient |
| SquadProperties.GroupCombinationMembers | PYTHON/best_predicted_squad.py:31-39 | a group combination has the group's size and position, comes from the table, and repeats no row when the table repeats none |
| DataCleaningFunctions.SumOfInformation | PYTHON/data_cleaning_functions.py:461-472 | the team list has one entry per player: the player's plays_for, in order |
| DataCleaningFunctions.SumOfInformationConcat | PYTHON/data_cleaning_functions.py:461-472 | the value, points and prob_3 totals of a concatenation are the sums of the parts' totals, and the team lists concatenate |
| BestPredictedSquad.MakeTeamCombTotals | PYTHON/best_predicted_squad.py:43-54 | a combination's value, points and probabilities are the totals over its 15 players, and its teams are the four groups' teams |
| BestPredictedSquad.CombFromGroupTotals | PYTHON/best_predicted_squad.py:43-54 | the loop body's sums of the four groups' totals build the combination, and its Counter is taken over the squad's teams |
| BestPredictedSquad.CombOfGroupTotals | PYTHON/best_predicted_squad.py:51-57 | the appended list is the combination, and the if/elif chain on the body's totals decides admission of that combination |
| BestPredictedSquad.WithForwards | PYTHON/best_predicted_squad.py:48-49 | one combination per forward triple, in iterator order, with the other three groups fixed |
| BestPredictedSquad.ForwardStep | PYTHON/best_predicted_squad.py:56-63 | one pass of the innermost body appends the combination if and only if the constraint admits it |
| BestPredictedSquad.ForwardLoop | PYTHON/best_predicted_squad.py:48-63 | the forward loop appends exactly the admitted combinations of its forward triples, in order |
| BestPredictedSquad.MidfielderLoop | PYTHON/best_predicted_squad.py:46-63 | only the first midfielder five meets an unconsumed forward iterator; the iterator is left empty when any five was drawn |
| BestPredictedSquad.DefenderLoop | PYTHON/best_predicted_squad.py:44-63 | only the first defender five meets unconsumed midfielder and forward iterators, and leaves both empty |
| BestPredictedSquad.EnumerateTeamCombs | PYTHON/best_predicted_squad.py:41-63 | team_combs is exactly the admitted combinations among those the single-pass iterators produce, in order |
| BestPredictedSquad.RetainedSnoc | PYTHON/best_predicted_squad.py:56-63 | visiting one more combination appends it to the kept ones exactly when it is admitted |
| BestPredictedSquad.RetainedMembership | PYTHON/best_predicted_squad.py:56-63 | every kept combination was visited and is admitted, and every admitted visited combination is kept |
| SquadProperties.RetainedConcat | PYTHON/best_predicted_squad.py:56-63 | filtering commutes with concatenating visited sequences |
| SquadProperties.UnconstrainedKeepsEverything | PYTHON/best_predicted_squad.py:62-63 | 'none' keeps every visited combination, in order |
| SquadProperties.AllIsTeamAfterBudget | PYTHON/best_predicted_squad.py:56-61 | 'all' keeps, in order, exactly what 'team' keeps of what 'budget' keeps |
| SquadProperties.RelaxingNeverLowersTheBest | PYTHON/best_predicted_squad.py:56-68 | a weaker constraint still finds a squad, with scores at least as high |
| BestPredictedSquad.FirstBest | PYTHON/best_predicted_squad.py:68 | the first element of a stable descending sort has a maximal score and strictly beats every element before it |
| SquadProperties.ChosenCombIsBest | PYTHON/best_predicted_squad.py:56-68 | the chosen combination was visited and is admitted, meets the budget and club caps its constraint names, no admitted visited combination beats it, and it strictly beats every admitted combination kept before it |
| SquadProperties.CartesianCount | PYTHON/best_predicted_squad.py:42-48 | the intended loops visit as many combinations as the product of the four groups' counts |
| SquadProperties.CartesianIsComplete | PYTHON/best_predicted_squad.py:42-48 | the intended loops visit every choice of the four groups |
| SquadProperties.CartesianMember | PYTHON/best_predicted_squad.py:42-48 | everything the intended loops visit is such a choice |
| SquadProperties.EnumeratedIsPrefixOfCartesian | PYTHON/best_predicted_squad.py:39-48 | what the loops as written visit is a prefix of what the intended loops visit |
| SquadProperties.AsWrittenCandidatesAreIntended | PYTHON/best_predicted_squad.py:39-48 | every combination visited as written is one the intended search visits |
| SquadProperties.AsWrittenFixesThreeGroups | PYTHON/best_predicted_squad.py:39-48 | as written, C(n, 3) combinations are visited for n forwards in the pool when three pools are large enough, and none otherwise; all share the top two goalkeepers, top five defenders and top five midfielders |
| SquadProperties.AsWrittenMember | PYTHON/best_predicted_squad.py:39-48 | a combination visited as written has the three top groups and a forward triple of the pool |
| SquadProperties.ConsumedIteratorsMissAnAffordableSquad | PYTHON/best_predicted_squad.py:39-63 | a concrete input where the loops as written keep nothing under 'budget' while the intended loops keep a squad |
| SquadProperties.AsWrittenBudgetNeedsTopGroupsAffordable | PYTHON/best_predicted_squad.py:39-66 | as written, 'budget' reports no combination whenever the top goalkeepers, defenders and midfielders alone exceed 1000 |
| SheetProperties.SharedIteratorsMissAffordableSquad | PYTHON/best_predicted_squad.py:39-66 | on any table whose top goalkeepers, defenders and midfielders exceed 1000 while some other choice of the four groups fits the budget, 'budget' fails as written, and the intended search keeps a squad and builds the sheet of its best one |
| SquadProperties.IntendedCandidateShape | PYTHON/best_predicted_squad.py:31-54 | every intended combination has 2/5/5/3 players of the right positions from the table, with sums as built, and no repeated row when the table has none |
| SquadProperties.DistinctSquad | PYTHON/best_predicted_squad.py:70-73 | groups of different positions share no row, so the 15-player squad repeats none |
| BestPredictedSquad.SquadOf | PYTHON/best_predicted_squad.py:70-73 | the loop concatenates goalkeepers, defenders, midfielders and forwards of the chosen combination |
| BestPredictedSquad.KeepLegal | PYTHON/best_predicted_squad.py:77-85 | the kept elevens are exactly the input selections with one goalkeeper and at least three defenders, three midfielders and one forward |
| BestPredictedSquad.StartingElevens | PYTHON/best_predicted_squad.py:75-85 | the loop keeps the legal 11-selections, in order |
| BestPredictedSquad.ElevenStats | PYTHON/best_predicted_squad.py:87-90 | one (points, probabilities) score per legal eleven, in order |
| SquadProperties.LegalElevenExists | PYTHON/best_predicted_squad.py:75-85 | every 2/5/5/3 squad has a legal eleven |
| SheetProperties.ChosenElevenIsBest | PYTHON/best_predicted_squad.py:92-95 | the chosen eleven is a legal 11-selection of the squad, no legal selection beats it, and it strictly beats every legal selection listed before it |
| SheetProperties.ElevenRows | PYTHON/best_predicted_squad.py:95 | the chosen eleven's rows are squad rows, without repetition when the squad has none |
| DataCleaningFunctions.NotInBoth | PYTHON/data_cleaning_functions.py:483 | the kept elements are exactly those of the input missing from one of the two lists |
| DataCleaningFunctions.DifferenceBetweenLists | PYTHON/data_cleaning_functions.py:475-483 | the result holds exactly the elements in one list but not the other |
| DataCleaningFunctions.DifferenceOfSublist | PYTHON/data_cleaning_functions.py:475-483 | when list1 is contained in list2, the result is list2's elements outside list1, in list2's order |
| SquadProperties.BenchIsComplement | PYTHON/best_predicted_squad.py:97 | in a squad without repeated rows, the bench is the complementary selection of the eleven, in squad order; together they are the squad |
| SquadProperties.BenchOfDistinctSquad | PYTHON/best_predicted_squad.py:97-104 | for a legal eleven the bench has four rows: the other goalkeeper first, then three outfield rows |
| BestPredictedSquad.MaxProb3 | PYTHON/best_predicted_squad.py:110 | the largest prob_3 of the eleven is one of its values and bounds all of them |
| BestPredictedSquad.SquadSheet | PYTHON/best_predicted_squad.py:108-110 | the sheet has the eleven plus four bench rows, and its captain column flags the rows whose prob_3 equals the eleven's maximum |
| SheetProperties.SheetLayout | PYTHON/best_predicted_squad.py:99-108 | the sheet is the eleven as chosen, the bench goalkeeper as SubGK, then the other three bench rows ranked and labelled Sub1, Sub2, Sub3 |
| SheetProperties.CaptainIsTopOfEleven | PYTHON/best_predicted_squad.py:110 | over all rows, bench included, the flag is 1 exactly where prob_3 is the eleven's largest, and 0 elsewhere |
| SheetProperties.CaptainAmongStarters | PYTHON/best_predicted_squad.py:110 | at least one starter is flagged captain |
| SheetProperties.StartingSheetOfWellFormed | PYTHON/best_predicted_squad.py:75-110 | a 2/5/5/3 squad without repeated rows always reaches a sheet; its eleven is legal, and its four bench rows with the eleven make up the squad |
| SheetProperties.SheetIsDelivered | PYTHON/best_predicted_squad.py:99-110 | a legal eleven of distinct table rows, with a goalkeeper first on the bench, gives a 15-row labelled sheet with a starting captain |
| SheetProperties.SheetOfCandidate | PYTHON/best_predicted_squad.py:68-110 | any combination of the search on a table without repeated rows yields such a sheet |
| BestPredictedSquad.PickStartingEleven | PYTHON/best_predicted_squad.py:75-110 | the eleven, bench and captain steps compute the sheet of the specification |
| BestPredictedSquad.GetBestSquad | PYTHON/best_predicted_squad.py:21-110 | the whole procedure, with its single-pass iterators, computes BestSquad |
| SheetProperties.SelectSquadOutcome | PYTHON/best_predicted_squad.py:65-110 | over intended candidates of a table without repeated rows, selection fails only with NoTeamCombinations, exactly when nothing is admitted; otherwise it yields a valid sheet |
| SheetProperties.BestSquadOutcome | PYTHON/best_predicted_squad.py:21-110 | as written, the only failures are an unknown constraint and no admitted combination; the latter holds exactly when the loops keep nothing; otherwise the sheet is valid |
| SheetProperties.IntendedBestSquadOutcome | PYTHON/best_predicted_squad.py:21-110 | the same for the search over every choice of the four groups |
| SheetProperties.IntendedFailsOnlyWhenNothingAdmitted | PYTHON/best_predicted_squad.py:41-66 | the intended search keeps nothing if and only if the constraint admits no choice of the four groups |
| SheetProperties.IntendedSearchIsOptimal | PYTHON/best_predicted_squad.py:41-68 | no admitted choice of the four groups beats the squad the intended search picks |
| SheetProperties.NoChoiceWithoutAGroup | PYTHON/best_predicted_squad.py:42-48 | with one group yielding no combination, neither enumeration visits anything |
| SheetProperties.TooFewPlayersMeansNoSquad | PYTHON/best_predicted_squad.py:31-66 | a pool smaller than its group leaves both searches with nothing to keep |
| DataCleaningFunctions.MinutesPlayedKeepsPlayers | PYTHON/data_cleaning_functions.py:13 | every minutes value the filter keeps is positive, and it keeps as many rows as have positive minutes |
| DataCleaningFunctions.MinutesPlayedKeepsRows | PYTHON/data_cleaning_functions.py:13 | in any column, each row with positive minutes is kept at the position counting the played rows before it, so the kept rows are the played rows in order |
| DataCleaningFunctions.GameweeksFrame.MinutesPlayed | PYTHON/data_cleaning_functions.py:13 | a new frame holds every column cut to the rows with positive minutes |
| DataCleaningFunctions.AdjustedPoints | PYTHON/data_cleaning_functions.py:183-184 | one value per row: below 60 minutes the points minus one, otherwise minus two |
| DataCleaningFunctions.AdjustedAfterMinutesPlayed | PYTHON/data_cleaning_functions.py:183-184 | after minutes_played, adjusted points plus the appearance award give back the total points on every row |
| DataCleaningFunctions.GameweeksFrame.AdjustPoints | PYTHON/data_cleaning_functions.py:183-184 | writes the adjusted_points column and no other |
| DataCleaningFunctions.HomeAway | PYTHON/data_cleaning_functions.py:193 | one letter per row: H exactly where the row was a home game, A exactly where it was not |
| DataCleaningFunctions.Won | PYTHON/data_cleaning_functions.py:193-196 | one value in -1..1 per row; 0 exactly on a draw; 1 exactly when the result is not a draw and names the player's side |
| DataCleaningFunctions.WonIsAntisymmetric | PYTHON/data_cleaning_functions.py:193-196 | for H, A or D the two sides get opposite values; any other letter counts as a loss for both |
| DataCleaningFunctions.GameweeksFrame.WonTheGame | PYTHON/data_cleaning_functions.py:193-196 | writes the won column from was_home and FTR, and no other |
| DataCleaningFunctions.PlaysFor | PYTHON/data_cleaning_functions.py:120-121 | one team per row: the home team on a home row, the away team on an away row |
| DataCleaningFunctions.GameweeksFrame.PlayedFor | PYTHON/data_cleaning_functions.py:120-121 | writes plays_for from was_home, home_team and away_team, and no other |
| DataCleaningFunctions.NeverPlaysForOpponent | PYTHON/data_cleaning_functions.py:102-121 | after home_and_away_teams and played_for, no player plays for its opponent, and the two teams are its team and its opponent |
| DataCleaningFunctions.GameweeksFrame.HomeAndAwayTeams | PYTHON/data_cleaning_functions.py:102-111 | an empty frame raises ValueError. The first fixture KeyError or IndexError in the home pass leaves both columns unchanged, and one in the away pass leaves only away_team unchanged. Otherwise both columns are filled from the fixture sets |
| DataCleaningFunctions.GameweeksFrame.FillFromFixtures | PYTHON/data_cleaning_functions.py:106-111 | one comprehension fails exactly at the first row lookup that raises; otherwise rows on its side get another team of their fixture and the others their opponent |
| DataCleaningFunctions.FixtureTeamIsDetermined | PYTHON/data_cleaning_functions.py:104-111 | when a fixture's opponent set holds both clubs, the team filled in is the uniquely determined other club |
| DataCleaningFunctions.MaxOf | PYTHON/data_cleaning_functions.py:103 | `max` of a non-empty column is one of its values and bounds all of them |
| DataCleaningFunctions.ShiftWasHome | PYTHON/data_cleaning_functions.py:400-401 | 1 exactly where the shifted home team is the player's team, 0 elsewhere |
| DataCleaningFunctions.NextFixturesFrame.ShiftedWasHome | PYTHON/data_cleaning_functions.py:400-401 | writes shift_was_home and no other column |
| DataCleaningFunctions.ShiftedOpponentIsTheOtherTeam | PYTHON/data_cleaning_functions.py:400-412 | for a row whose team plays in its fixture between two clubs, the shifted opponent is the other club |
| DataCleaningFunctions.ShiftOpponent | PYTHON/data_cleaning_functions.py:410-412 | one team per row: the away team where the home flag is nonzero, the home team where it is 0 |
| DataCleaningFunctions.NextFixturesFrame.ShiftedOpponent | PYTHON/data_cleaning_functions.py:410-412 | writes shift_opponent from shift_was_home and the two teams, and no other column |
| DataCleaningFunctions.SortedUnique | PYTHON/data_cleaning_functions.py:93 | `sorted(unique())` is strictly increasing and holds exactly the names of the column |
| DataCleaningFunctions.InsertNameSorted | PYTHON/data_cleaning_functions.py:93 | inserting a name keeps a list strictly increasing |
| DataCleaningFunctions.StrLessTotal | PYTHON/data_cleaning_functions.py:93 | Python's string order is total |
| DataCleaningFunctions.CleanedTeamNames | PYTHON/data_cleaning_functions.py:92-93 | a cell equal to a code of the table (an int, or a float with no fractional part, as Python's `==` compares them) becomes that code's name; every other cell is kept |
| DataCleaningFunctions.TeamCodesNumberTheTeams | PYTHON/data_cleaning_functions.py:93 | every home-team name has a code, every code names a home team, and lower codes name alphabetically earlier teams |
| DataCleaningFunctions.CleanTeamNamesIsInjective | PYTHON/data_cleaning_functions.py:92-93 | two coded cells get the same name if and only if they equal the same code |
| DataCleaningFunctions.GameweeksFrame.CleanTeamNames | PYTHON/data_cleaning_functions.py:92-93 | rewrites opponent_team through the code table, and no other column |
| DataCleaningFunctions.PositionNames | PYTHON/data_cleaning_functions.py:80 | one output per element_type cell: the position a cell equal to 1-4 names, whether it holds an int or a whole float, and the cell itself otherwise |
| DataCleaningFunctions.PositionCodesAreTheSquadPositions | PYTHON/data_cleaning_functions.py:80 | codes 1-4 name GK, DEF, MID and FWD one-to-one; a float equal to one of them gets the same name; any other cell is left as it was |
| DataCleaningFunctions.PositionNamesOfFloatColumn | PYTHON/data_cleaning_functions.py:74-80 | the float column an unmatched LEFT JOIN row leaves, [1.0, NaN, 4.0], becomes [GK, NaN, FWD] |
| DataCleaningFunctions.Present | PYTHON/data_cleaning_functions.py:369 | `dropna()` keeps exactly the values present in the column |
| DataCleaningFunctions.MinOf | PYTHON/data_cleaning_functions.py:369 | `min` of the present values is one of them and bounds all of them |
| DataCleaningFunctions.Cut | PYTHON/data_cleaning_functions.py:368-370 | every present value gets its right-closed bin label, and NaN stays NaN |
| DataCleaningFunctions.ShiftedPointsRangeErrors | PYTHON/data_cleaning_functions.py:367-370 | the bucketing raises exactly when no value is present, or when the bin edges do not increase strictly (minimum ≥ 0 or maximum ≤ 10) |
| DataCleaningFunctions.MinimumIsUnlabelled | PYTHON/data_cleaning_functions.py:368-370 | as written, a value is left unlabelled exactly when it is NaN or equals the minimum |
| DataCleaningFunctions.MinimumIsUnlabelledExample | PYTHON/data_cleaning_functions.py:368-370 | shift_points [-3, 2, 12] are labelled [NaN, 1, 3] |
| DataCleaningFunctions.IncludingLowestLabelsEveryValue | PYTHON/data_cleaning_functions.py:368-370 | with the lowest edge included, every present value is labelled, labels never decrease with the points, and only the minimum's label differs from the as-written version |
| DataCleaningFunctions.CutIncludingLowest | PYTHON/data_cleaning_functions.py:368-370 | bins opening just below the minimum label every value in order and agree with the as-written bins above the minimum |
| DataCleaningFunctions.CutLabelMonotone | PYTHON/data_cleaning_functions.py:368-370 | inside the outer edges every value is labelled, and labels never decrease |
| DataCleaningFunctions.FixedColumns | PYTHON/data_cleaning_functions.py:496-499 | exactly the wanted columns, in the wanted order; a column that existed keeps its values and a missing one is all zeros |
| DataCleaningFunctions.FixedColumnsIsIdempotent | PYTHON/data_cleaning_functions.py:496-499 | fixing a frame that was already fixed for the same columns changes nothing |
| DataCleaningFunctions.DataFrame.AddZeroColumn | PYTHON/data_cleaning_functions.py:498 | appends one zero column of the frame's height and changes nothing else |
| DataCleaningFunctions.DataFrame.FixColumns | PYTHON/data_cleaning_functions.py:496-499 | adds zero columns for exactly the missing wanted ones, keeps existing ones unchanged, and returns the wanted columns in order |

## Left out

- Reading `predictions.csv` and `next_fixtures.csv`, the hard-coded path, `next_round`, `os.mkdir`, writing the squad CSV and the `print` of the failure message, at PYTHON/best_predicted_squad.py:24-29, 66 and 112-113. These are file and console I/O. The table is a parameter, the sheet is the result, and the printed message is `Failure(NoTeamCombinations)`.
- The DataFrame index made by `set_index('position')`. The label stays in each row's position field instead.
- The pandas errors raised when the chosen squad has no legal eleven, or a bench of other than four rows. They are modelled as `NoLegalStartingEleven` and `BenchSizeMismatch`. Both are proved impossible on a table without repeated rows, but they are not characterised for tables with repeated rows.
- SheetProperties.SelectSquadOutcome: requires a predictions table without repeated rows. Two equal rows can make `difference_between_lists` return fewer than four bench rows.
- SheetProperties.BestSquadOutcome: requires a predictions table without repeated rows, for the same reason.
- SheetProperties.IntendedBestSquadOutcome: requires a predictions table without repeated rows, for the same reason.
- DataCleaningFunctions.GameweeksFrame.FillFromFixtures: the team taken from a fixture's opponent set is the first in Python's set iteration order. The model allows any other team of the set. It is unique when the set holds two clubs, as FixtureTeamIsDetermined states.
- DataCleaningFunctions.DataFrame.FixColumns: the missing columns are added in some order, because Python iterates a set in an unspecified order. Only the returned selection is fully determined.
- Dropping the `shift_points` column after bucketing, at PYTHON/data_cleaning_functions.py:371. The model returns the bucketed column as a value and keeps no frame with a `shift_points` column to drop.
- The default `rows_to_check=30` of `get_best_squad`, at PYTHON/best_predicted_squad.py:8. Every model member takes the pool size as an argument, and a call that omits it is the call with 30.
- The running time of the enumeration. It is exponential in `rows_to_check`, and only the result is specified.
- The rest of the data-cleaning module. This covers SQL and SQLite joins, means and rolling statistics, odds ratios, date handling and name cleaning. It also covers the scraping, model-training and pipeline scripts. None of these is called by the selector.

## Findings

| source | as written | input that shows it | evidently intended | confidence | as-written member | corrected member |
|---|---|---|---|---|---|---|
| PYTHON/best_predicted_squad.py:39-48 | The four `combinations` iterators are created once and re-iterated in the nested loops. The defender and midfielder iterators are consumed by their first pass, so only the top two goalkeepers, top five defenders and top five midfielders are combined with each forward triple. | The loops given the group choices `[[g]]`, `[[a], [b]]`, `[[m]]` and `[[f]]` directly, where each of g, a, b, m and f is one row priced 100, except a at 900, under 'budget'. As written only the choice with a is visited, and it is over budget, so nothing is kept. The full product also visits the choice with b, which is admitted. SheetProperties.SharedIteratorsMissAffordableSquad lifts this to whole predictions tables. | Every choice of the four groups is evaluated, the Cartesian product the nested loops spell out. | not executed | SquadProperties.ConsumedIteratorsMissAnAffordableSquad | SheetProperties.IntendedSearchIsOptimal |
| PYTHON/data_cleaning_functions.py:368-370 | The bins start at `min(shift_points)`. `pd.cut` bins are right-closed and `include_lowest` defaults to False, so the minimum lies outside every bin and gets NaN. | shift_points [-3, 2, 12] are labelled [NaN, 1, 3]. | The minimum is labelled 0, as `include_lowest=True` would give. | not executed | DataCleaningFunctions.MinimumIsUnlabelledExample | DataCleaningFunctions.IncludingLowestLabelsEveryValue |
