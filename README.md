# Monty Hall game core, modelled in Dafny

The repository is a web front end for the Monty Hall game. A prize hides
behind one of three doors. The player picks a door, and the host ("Monty")
may then open a door. The player is offered a switch, and the round ends
as a win or a loss.

The host's behaviour is one of four modes: standard, evil, secretive or
custom. Each built-in mode is a 4 × 2 table of action probabilities. The
rows are open the prize, open the pick, open the other door, and open
nothing. The column is chosen by whether the pick is the prize. The engine
walks the rows, accumulating probabilities, until the running sum exceeds a
random draw.

This project models:

- the host decision engine and its tables (`montyTables.dfy`, `montyEngine.dfy`);
- the shared vocabulary (`montyTypes.dfy`);
- the round state machine of the main game component (`playPageComp.dfy`);
- the older round state machine of the data-collection page (`playPage.dfy`);
- the door-status display shared by both (`roundView.dfy`);
- the Monte Carlo simulator of the main component (`simulation.dfy`);
- the custom-host configuration form's validator (`customMontyForm.dfy`);
- the decision-tree panel's traversals, expansion controls, win rates and
  drawing height (`treeVisualization.dfy`).

Every `Math.random()` becomes a real parameter `r` with `0 <= r < 1`. This
makes every operation deterministic, so facts can be proved for every draw.

JavaScript numbers become exact reals and unbounded integers. `null` and
optional fields become `Option`. A thrown error becomes a `Result` failure.

The two React components whose handlers update state step by step become
classes: `PlayPageComp.MontyGame` and `PlayPage.PlayPageGame`. Each class has
a round invariant `Valid()` that every handler preserves. The simulator
panel, the form and the tree panel are also classes. Their methods state
the new value of every field they modify, but these classes have no
invariant. The loops of the source are methods with loop invariants:

- the engine's row walk;
- the trial loop;
- the tree traversals.

Each loop method is proved equal to a specification function. The lemmas
are then proved about that function.

Where the program's own comments or forms promise more than its code does,
the model follows the code:

- **Prize pick, standard and evil hosts.** The table comments at
  `src/logic/montyTables.ts:41` and `:53` say that when the player picked the
  prize, the host picks one door at random. The code gives that case a
  one-hot column 0 on row 2, which maps through the `find` at
  `src/logic/montyTables.ts:95-97`. So the host always opens the
  lowest-numbered other door.
- **Custom host.** The form at `src/components/CustomMontyForm.tsx:25-42`
  collects an opening chance, a knows-the-prize flag and per-case weights
  (the picked door, the closest and farthest doors, none; and one weight per
  door when the host does not know the prize). The record it submits is
  handed to `montyOpensDoor` as its `customTable` argument
  (`src/logic/montyEngine.ts:68-81`), where a table is expected. That record
  has no `length`, so the row walk at `src/logic/montyEngine.ts:99` runs zero
  times and the host never opens a door. None of the form's weights reach
  the engine. The model passes a table of zero rows
  (`PlayPageComp.ConfigAsTable`).
- **Simulator.** The simulator's trial at
  `src/components/PlayPageComp/PlayPageComp.tsx:186-212` has its own rules,
  which differ from the manual flow's at
  `src/components/PlayPageComp/PlayPageComp.tsx:273-293`:
  - it counts any trial where the host opened the pick as a loss, without
    the manual flow's knows-the-prize gate;
  - it never offers a switch when no door was opened in a non-custom mode,
    whereas the manual flow always offers one to a secretive host. So
    secretive trials always keep the first pick
    (`Simulation.SecretiveTrialKeepsFirstPick`).
- **Stale display.** A trial that exits early skips the progress snapshot.
  A run whose last trial exits early therefore leaves the display at the
  previous snapshot (`Simulation.EarlyFinalTrialLeavesStaleSnapshot`).

The configuration record's type is imported from `src/logic/types.ts` but is
not declared in the version of that file modelled here. The model takes its
shape from the record that `src/components/CustomMontyForm.tsx:82-102` builds.

## Model

| member | source | states |
|---|---|---|
| MontyTypes.OutcomeOf | src/components/PlayPageComp/PlayPageComp.tsx:365 | a round is won exactly when the final door is the prize door |
| MontyTypes.FirstDoorOtherThan | src/logic/montyTables.ts:97 | the result of `find(d => d !== a && d !== b)` is a listed door other than a and b, absent exactly when every door is a or b, and the lowest such door in an ascending list |
| MontyTypes.OtherDoorOfDefault | src/logic/montyTables.ts:95-97 | in the three-door game some door differs from any two doors; for two distinct doors of the game it is the unique third door |
| MontyTypes.OtherDoor | src/logic/montyTables.ts:97 | the non-null assertion on `find` is safe for the default doors: the result is a door of the game, differs from both arguments, and is the lowest such door |
| MontyTables.BuiltInTablesWellFormed | src/logic/montyTables.ts:23-72 | the standard, evil and secretive tables have one row per action in `MontyActions` order, non-negative entries, and columns summing to exactly 1 |
| MontyTables.MapRowIndexToDoor | src/logic/montyTables.ts:85-101 | row k yields the door of action k (prize, pick, the other non-prize door, nothing); row 2 yields a game door differing from prize and pick; any other index yields null |
| MontyTables.MappedDoorInGame | src/logic/montyTables.ts:85-101 | when prize and pick are doors of the game, any door a row maps to is a door of the game |
| MontyTables.OtherRowWhenPickIsPrize | src/logic/montyTables.ts:95-97 | when the pick is the prize, row 2 yields door 2 for door 1 and door 1 otherwise: the lowest other door, not a random one |
| MontyEngine.Remaining | src/logic/montyEngine.ts:19 | the filtered door list holds exactly the doors not excluded |
| MontyEngine.ScaledIsProduct | src/logic/montyEngine.ts:20 | the index computation's scaled draw equals `r * n` |
| MontyEngine.ScaledIndex | src/logic/montyEngine.ts:20 | `Math.floor(r * n)` is a valid index below n, and it is the floor of the scaled draw |
| MontyEngine.GetRandomDoor | src/logic/montyEngine.ts:18-21 | the drawn door is a game door not in the exclude list, and a door is drawn exactly when one remains |
| MontyEngine.PickPrizeDoor | src/logic/montyEngine.ts:26-28 | the prize door is one of doors 1, 2, 3 |
| MontyEngine.PickRandomMontyType | src/logic/montyEngine.ts:40-48 | a randomly chosen mode is never custom |
| MontyEngine.TableFor | src/logic/montyEngine.ts:75-89 | table selection fails exactly for custom without a table, and custom with a table uses it |
| MontyEngine.ColumnFor | src/logic/montyEngine.ts:92 | column 0 is used exactly when the pick is the prize, column 1 otherwise |
| MontyEngine.SelectFrom | src/logic/montyEngine.ts:99-105 | the scan from row k stops at the first row whose running sum exceeds r, or at no row when none does |
| MontyEngine.SelectRow | src/logic/montyEngine.ts:95-108 | the selected row is the first whose cumulative column sum strictly exceeds r; no row is selected exactly when no prefix sum exceeds r |
| MontyEngine.HostDecision | src/logic/montyEngine.ts:68-108 | fails exactly for custom without a table; any opened door is the prize, the pick or the other door |
| MontyEngine.MontyOpensDoor | src/logic/montyEngine.ts:68-108 | the accumulator loop with early return computes exactly HostDecision: the mapped door of the first covering row, else null |
| MontyEngine.FirstCoverIsSelected | src/logic/montyEngine.ts:99-104 | the row where the loop returns is the row SelectRow names |
| MontyEngine.BuiltInIgnoresCustomTable | src/logic/montyEngine.ts:75-89 | a built-in mode's decision does not depend on any custom table passed along |
| MontyEngine.StandardOpensThirdDoor | src/logic/montyTables.ts:44-49 | standard mode with a wrong pick opens the unique door that is neither prize nor pick, for every draw in [0,1) |
| MontyEngine.StandardOpensLowestOtherWhenPickIsPrize | src/logic/montyTables.ts:44-49 | standard mode with the prize picked opens the lowest other door, for every draw |
| MontyEngine.EvilOpensPrize | src/logic/montyTables.ts:56-61 | evil mode with a wrong pick opens the prize door, for every draw in [0,1) |
| MontyEngine.EvilOpensLowestOtherWhenPickIsPrize | src/logic/montyTables.ts:56-61 | evil mode with the prize picked opens the lowest other door, for every draw |
| MontyEngine.SecretiveOpensNothing | src/logic/montyTables.ts:67-72 | secretive mode opens no door, for every draw and every prize and pick |
| MontyEngine.EmptyTableOpensNothing | src/logic/montyEngine.ts:99-108 | a table without rows makes the loop run zero times and the engine return null |
| MontyEngine.BuiltInTableScan | src/logic/montyEngine.ts:99-105 | a column holding a single 1 selects that row for every draw in [0,1) |
| MontyEngine.DrawAboveTotalOpensNothing | src/logic/montyEngine.ts:107-108 | with non-negative entries, a draw at or above the column total selects no row: the residual mass means no door |
| MontyEngine.FullColumnSelectsARow | src/logic/montyEngine.ts:99-105 | a column summing to 1 always selects some row for a draw in [0,1) |
| CustomMontyForm.BuildConfig | src/components/CustomMontyForm.tsx:82-102 | the configuration record carries every input verbatim: reading the inputs back gives the inputs |
| CustomMontyForm.AcceptedConfigSums | src/components/CustomMontyForm.tsx:46-57 | the sums the validator checks (the four picked-prize weights, the three not-prize weights, the three per-door weights) are those of the submitted record: an accepted record's distributions sum to 1 within the tolerance, or at most 1 plus the tolerance without prize knowledge |
| CustomMontyForm.Validate | src/components/CustomMontyForm.tsx:63-78 | accepted exactly when the selected regime's sums are within tolerance; the picked sum is checked before the not-picked sum; each rejection carries its sum; an acceptance yields the inputs unrenormalised |
| CustomMontyForm.Form.constructor | src/components/CustomMontyForm.tsx:25-44 | the form starts with the default inputs and no error |
| CustomMontyForm.Form.HandleSubmit | src/components/CustomMontyForm.tsx:63-105 | a rejection sets the error and submits nothing; an acceptance clears the error and submits the validated configuration |
| CustomMontyForm.DefaultInputsAccepted | src/components/CustomMontyForm.tsx:25-42 | the default inputs pass validation in both regimes under exact arithmetic |
| CustomMontyForm.UnknownRegimeAcceptsSumsUpToOne | src/components/CustomMontyForm.tsx:73-77 | without prize knowledge any per-door sum up to 1 passes |
| CustomMontyForm.RegimesIndependent | src/components/CustomMontyForm.tsx:63-78 | each regime reads only its own sums: inputs agreeing on those sums get the same verdict and error |
| CustomMontyForm.NegativeWeightAccepted | src/components/CustomMontyForm.tsx:63-78 | signs of weights and the opening chance are never checked |
| RoundView.StatusOf | src/components/PlayPageComp/PlayPageComp.tsx:425-432 | with a result the prize door reads prize and every other door opened; before finalisation the opened door reads opened and the pick selected; both directions |
| RoundView.DoorDisabled | src/components/PlayPageComp/PlayPageComp.tsx:439-441 | doors are disabled once there is a result, and after the first pick outside second-pick mode for a non-secretive host; they are enabled before the first pick, in second-pick mode, and for a secretive host until the result |
| RoundView.AllDoorsRevealedAtEnd | src/components/PlayPageComp/PlayPageComp.tsx:427-428 | at the end of a round no door is closed or selected, and exactly one door reads as the prize |
| PlayPageComp.ShouldOfferSwitchUntilOpenCustom | src/components/PlayPageComp/PlayPageComp.tsx:35-43 | false when the flag is off; otherwise true exactly when no door was opened or the opened door is neither the pick nor the prize |
| PlayPageComp.ConfigAsTable | src/components/PlayPageComp/PlayPageComp.tsx:264-269 | the configuration record handed to the engine as a table has no rows |
| PlayPageComp.ImmediateResult | src/components/PlayPageComp/PlayPageComp.tsx:273-278 | a shown prize decides the round (win exactly when it is the pick); a shown pick is a loss exactly when the host knows the prize; otherwise nothing is decided |
| PlayPageComp.OfferSwitch | src/components/PlayPageComp/PlayPageComp.tsx:281-293 | custom with a configuration offers exactly when undecided and the custom rule allows; otherwise no offer once decided, secretive always offers, and other modes offer exactly when a door was opened |
| PlayPageComp.MontyGame.constructor | src/components/PlayPageComp/PlayPageComp.tsx:85-94 | a fresh round: drawn prize door, the given or a random built-in mode, nothing picked; the round invariant holds |
| PlayPageComp.MontyGame.HandleInitialPick | src/components/PlayPageComp/PlayPageComp.tsx:261-318 | no-op once picked or when the engine throws; otherwise records the pick and the host's door, and auto-settles as a stay (reported) when nothing is offered or decided; else stores the offer and the immediate result with no final pick |
| PlayPageComp.MontyGame.HandleChoice | src/components/PlayPageComp/PlayPageComp.tsx:329-357 | no-op unless picked, offered and unsettled; stay settles on the pick; switch after a concrete non-secretive opening settles on the door that is neither pick nor opened; otherwise enters second-pick mode |
| PlayPageComp.MontyGame.HandleFinalPick | src/components/PlayPageComp/PlayPageComp.tsx:363-369 | acts only in second-pick mode with nothing settled: settles on the door with its true outcome, leaves second-pick mode, and reports a switch |
| PlayPageComp.MontyGame.ResetGame | src/components/PlayPageComp/PlayPageComp.tsx:375-386 | a new prize door, every round field cleared, the mode kept |
| PlayPageComp.MontyGame.ClickDoor | src/components/PlayPageComp/PlayPageComp.tsx:434-441 | a disabled door changes nothing. Before any pick, a click has the effect of HandleInitialPick for that door. In second-pick mode, a click on another door with no result has the effect of HandleFinalPick. Any other click changes nothing. A settled second pick never lands on the first pick, and the round invariant is kept |
| PlayPageComp.StandardRoundOffersSwitch | src/components/PlayPageComp/PlayPageComp.tsx:271-293 | standard host, wrong pick: the third door opens, nothing is decided, and a switch is offered |
| PlayPageComp.EvilRoundLosesAtOnce | src/components/PlayPageComp/PlayPageComp.tsx:271-293 | evil host, wrong pick: the prize is shown, the round is lost at once, and no switch is offered |
| PlayPageComp.SecretiveRoundAlwaysOffers | src/components/PlayPageComp/PlayPageComp.tsx:286-293 | secretive host: no door opens, nothing is decided, and a switch is offered |
| PlayPageComp.CustomRoundOffersExactlyWhenFlagged | src/components/PlayPageComp/PlayPageComp.tsx:282-285 | custom host with a configuration: no door opens, nothing is decided, and a switch is offered exactly when the flag is on |
| PlayPageComp.CustomWithoutConfigFails | src/logic/montyEngine.ts:76-82 | custom mode without a configuration makes the engine fail for every draw |
| PlayPage.LegacyOffer | src/pages/PlayPage/PlayPage.tsx:54-59 | secretive always offers; evil does not when it opened the pick; otherwise an offer exactly when a door was opened |
| PlayPage.LegacyImmediate | src/pages/PlayPage/PlayPage.tsx:62-64 | the only immediate result is a loss, exactly when an evil host opened the prize door |
| PlayPage.PlayPageGame.constructor | src/pages/PlayPage/PlayPage.tsx:33-42 | a fresh round with a drawn prize door and a random built-in mode; the round invariant holds |
| PlayPage.PlayPageGame.HandleInitialPick | src/pages/PlayPage/PlayPage.tsx:45-73 | no-op once picked; otherwise records the pick, the host's door, the older offer and the immediate result |
| PlayPage.PlayPageGame.HandleChoice | src/pages/PlayPage/PlayPage.tsx:82-120 | no-op unless picked, offered and unsettled; stay settles on the pick; switch under a secretive host enters second-pick mode, otherwise settles on the door that is neither pick nor opened |
| PlayPage.PlayPageGame.HandleFinalPick | src/pages/PlayPage/PlayPage.tsx:126-140 | acts only in second-pick mode with nothing settled; settles on the door with its true outcome and leaves second-pick mode on |
| PlayPage.PlayPageGame.ResetGame | src/pages/PlayPage/PlayPage.tsx:143-154 | a new prize door, every round field cleared, the mode kept |
| PlayPage.PlayPageGame.ClickDoor | src/pages/PlayPage/PlayPage.tsx:182-198 | a disabled door changes nothing. Before any pick, a click has the effect of HandleInitialPick for that door. In second-pick mode, a click on another door with no result settles on it. Any other click changes nothing. The round invariant is kept |
| PlayPage.EvilWrongPickLeavesDeadOffer | src/pages/PlayPage/PlayPage.tsx:54-90 | evil host, wrong pick: the round is lost and a switch stays offered, yet the choice guard refuses it |
| PlayPage.LegacySecretiveOffers | src/pages/PlayPage/PlayPage.tsx:54-64 | secretive host: no door opens, a switch is offered, nothing is decided |
| PlayPage.LegacyStandardOffers | src/pages/PlayPage/PlayPage.tsx:54-64 | standard host, wrong pick: the third door opens, a switch is offered, nothing is decided |
| Simulation.InitialPick | src/components/PlayPageComp/PlayPageComp.tsx:178 | the simulated first pick is a door of the game |
| Simulation.SimulatedOffer | src/components/PlayPageComp/PlayPageComp.tsx:197-204 | custom with a configuration follows the custom rule; every other mode offers exactly when a door was opened |
| Simulation.ShouldSwitch | src/components/PlayPageComp/PlayPageComp.tsx:207-212 | staying never takes an offered switch, switching always does, and the random strategy does exactly when its coin is below 1/2 |
| Simulation.SwitchTarget | src/components/PlayPageComp/PlayPageComp.tsx:214-221 | a switch lands on a door other than the pick; after a concrete non-secretive opening it is the door that is neither pick nor opened |
| Simulation.Settle | src/components/PlayPageComp/PlayPageComp.tsx:182-226 | a trial exits early exactly when the host showed the prize or the pick; a shown prize wins exactly when picked; a shown wrong pick loses; a non-custom trial with no opened door never switches; the trial is won exactly when its final door is the prize |
| Simulation.StayWinsExactlyOnPrizePick | src/components/PlayPageComp/PlayPageComp.tsx:206-226 | always staying never switches and wins exactly when the first pick is the prize |
| Simulation.StandardSwitchWinsExactlyOnWrongPick | src/components/PlayPageComp/PlayPageComp.tsx:176-226 | standard host, always switching: the trial switches and wins exactly when the first pick was wrong |
| Simulation.EvilSwitchNeverWins | src/components/PlayPageComp/PlayPageComp.tsx:176-226 | evil host, always switching: never wins, and exits early exactly when the first pick was wrong |
| Simulation.SecretiveTrialKeepsFirstPick | src/components/PlayPageComp/PlayPageComp.tsx:197-204 | secretive host: every strategy keeps the first pick, wins exactly when it is the prize, never exits early |
| Simulation.CustomTrialOpensNothing | src/components/PlayPageComp/PlayPageComp.tsx:197-221 | custom host: no early exit; a switch happens exactly when the flag is on and the strategy takes it |
| Simulation.Outcomes | src/components/PlayPageComp/PlayPageComp.tsx:175-236 | the outcomes of the first n trials, one per trial played |
| Simulation.Wins | src/components/PlayPageComp/PlayPageComp.tsx:225-226 | the wins never exceed the trials |
| Simulation.Checkpoints | src/components/PlayPageComp/PlayPageComp.tsx:228-233 | there are no more snapshots than trials |
| Simulation.CheckpointAt | src/components/PlayPageComp/PlayPageComp.tsx:229-233 | a trial i that did not exit early with i % 100 == 0 or i == numGames - 1 has a snapshot counting the wins and losses of trials 0..i |
| Simulation.CheckpointsComplete | src/components/PlayPageComp/PlayPageComp.tsx:229 | every trial that did not exit early with i % 100 == 0 or i == numGames - 1 has a snapshot counting the wins and losses of trials 0..i |
| Simulation.CheckpointsConsistent | src/components/PlayPageComp/PlayPageComp.tsx:228-233 | every snapshot has games played = wins + losses = i + 1 and counts the wins so far; it is taken only after a trial that did not exit early with i % 100 == 0 or i == numGames - 1; games played strictly increase |
| Simulation.FinalSnapshotCountsEveryTrial | src/components/PlayPageComp/PlayPageComp.tsx:229-233 | when the last trial does not exit early, the last snapshot counts every trial |
| Simulation.EarlyFinalTrialLeavesStaleSnapshot | src/components/PlayPageComp/PlayPageComp.tsx:186-194 | for every run whose last trial exits early, the snapshots are those of the run without that trial, so an earlier snapshot (or none) stays on display |
| Simulation.PlayTrial | src/components/PlayPageComp/PlayPageComp.tsx:176-226 | one trial's body fails exactly when the engine throws, and otherwise computes the trial's outcome |
| Simulation.CountTrial | src/components/PlayPageComp/PlayPageComp.tsx:222-235 | counting one trial adds it to exactly one of wins and losses and appends the snapshot Checkpoints prescribes |
| Simulation.NextTrial | src/components/PlayPageComp/PlayPageComp.tsx:175-235 | one pass of the loop takes the counts of the first i trials to those of the first i + 1: wins + losses = i + 1, wins counts the won trials, and the snapshots are those of Checkpoints |
| Simulation.CountTrials | src/components/PlayPageComp/PlayPageComp.tsx:175-236 | with a working engine the loop leaves the counts of all numGames trials |
| Simulation.RunTrials | src/components/PlayPageComp/PlayPageComp.tsx:172-236 | fails exactly when the engine throws and a trial is attempted; otherwise wins + losses = numGames, wins counts the won trials, and the snapshots are those of Checkpoints |
| Simulation.SimulationPanel.constructor | src/components/PlayPageComp/PlayPageComp.tsx:98-107 | 1000 games, the switch strategy, zero results |
| Simulation.SimulationPanel.RunSimulation | src/components/PlayPageComp/PlayPageComp.tsx:165-240 | results are cleared, then show the last snapshot taken, or zeros when none was |
| Simulation.SimulationPanel.ResetSimulation | src/components/PlayPageComp/PlayPageComp.tsx:246-251 | the counters return to zero; the settings are kept |
| TreeVisualization.AllNodes | src/components/TreeVisualization/TreeVisualization.tsx:57-65 | the visible nodes start with the root |
| TreeVisualization.LinesMatchVisibleNodes | src/components/TreeVisualization/TreeVisualization.tsx:35-55 | there is one connection line per visible node below the root |
| TreeVisualization.LinesReachVisibleNodes | src/components/TreeVisualization/TreeVisualization.tsx:40-48 | the k-th line ends 10 above the (k+1)-th visible node (absent coordinates read as 0): lines and nodes follow the same preorder |
| TreeVisualization.VisibleNodesAreNodes | src/components/TreeVisualization/TreeVisualization.tsx:57-65 | only nodes of the tree are visible, and no more of them than the tree has |
| TreeVisualization.AllNodeIdsArePreorderIds | src/components/TreeVisualization/TreeVisualization.tsx:80-88 | the id list is the ids of the full preorder, root first, whatever is expanded; its length is the tree size |
| TreeVisualization.FullyExpandedShowsEveryNode | src/components/TreeVisualization/TreeVisualization.tsx:57-65 | with every id of the tree expanded, the visible nodes are the whole preorder |
| TreeVisualization.ExpandAllShowsEveryNode | src/components/TreeVisualization/TreeVisualization.tsx:90-93 | after expanding with the tree's own id list every node is visible, in the order of that list |
| TreeVisualization.LeavesAreChildlessNodes | src/components/TreeVisualization/TreeVisualization.tsx:96-105 | the leaves are exactly the nodes without children, in preorder |
| TreeVisualization.Without | src/components/TreeVisualization/TreeVisualization.tsx:69 | removes every occurrence of the id and keeps the rest |
| TreeVisualization.Toggle | src/components/TreeVisualization/TreeVisualization.tsx:67-73 | exactly the toggled id changes membership; an absent id is appended at the end |
| TreeVisualization.ToggleTwice | src/components/TreeVisualization/TreeVisualization.tsx:67-73 | toggling an absent id twice restores the list; toggling a present one twice leaves it once, at the end |
| TreeVisualization.StrategyTotal | src/components/TreeVisualization/TreeVisualization.tsx:110-111 | a strategy's leaf total never exceeds the number of leaves |
| TreeVisualization.StrategyTotalsDisjoint | src/components/TreeVisualization/TreeVisualization.tsx:110-111 | the stay and switch totals together never exceed the number of leaves, since a leaf has at most one strategy |
| TreeVisualization.StrategyWins | src/components/TreeVisualization/TreeVisualization.tsx:108-111 | a strategy's win count never exceeds its leaf total |
| TreeVisualization.WinRate | src/components/TreeVisualization/TreeVisualization.tsx:113-116 | a rate lies between 0 and 100, is 0 for no leaves, and is 100 when every leaf wins |
| TreeVisualization.MaxY | src/components/TreeVisualization/TreeVisualization.tsx:121 | the largest y of the visible nodes (absent read as 0) bounds them all and is attained |
| TreeVisualization.SvgHeight | src/components/TreeVisualization/TreeVisualization.tsx:121-122 | the height is at least 320 and at least 60 below every visible node, and is one of those values |
| TreeVisualization.GetLeafNodes | src/components/TreeVisualization/TreeVisualization.tsx:96-105 | the loop collects exactly the leaves LeafNodes defines |
| TreeVisualization.TreeView.constructor | src/components/TreeVisualization/TreeVisualization.tsx:24-33 | expanded ids start as given, by default just the root's id, and nothing is selected |
| TreeVisualization.TreeView.GetAllNodes | src/components/TreeVisualization/TreeVisualization.tsx:57-65 | the recursive loop computes exactly AllNodes for the current expansion |
| TreeVisualization.TreeView.GetConnectionLines | src/components/TreeVisualization/TreeVisualization.tsx:35-55 | the recursive loop computes exactly ConnectionLines for the current expansion |
| TreeVisualization.TreeView.GetAllNodeIds | src/components/TreeVisualization/TreeVisualization.tsx:80-88 | the recursive loop computes exactly AllNodeIds |
| TreeVisualization.TreeView.ToggleNodeExpansion | src/components/TreeVisualization/TreeVisualization.tsx:67-73 | the expanded list becomes its Toggle |
| TreeVisualization.TreeView.ResetTree | src/components/TreeVisualization/TreeVisualization.tsx:75-78 | the initial expansion is restored and the selected path emptied |
| TreeVisualization.TreeView.ExpandAll | src/components/TreeVisualization/TreeVisualization.tsx:90-93 | every id is expanded, after which every node of the tree is visible |
| TreeVisualization.TreeView.CalculateWinRates | src/components/TreeVisualization/TreeVisualization.tsx:95-117 | the stay and switch rates are wins over totals among the leaves, each between 0 and 100 |
| TreeVisualization.TreeView.ComputeSvgHeight | src/components/TreeVisualization/TreeVisualization.tsx:119-122 | the height for the visible nodes is at least 320 and at least 60 below the root |

Two lemmas are single-input illustrations, not model members:
`CustomMontyForm.QuarterWeightsExample` (four weights of 0.25 pass; 0.3 in
the last weight is rejected), which `Validate` and `AcceptedConfigSums`
state for all inputs, and `Simulation.StaleSnapshotExample` (a won trial
followed by an early exit leaves the one-game snapshot), which
`EarlyFinalTrialLeavesStaleSnapshot` states for all runs.

## Left out

- Simulation.RunTrials: the throw from the host's move (custom mode without a configuration) is checked once before the first trial, with the engine's own table selection. In the source it is raised inside the loop by the first trial's call. The effect is the same, because only the mode and the configuration decide the throw, so it happens on the first trial or on none.
- Random draws: their distribution is not modelled. Each `Math.random()` is a parameter in [0,1), so no statistical claim (one third, two thirds) is made.
- The simulator takes one record of five draws per trial, whether or not the trial consumes them all.
- Statistics reporting and reading (`updateMontyChoice`, `callBackendObjs`, the stats filter and the chart data) are network and display work. A settled manual round returns a `Report` record instead of sending it.
- The backend server is not part of this model.
- The simulator's `isRunning` flag and its `await setTimeout` pacing are UI scheduling. Progress updates are modelled as a list of recorded snapshots.
- The settings inputs (`parseInt(...) || 1000`, the strategy select) are not modelled: `numGames` is any integer.
- IEEE floating point is not modelled; exact reals are used throughout. So are `toFixed` percentage strings and `parseFloat` input parsing.
- TreeVisualization.WinRate: returns the exact percentage, not the string that `toFixed(1)` rounds it to.
- The form's field setters and JSX are not modelled, nor are the SVG, JSX and CSS of every component, nor the tree panel's `showProbabilities` toggle.
- The engine's `Unknown MontyType` error (src/logic/montyEngine.ts:89) is not modelled. The closed `MontyType` datatype cannot hold any other value. In the source it can be reached: the sandbox page casts any `?monty=` query value to a mode, so a value such as `foo` makes the first door click throw. The sandbox page is not part of this model.
- The custom mode's opening chance, closest/farthest and per-door weights are not modelled, because the engine never reads them (see above).
- The static tree data component (MontyTreeTabs), the door button, the navigation bars, the other pages, the app shell and the build configuration are not part of this model.
- Tree nodes: an absent `children` list is modelled as an empty one, since every helper treats the two alike. The field `label` is named `caption` because `label` is a Dafny keyword.
- `selectedPath` is only ever cleared by the tree panel, so it has no other operation.
