/** The Monte Carlo simulator of the main game component
    (`runSimulation` and `resetSimulation` in src/components/PlayPageComp/PlayPageComp.tsx).
    Each trial's random draws are given as a record; progress updates become
    recorded snapshots. */
module Simulation {
  import opened MontyTypes
  import opened MontyTables
  import opened MontyEngine
  import opened CustomMontyForm
  import opened PlayPageComp

  /** The player's switching policy. */
  datatype Strategy = Stay | Switch | RandomChoice

  /** The draws one trial may consume: the prize door, the initial pick, the
      host's move, the coin of the random strategy and the second pick. */
  datatype TrialDraws = TrialDraws(prize: real, pick: real, host: real, coin: real, second: real)

  predicate ValidDraws(d: TrialDraws) {
    && 0.0 <= d.prize < 1.0 && 0.0 <= d.pick < 1.0 && 0.0 <= d.host < 1.0
    && 0.0 <= d.coin < 1.0 && 0.0 <= d.second < 1.0
  }

  /** How a trial ended: won or lost, whether the player switched, and whether
      it left the loop early because the host opened the prize or the pick. */
  datatype TrialOutcome = TrialOutcome(won: bool, switched: bool, earlyExit: bool)

  /** A progress snapshot. */
  datatype Tally = Tally(wins: nat, losses: nat, gamesPlayed: nat)

  /** The initial pick: `defaultDoors[floor(r * 3)]`. */
  function InitialPick(r: real): (d: Door)
    requires 0.0 <= r < 1.0
    ensures d in DefaultDoors
  {
    DefaultDoors[ScaledIndex(r, 3)]
  }

  /** The simulator's offer policy: custom mode with a configuration asks
      ShouldOfferSwitchUntilOpenCustom; every other mode offers exactly when a
      door was opened, so a secretive host is never offered a switch here. */
  function SimulatedOffer(montyType: MontyType, customConfig: Option<ExtendedCustomConfig>,
                          shown: Option<Door>, pick: Door, prizeDoor: Door): (offer: bool)
    ensures montyType == Custom && customConfig.Some? ==>
              offer == ShouldOfferSwitchUntilOpenCustom(customConfig.value, shown, pick, prizeDoor)
    ensures !(montyType == Custom && customConfig.Some?) ==> (offer <==> shown.Some?)
  {
    if montyType == Custom && customConfig.Some? then
      ShouldOfferSwitchUntilOpenCustom(customConfig.value, shown, pick, prizeDoor)
    else if shown.None? then false
    else if montyType == Secretive then true
    else shown.Some?
  }

  /** Whether an offered switch is taken: never, always, or when the coin is below 1/2. */
  function ShouldSwitch(strategy: Strategy, coin: real): (switching: bool)
    ensures strategy == Stay ==> !switching
    ensures strategy == Switch ==> switching
    ensures strategy == RandomChoice ==> (switching <==> coin < 0.5)
  {
    match strategy
    case Stay => false
    case Switch => true
    case RandomChoice => coin < 0.5
  }

  /** The door a switch lands on: a random other door when the host is secretive
      or opened nothing, otherwise the one door neither picked nor opened. */
  function SwitchTarget(montyType: MontyType, shown: Option<Door>, pick: Door, second: real): (d: Door)
    requires pick in DefaultDoors && 0.0 <= second < 1.0
    ensures d in DefaultDoors && d != pick
    ensures montyType != Secretive && shown.Some? ==> d == OtherDoor(pick, shown.value)
  {
    if montyType == Secretive || shown.None? then
      assert OtherDoor(pick, pick) in DefaultDoors && OtherDoor(pick, pick) !in [pick];
      GetRandomDoor([pick], second).value
    else OtherDoor(pick, shown.value)
  }

  /** The engine can run a trial: every mode but custom without a configuration,
      where the host's move throws. */
  predicate EngineRuns(montyType: MontyType, customConfig: Option<ExtendedCustomConfig>) {
    !(montyType == Custom && customConfig.None?)
  }

  /** The rest of a trial once the host has moved: an early exit when the host
      showed the prize or the pick, otherwise the offer, the strategy and the
      final pick. */
  function Settle(montyType: MontyType, customConfig: Option<ExtendedCustomConfig>, strategy: Strategy,
                  prizeDoor: Door, pick: Door, shown: Option<Door>, coin: real, second: real): (o: TrialOutcome)
    requires pick in DefaultDoors && 0.0 <= second < 1.0
    ensures o.earlyExit <==> shown == Some(prizeDoor) || shown == Some(pick)
    ensures o.switched ==> !o.earlyExit
    ensures shown == Some(prizeDoor) ==> (o.won <==> pick == prizeDoor)
    ensures shown == Some(pick) && pick != prizeDoor ==> !o.won
    ensures !(montyType == Custom && customConfig.Some?) && shown.None? ==> !o.switched
    ensures !o.earlyExit && !o.switched ==> (o.won <==> pick == prizeDoor)
    ensures o.switched ==> (o.won <==> SwitchTarget(montyType, shown, pick, second) == prizeDoor)
  {
    if shown == Some(prizeDoor) then TrialOutcome(pick == prizeDoor, false, true)
    else if shown == Some(pick) then TrialOutcome(false, false, true)
    else
      var switching := SimulatedOffer(montyType, customConfig, shown, pick, prizeDoor)
                       && ShouldSwitch(strategy, coin);
      var finalPick := if switching then SwitchTarget(montyType, shown, pick, second) else pick;
      TrialOutcome(finalPick == prizeDoor, switching, false)
  }

  /** One trial as the loop body runs it. */
  ghost function Trial(montyType: MontyType, customConfig: Option<ExtendedCustomConfig>,
                       strategy: Strategy, d: TrialDraws): TrialOutcome
    requires ValidDraws(d) && EngineRuns(montyType, customConfig)
  {
    var prizeDoor := PickPrizeDoor(d.prize);
    var pick := InitialPick(d.pick);
    var shown := HostDecision(prizeDoor, pick, montyType, EngineTable(customConfig), d.host).value;
    Settle(montyType, customConfig, strategy, prizeDoor, pick, shown, d.coin, d.second)
  }

  // ----- What one trial does in each mode -----

  /** Staying never switches and wins exactly when the first pick hides the
      prize, in every mode the engine runs. */
  lemma StayWinsExactlyOnPrizePick(montyType: MontyType, customConfig: Option<ExtendedCustomConfig>,
                                   d: TrialDraws)
    requires ValidDraws(d) && EngineRuns(montyType, customConfig)
    ensures var o := Trial(montyType, customConfig, Stay, d);
            !o.switched && (o.won <==> InitialPick(d.pick) == PickPrizeDoor(d.prize))
  {
  }

  /** Under a standard host, always switching wins exactly when the first pick
      was wrong: the classic two-in-three. */
  lemma StandardSwitchWinsExactlyOnWrongPick(customConfig: Option<ExtendedCustomConfig>, d: TrialDraws)
    requires ValidDraws(d)
    ensures var o := Trial(Standard, customConfig, Switch, d);
            !o.earlyExit && o.switched && (o.won <==> InitialPick(d.pick) != PickPrizeDoor(d.prize))
  {
    var prizeDoor, pick := PickPrizeDoor(d.prize), InitialPick(d.pick);
    BuiltInIgnoresCustomTable(prizeDoor, pick, Standard, EngineTable(customConfig), d.host);
    if prizeDoor == pick {
      StandardOpensLowestOtherWhenPickIsPrize(pick, d.host);
    } else {
      StandardOpensThirdDoor(prizeDoor, pick, d.host);
    }
  }

  /** Under an evil host a wrong first pick ends the trial at once with the
      prize shown, and a right one is talked out of the prize: always switching
      never wins. */
  lemma EvilSwitchNeverWins(customConfig: Option<ExtendedCustomConfig>, d: TrialDraws)
    requires ValidDraws(d)
    ensures var o := Trial(Evil, customConfig, Switch, d);
            !o.won && (o.earlyExit <==> InitialPick(d.pick) != PickPrizeDoor(d.prize))
  {
    var prizeDoor, pick := PickPrizeDoor(d.prize), InitialPick(d.pick);
    BuiltInIgnoresCustomTable(prizeDoor, pick, Evil, EngineTable(customConfig), d.host);
    if prizeDoor == pick {
      EvilOpensLowestOtherWhenPickIsPrize(pick, d.host);
    } else {
      EvilOpensPrize(prizeDoor, pick, d.host);
    }
  }

  /** A secretive host opens nothing and the simulator then offers nothing, so
      every strategy keeps its first pick. */
  lemma SecretiveTrialKeepsFirstPick(customConfig: Option<ExtendedCustomConfig>, strategy: Strategy,
                                     d: TrialDraws)
    requires ValidDraws(d)
    ensures Trial(Secretive, customConfig, strategy, d)
            == TrialOutcome(InitialPick(d.pick) == PickPrizeDoor(d.prize), false, false)
  {
    var prizeDoor, pick := PickPrizeDoor(d.prize), InitialPick(d.pick);
    BuiltInIgnoresCustomTable(prizeDoor, pick, Secretive, EngineTable(customConfig), d.host);
    SecretiveOpensNothing(prizeDoor, pick, d.host);
  }

  /** A custom host opens nothing (its table has no rows), so a switch happens
      exactly when the configuration keeps the offer open and the strategy takes
      it, and then lands on a random other door. */
  lemma CustomTrialOpensNothing(cfg: ExtendedCustomConfig, strategy: Strategy, d: TrialDraws)
    requires ValidDraws(d)
    ensures var o := Trial(Custom, Some(cfg), strategy, d);
            && !o.earlyExit
            && (o.switched <==> cfg.offerSwitchUntilOpen && ShouldSwitch(strategy, d.coin))
            && (!o.switched ==> (o.won <==> InitialPick(d.pick) == PickPrizeDoor(d.prize)))
  {
    EmptyTableOpensNothing(PickPrizeDoor(d.prize), InitialPick(d.pick), d.host);
  }

  ghost predicate AllDrawsValid(draws: seq<TrialDraws>) {
    forall i :: 0 <= i < |draws| ==> ValidDraws(draws[i])
  }

  /** The outcomes of the first `n` trials, in order, one per record of draws. */
  ghost function Outcomes(montyType: MontyType, customConfig: Option<ExtendedCustomConfig>,
                          strategy: Strategy, draws: seq<TrialDraws>, n: nat): (os: seq<TrialOutcome>)
    requires AllDrawsValid(draws) && EngineRuns(montyType, customConfig) && n <= |draws|
    ensures |os| == n
  {
    if n == 0 then []
    else Outcomes(montyType, customConfig, strategy, draws, n - 1)
         + [Trial(montyType, customConfig, strategy, draws[n - 1])]
  }

  /** The number of won trials. */
  function Wins(os: seq<TrialOutcome>): (w: nat)
    ensures w <= |os|
  {
    if |os| == 0 then 0
    else Wins(os[..|os| - 1]) + if os[|os| - 1].won then 1 else 0
  }

  /** A snapshot is taken after trial `i` when it did not exit early and is a
      hundredth trial or the last one. */
  predicate TakesCheckpoint(o: TrialOutcome, i: nat, numGames: int) {
    !o.earlyExit && (i % 100 == 0 || i == numGames - 1)
  }

  /** The snapshots the trials record, in order. */
  function Checkpoints(os: seq<TrialOutcome>, numGames: int): (cs: seq<Tally>)
    ensures |cs| <= |os|
  {
    if |os| == 0 then []
    else
      var k := |os|;
      var w := Wins(os);
      Checkpoints(os[..k - 1], numGames)
      + if TakesCheckpoint(os[k - 1], k - 1, numGames) then [Tally(w, k - w, k)] else []
  }

  /** Appending one trial: one more win or loss, and one more snapshot when the
      trial takes one. */
  lemma CountsStep(os: seq<TrialOutcome>, o: TrialOutcome, numGames: int)
    ensures Wins(os + [o]) == Wins(os) + if o.won then 1 else 0
    ensures var w := Wins(os + [o]);
            Checkpoints(os + [o], numGames)
            == Checkpoints(os, numGames)
               + if TakesCheckpoint(o, |os|, numGames) then [Tally(w, |os| + 1 - w, |os| + 1)] else []
  {
    assert (os + [o])[..|os|] == os;
  }

  // ----- What the snapshots say -----

  /** A snapshot consistent with the trials: taken after a trial that did not
      exit early and is a hundredth or the last one, counting the wins of the
      trials played so far, with wins and losses adding up to the games played. */
  predicate SnapshotOf(os: seq<TrialOutcome>, numGames: int, c: Tally) {
    && 1 <= c.gamesPlayed <= |os|
    && c.wins + c.losses == c.gamesPlayed
    && c.wins == Wins(os[..c.gamesPlayed])
    && TakesCheckpoint(os[c.gamesPlayed - 1], c.gamesPlayed - 1, numGames)
  }

  /** Every snapshot is consistent with the trials, and the games played
      strictly increase from one snapshot to the next. */
  lemma {:induction false} CheckpointsConsistent(os: seq<TrialOutcome>, numGames: int)
    ensures forall k :: 0 <= k < |Checkpoints(os, numGames)| ==>
              SnapshotOf(os, numGames, Checkpoints(os, numGames)[k])
    ensures forall k, l :: 0 <= k < l < |Checkpoints(os, numGames)| ==>
              Checkpoints(os, numGames)[k].gamesPlayed < Checkpoints(os, numGames)[l].gamesPlayed
  {
    if |os| > 0 {
      var n := |os|;
      var prefix := os[..n - 1];
      CheckpointsConsistent(prefix, numGames);
      var cs := Checkpoints(os, numGames);
      var before := Checkpoints(prefix, numGames);
      forall k | 0 <= k < |before|
        ensures cs[k] == before[k] && cs[k].gamesPlayed <= n - 1 && SnapshotOf(os, numGames, cs[k])
      {
        var g := before[k].gamesPlayed;
        assert SnapshotOf(prefix, numGames, before[k]);
        assert prefix[..g] == os[..g];
        assert prefix[g - 1] == os[g - 1];
      }
      if |cs| > |before| {
        assert cs[|before|] == Tally(Wins(os), n - Wins(os), n);
        assert os[..n] == os;
        assert SnapshotOf(os, numGames, cs[|before|]);
      }
    }
  }

  /** When the last trial does not exit early, the last snapshot counts every
      trial. */
  lemma FinalSnapshotCountsEveryTrial(os: seq<TrialOutcome>, numGames: int)
    requires |os| == numGames > 0 && !os[|os| - 1].earlyExit
    ensures var cs := Checkpoints(os, numGames);
            cs != [] && cs[|cs| - 1] == Tally(Wins(os), |os| - Wins(os), |os|)
  {
  }

  /** When the last trial exits early no snapshot follows it: the snapshots
      are those of the run without that trial, so the display keeps showing an
      earlier snapshot (or none). */
  lemma EarlyFinalTrialLeavesStaleSnapshot(os: seq<TrialOutcome>, numGames: int)
    requires |os| > 0 && os[|os| - 1].earlyExit
    ensures Checkpoints(os, numGames) == Checkpoints(os[..|os| - 1], numGames)
  {
  }

  /** One evil-host game with a wrong first pick leaves the display at zero
      games, and two leave it at one. */
  lemma StaleSnapshotExample()
    ensures Checkpoints([TrialOutcome(false, false, true)], 1) == []
    ensures Checkpoints([TrialOutcome(true, false, false), TrialOutcome(false, false, true)], 2)
            == [Tally(1, 0, 1)]
  {
    var two := [TrialOutcome(true, false, false), TrialOutcome(false, false, true)];
    EarlyFinalTrialLeavesStaleSnapshot(two, 2);
    assert two[..1] == [TrialOutcome(true, false, false)];
    assert [TrialOutcome(true, false, false)][..0] == [];
  }

  /** The converse of CheckpointsConsistent: every trial that takes a snapshot
      has one counting the trials up to and including it. */
  lemma {:induction false} CheckpointsComplete(os: seq<TrialOutcome>, numGames: int)
    ensures forall k :: 0 <= k < |os| && TakesCheckpoint(os[k], k, numGames) ==>
              Tally(Wins(os[..k + 1]), k + 1 - Wins(os[..k + 1]), k + 1) in Checkpoints(os, numGames)
  {
    forall k | 0 <= k < |os| && TakesCheckpoint(os[k], k, numGames)
      ensures Tally(Wins(os[..k + 1]), k + 1 - Wins(os[..k + 1]), k + 1) in Checkpoints(os, numGames)
    {
      CheckpointAt(os, numGames, k);
    }
  }

  /** The snapshot of one trial `k` that takes one. */
  lemma {:induction false} CheckpointAt(os: seq<TrialOutcome>, numGames: int, k: nat)
    requires k < |os| && TakesCheckpoint(os[k], k, numGames)
    ensures Tally(Wins(os[..k + 1]), k + 1 - Wins(os[..k + 1]), k + 1) in Checkpoints(os, numGames)
    decreases |os|
  {
    var n := |os|;
    var prefix := os[..n - 1];
    if k < n - 1 {
      assert prefix[k] == os[k];
      CheckpointAt(prefix, numGames, k);
      assert prefix[..k + 1] == os[..k + 1];
      assert Checkpoints(prefix, numGames) <= Checkpoints(os, numGames);
    } else {
      assert os[..k + 1] == os;
    }
  }

  /** The body of one trial: the prize and the initial pick are drawn, the host
      moves (throwing in custom mode without a configuration), the trial ends
      early when the host showed the prize or the pick, and otherwise the offer
      and the strategy decide the final pick. */
  method PlayTrial(montyType: MontyType, customConfig: Option<ExtendedCustomConfig>,
                   strategy: Strategy, d: TrialDraws)
    returns (res: Result<TrialOutcome, EngineError>)
    requires ValidDraws(d)
    ensures res.Failure? <==> !EngineRuns(montyType, customConfig)
    ensures res.Ok? ==> res.value == Trial(montyType, customConfig, strategy, d)
  {
    var prizeDoor := PickPrizeDoor(d.prize);
    var initialPick := InitialPick(d.pick);
    var decision := MontyOpensDoor(prizeDoor, initialPick, montyType, EngineTable(customConfig), d.host);
    if decision.Failure? {
      return Failure(decision.error);
    }
    var shown := decision.value;
    var finalPick := initialPick;
    var switched := false;
    if shown == Some(prizeDoor) {
      return Ok(TrialOutcome(initialPick == prizeDoor, false, true));
    }
    if shown == Some(initialPick) {
      return Ok(TrialOutcome(false, false, true));
    }
    var switchOffered := SimulatedOffer(montyType, customConfig, shown, initialPick, prizeDoor);
    if switchOffered {
      var shouldSwitch := ShouldSwitch(strategy, d.coin);
      if shouldSwitch {
        switched := true;
        finalPick := SwitchTarget(montyType, shown, initialPick, d.second);
      }
    }
    return Ok(TrialOutcome(finalPick == prizeDoor, switched, false));
  }

  /** The counting at the end of trial `i`: a win or a loss, then, unless the
      trial exited early, a snapshot on every hundredth trial and on the last. */
  method CountTrial(ghost os: seq<TrialOutcome>, i: nat, outcome: TrialOutcome, numGames: int,
                    wins: nat, losses: nat, checkpoints: seq<Tally>)
    returns (wins': nat, losses': nat, checkpoints': seq<Tally>)
    requires |os| == i
    requires wins == Wins(os) && wins + losses == i && checkpoints == Checkpoints(os, numGames)
    ensures wins' == Wins(os + [outcome]) && wins' + losses' == |os| + 1
    ensures checkpoints' == Checkpoints(os + [outcome], numGames)
  {
    CountsStep(os, outcome, numGames);
    wins', losses', checkpoints' := wins, losses, checkpoints;
    if outcome.won {
      wins' := wins' + 1;
    } else {
      losses' := losses' + 1;
    }
    if outcome.earlyExit {
      return;
    }
    if i % 100 == 0 || i == numGames - 1 {
      checkpoints' := checkpoints' + [Tally(wins', losses', i + 1)];
    }
  }

  /** The counts after the first `i` trials: wins and losses add up to `i`,
      wins counts the won trials, and the snapshots are those of Checkpoints. */
  ghost predicate CountsAfter(montyType: MontyType, customConfig: Option<ExtendedCustomConfig>,
                              strategy: Strategy, numGames: int, draws: seq<TrialDraws>, i: nat,
                              wins: nat, losses: nat, checkpoints: seq<Tally>)
    requires AllDrawsValid(draws) && EngineRuns(montyType, customConfig) && i <= |draws|
  {
    var os := Outcomes(montyType, customConfig, strategy, draws, i);
    wins == Wins(os) && wins + losses == i && checkpoints == Checkpoints(os, numGames)
  }

  /** One pass of the trial loop: trial `i` is played and counted. */
  method NextTrial(montyType: MontyType, customConfig: Option<ExtendedCustomConfig>,
                   strategy: Strategy, numGames: int, draws: seq<TrialDraws>, i: nat,
                   wins: nat, losses: nat, checkpoints: seq<Tally>)
    returns (wins': nat, losses': nat, checkpoints': seq<Tally>)
    requires AllDrawsValid(draws) && EngineRuns(montyType, customConfig) && i < |draws|
    requires CountsAfter(montyType, customConfig, strategy, numGames, draws, i, wins, losses, checkpoints)
    ensures CountsAfter(montyType, customConfig, strategy, numGames, draws, i + 1, wins', losses', checkpoints')
  {
    var trial := PlayTrial(montyType, customConfig, strategy, draws[i]);
    ghost var os := Outcomes(montyType, customConfig, strategy, draws, i);
    assert Outcomes(montyType, customConfig, strategy, draws, i + 1) == os + [trial.value];
    wins', losses', checkpoints' := CountTrial(os, i, trial.value, numGames, wins, losses, checkpoints);
  }

  /** The trial loop once the engine is known to run: each pass plays and
      counts one trial. */
  method CountTrials(montyType: MontyType, customConfig: Option<ExtendedCustomConfig>,
                     strategy: Strategy, numGames: int, draws: seq<TrialDraws>)
    returns (wins: nat, losses: nat, checkpoints: seq<Tally>)
    requires AllDrawsValid(draws) && EngineRuns(montyType, customConfig)
    requires 0 <= numGames <= |draws|
    ensures CountsAfter(montyType, customConfig, strategy, numGames, draws, numGames, wins, losses, checkpoints)
  {
    wins, losses, checkpoints := 0, 0, [];
    var i := 0;
    while i < numGames
      invariant 0 <= i <= numGames
      invariant CountsAfter(montyType, customConfig, strategy, numGames, draws, i, wins, losses, checkpoints)
    {
      wins, losses, checkpoints := NextTrial(montyType, customConfig, strategy, numGames, draws, i,
                                             wins, losses, checkpoints);
      i := i + 1;
    }
  }

  /** The simulation run. The host's move throws on every trial or on none,
      since only the mode and the configuration decide it (custom mode without
      a configuration): the throw is taken on the first trial, with nothing
      counted. Otherwise all `numGames` trials run, each adding to exactly one
      of wins and losses, and the snapshots of Checkpoints are recorded. */
  method RunTrials(montyType: MontyType, customConfig: Option<ExtendedCustomConfig>,
                   strategy: Strategy, numGames: int, draws: seq<TrialDraws>)
    returns (failed: bool, wins: nat, losses: nat, checkpoints: seq<Tally>)
    requires AllDrawsValid(draws) && numGames <= |draws|
    ensures failed <==> !EngineRuns(montyType, customConfig) && numGames > 0
    ensures !EngineRuns(montyType, customConfig) ==> wins == 0 && losses == 0 && checkpoints == []
    ensures EngineRuns(montyType, customConfig) ==>
              CountsAfter(montyType, customConfig, strategy, numGames, draws, if numGames < 0 then 0 else numGames,
                          wins, losses, checkpoints)
  {
    failed, wins, losses, checkpoints := false, 0, 0, [];
    if numGames <= 0 {
      return;
    }
    if TableFor(montyType, EngineTable(customConfig)).Failure? {
      return true, 0, 0, [];
    }
    wins, losses, checkpoints := CountTrials(montyType, customConfig, strategy, numGames, draws);
  }

  /** The simulator's panel state: its settings and the snapshot on display. */
  class SimulationPanel {
    var numGames: int
    var strategy: Strategy
    var results: Tally

    constructor ()
      ensures numGames == 1000 && strategy == Switch && results == Tally(0, 0, 0)
    {
      numGames, strategy, results := 1000, Switch, Tally(0, 0, 0);
    }

    /** Runs the trials: the display is cleared first and then shows the last
        snapshot taken, so it stays at zeros when the engine throws or no
        snapshot was taken. */
    method RunSimulation(montyType: MontyType, customConfig: Option<ExtendedCustomConfig>,
                         draws: seq<TrialDraws>)
      returns (failed: bool, checkpoints: seq<Tally>)
      requires AllDrawsValid(draws) && numGames <= |draws|
      modifies this`results
      ensures failed <==> !EngineRuns(montyType, customConfig) && numGames > 0
      ensures !EngineRuns(montyType, customConfig) ==> checkpoints == []
      ensures EngineRuns(montyType, customConfig) ==>
                checkpoints == Checkpoints(Outcomes(montyType, customConfig, strategy, draws,
                                                    if numGames < 0 then 0 else numGames), numGames)
      ensures results == if checkpoints == [] then Tally(0, 0, 0) else checkpoints[|checkpoints| - 1]
    {
      results := Tally(0, 0, 0);
      var wins, losses;
      failed, wins, losses, checkpoints := RunTrials(montyType, customConfig, strategy, numGames, draws);
      if checkpoints != [] {
        results := checkpoints[|checkpoints| - 1];
      }
    }

    /** Clears the counters and keeps the settings. */
    method ResetSimulation()
      modifies this`results
      ensures results == Tally(0, 0, 0)
    {
      results := Tally(0, 0, 0);
    }
  }
}
