/** The round state machine of the main game component
    (src/components/PlayPageComp/PlayPageComp.tsx): first pick, the host's move,
    the switch-offer policy, an optional second pick, the outcome. Draws of
    `Math.random()` are parameters; the statistics requests become a returned
    report record. */
module PlayPageComp {
  import opened MontyTypes
  import opened MontyTables
  import opened MontyEngine
  import opened CustomMontyForm
  import opened RoundView

  /** In custom mode a switch is offered only while the flag is on and the host
      has shown neither the player's door nor the prize door. */
  function ShouldOfferSwitchUntilOpenCustom(cfg: ExtendedCustomConfig, montyOpens: Option<Door>,
                                            playerPick: Door, prizeDoor: Door): (offer: bool)
    ensures !cfg.offerSwitchUntilOpen ==> !offer
    ensures cfg.offerSwitchUntilOpen ==>
              (offer <==> montyOpens.None? || (montyOpens.value != playerPick && montyOpens.value != prizeDoor))
  {
    if !cfg.offerSwitchUntilOpen then false
    else montyOpens.None? || (montyOpens.value != playerPick && montyOpens.value != prizeDoor)
  }

  /** What the engine receives as its custom table: the configuration record
      itself. It has no `length`, so the engine's row walk sees no rows. */
  function ConfigAsTable(cfg: ExtendedCustomConfig): (table: ProbabilityTable)
    ensures |table| == 0
  {
    []
  }

  function EngineTable(customConfig: Option<ExtendedCustomConfig>): Option<ProbabilityTable> {
    match customConfig
    case None => None
    case Some(cfg) => Some(ConfigAsTable(cfg))
  }

  /** Whether the host counts as knowing the prize: every built-in mode does; a
      custom host does only when its configuration says so. */
  predicate HostKnowsPrize(montyType: MontyType, customConfig: Option<ExtendedCustomConfig>) {
    montyType != Custom || (customConfig.Some? && customConfig.value.knowsPrize)
  }

  /** A round ends at once when the host shows the prize (a win only if it is the
      player's door), or when he opens the player's door and knows the prize (a loss). */
  function ImmediateResult(montyType: MontyType, customConfig: Option<ExtendedCustomConfig>,
                           prizeDoor: Door, door: Door, mDoor: Option<Door>): (res: Option<Outcome>)
    ensures mDoor == Some(prizeDoor) ==> res == Some(OutcomeOf(door, prizeDoor))
    ensures mDoor != Some(prizeDoor) && mDoor == Some(door) ==>
              (res.Some? <==> HostKnowsPrize(montyType, customConfig)) && res != Some(Win)
    ensures mDoor != Some(prizeDoor) && mDoor != Some(door) ==> res.None?
  {
    if mDoor == Some(prizeDoor) then Some(OutcomeOf(door, prizeDoor))
    else if mDoor == Some(door) then (if HostKnowsPrize(montyType, customConfig) then Some(Lose) else None)
    else None
  }

  /** The switch-offer policy. Custom mode (with a configuration) asks
      ShouldOfferSwitchUntilOpenCustom; otherwise nothing is offered once the
      round is decided, secretive always offers, and standard and evil offer
      when a door was opened. */
  function OfferSwitch(montyType: MontyType, customConfig: Option<ExtendedCustomConfig>,
                       prizeDoor: Door, door: Door, mDoor: Option<Door>, immediate: Option<Outcome>): (offer: bool)
    ensures immediate.Some? ==> !offer
    ensures montyType == Custom && customConfig.Some? ==>
              (offer <==> immediate.None? && ShouldOfferSwitchUntilOpenCustom(customConfig.value, mDoor, door, prizeDoor))
    ensures !(montyType == Custom && customConfig.Some?) && immediate.None? ==>
              (offer <==> montyType == Secretive || mDoor.Some?)
  {
    if montyType == Custom && customConfig.Some? then
      immediate.None? && ShouldOfferSwitchUntilOpenCustom(customConfig.value, mDoor, door, prizeDoor)
    else if immediate.Some? then false
    else if montyType == Secretive then true
    else mDoor.Some?
  }

  /** The record sent to the statistics service when a round is settled. */
  datatype Report = Report(montyName: MontyType, result: Outcome, switched: bool)

  class MontyGame {
    var prizeDoor: Door
    var playerPick: Option<Door>
    var montyOpens: Option<Door>
    var switchOffered: bool
    var finalPick: Option<Door>
    var result: Option<Outcome>
    var montyType: MontyType
    var choosingSwitch: bool
    /** The component's configuration property; fixed for its lifetime. */
    const customConfig: Option<ExtendedCustomConfig>

    function Snapshot(): GameState
      reads this
    {
      GameState(prizeDoor, playerPick, montyOpens, switchOffered, finalPick, result, montyType)
    }

    /** The round invariant: before a pick nothing has happened; a final pick
        always carries its true outcome and was either the first pick or taken
        after an offer; a result without a final pick is an immediate one and
        leaves nothing on offer; second-pick mode follows an offer. */
    ghost predicate Valid()
      reads this
    {
      && prizeDoor in DefaultDoors
      && (playerPick.None? ==>
            montyOpens.None? && !switchOffered && finalPick.None? && result.None? && !choosingSwitch)
      && (finalPick.Some? ==> result == Some(OutcomeOf(finalPick.value, prizeDoor)))
      && (finalPick.Some? && !switchOffered ==> finalPick == playerPick)
      && (result.Some? && finalPick.None? ==>
            && playerPick.Some? && !switchOffered && !choosingSwitch
            && result == ImmediateResult(montyType, customConfig, prizeDoor, playerPick.value, montyOpens))
      && (choosingSwitch ==> switchOffered)
    }

    /** A fresh round: the prize is hidden, the mode is the given one or a random
        built-in one. */
    constructor (initialMontyType: Option<MontyType>, customConfig: Option<ExtendedCustomConfig>,
                 prizeDraw: real, typeDraw: real)
      requires 0.0 <= prizeDraw < 1.0 && 0.0 <= typeDraw < 1.0
      ensures Valid()
      ensures prizeDoor == PickPrizeDoor(prizeDraw)
      ensures montyType == if initialMontyType.Some? then initialMontyType.value else PickRandomMontyType(typeDraw)
      ensures this.customConfig == customConfig
      ensures playerPick.None? && montyOpens.None? && !switchOffered
      ensures finalPick.None? && result.None? && !choosingSwitch
    {
      prizeDoor := PickPrizeDoor(prizeDraw);
      playerPick := None;
      montyOpens := None;
      switchOffered := false;
      finalPick := None;
      result := None;
      montyType := if initialMontyType.Some? then initialMontyType.value else PickRandomMontyType(typeDraw);
      choosingSwitch := false;
      this.customConfig := customConfig;
    }

    /** The first pick. Ignored once a pick exists; a custom mode without a
        configuration makes the engine fail and changes nothing. Otherwise the
        host moves, an immediate result and the offer are computed, and a round
        with neither is settled at once as a stay. */
    method HandleInitialPick(door: Door, r: real) returns (report: Option<Report>)
      requires Valid()
      modifies this`playerPick, this`montyOpens, this`switchOffered, this`finalPick, this`result
      ensures Valid()
      ensures old(playerPick).Some? || HostDecision(prizeDoor, door, montyType, EngineTable(customConfig), r).Failure? ==>
                unchanged(this) && report.None?
      ensures old(playerPick).None? && HostDecision(prizeDoor, door, montyType, EngineTable(customConfig), r).Ok? ==>
                (var shown := HostDecision(prizeDoor, door, montyType, EngineTable(customConfig), r).value;
                 var immediate := ImmediateResult(montyType, customConfig, prizeDoor, door, shown);
                 var offer := OfferSwitch(montyType, customConfig, prizeDoor, door, shown, immediate);
                 && playerPick == Some(door) && montyOpens == shown
                 && if !offer && immediate.None? then
                      && !switchOffered && finalPick == Some(door)
                      && result == Some(OutcomeOf(door, prizeDoor))
                      && report == Some(Report(montyType, OutcomeOf(door, prizeDoor), false))
                    else
                      switchOffered == offer && finalPick.None? && result == immediate && report.None?)
      ensures report.Some? ==> result == Some(report.value.result)
                               && (report.value.switched <==> finalPick != playerPick)
    {
      if playerPick.Some? {
        return None;
      }
      var decision := MontyOpensDoor(prizeDoor, door, montyType, EngineTable(customConfig), r);
      if decision.Failure? {
        return None;
      }
      var mDoor := decision.value;
      var immediate := ImmediateResult(montyType, customConfig, prizeDoor, door, mDoor);
      var offer := OfferSwitch(montyType, customConfig, prizeDoor, door, mDoor, immediate);
      if !offer && immediate.None? {
        var outcome := OutcomeOf(door, prizeDoor);
        playerPick, montyOpens, switchOffered, finalPick, result := Some(door), mDoor, false, Some(door), Some(outcome);
        return Some(Report(montyType, outcome, false));
      }
      playerPick, montyOpens, switchOffered, result := Some(door), mDoor, offer, immediate;
      return None;
    }

    /** Switch or stay. Ignored unless a pick exists, a switch was offered and
        nothing is final. Staying settles on the first pick; switching settles on
        the one remaining door when the host opened one (and is not secretive),
        and otherwise starts a second pick. */
    method HandleChoice(doSwitch: bool) returns (report: Option<Report>)
      requires Valid()
      modifies this`finalPick, this`result, this`choosingSwitch
      ensures Valid()
      ensures !ChoiceAllowed(old(Snapshot())) ==> unchanged(this) && report.None?
      ensures ChoiceAllowed(old(Snapshot())) && !doSwitch ==>
                && finalPick == playerPick && result == Some(OutcomeOf(playerPick.value, prizeDoor))
                && choosingSwitch == old(choosingSwitch)
                && report == Some(Report(montyType, OutcomeOf(playerPick.value, prizeDoor), false))
      ensures ChoiceAllowed(old(Snapshot())) && doSwitch && (montyOpens.None? || montyType == Secretive) ==>
                choosingSwitch && finalPick.None? && result.None? && report.None?
      ensures ChoiceAllowed(old(Snapshot())) && doSwitch && montyOpens.Some? && montyType != Secretive ==>
                && finalPick == Some(OtherDoor(playerPick.value, montyOpens.value))
                && finalPick.value != playerPick.value && finalPick.value != montyOpens.value
                && result == Some(OutcomeOf(finalPick.value, prizeDoor))
                && choosingSwitch == old(choosingSwitch)
                && report == Some(Report(montyType, result.value, true))
      ensures report.Some? ==> result == Some(report.value.result)
                               && (report.value.switched <==> finalPick != playerPick)
    {
      if playerPick.None? || !switchOffered || finalPick.Some? || result.Some? {
        return None;
      }
      if !doSwitch {
        var outcome := OutcomeOf(playerPick.value, prizeDoor);
        finalPick, result := playerPick, Some(outcome);
        return Some(Report(montyType, outcome, false));
      }
      var shown := montyOpens;
      if shown.None? || montyType == Secretive {
        choosingSwitch := true;
        return None;
      }
      var remaining := OtherDoor(playerPick.value, shown.value);
      var outcome := OutcomeOf(remaining, prizeDoor);
      finalPick, result := Some(remaining), Some(outcome);
      return Some(Report(montyType, outcome, true));
    }

    /** The second pick. Acts only while a second pick is awaited and nothing is
        final: settles on `door` and leaves second-pick mode. */
    method HandleFinalPick(door: Door) returns (report: Option<Report>)
      requires Valid()
      modifies this`finalPick, this`result, this`choosingSwitch
      ensures Valid()
      ensures !old(choosingSwitch) || old(finalPick).Some? || old(result).Some? ==> unchanged(this) && report.None?
      ensures old(choosingSwitch) && old(finalPick).None? && old(result).None? ==>
                && finalPick == Some(door) && result == Some(OutcomeOf(door, prizeDoor)) && !choosingSwitch
                && report == Some(Report(montyType, OutcomeOf(door, prizeDoor), true))
    {
      if !choosingSwitch || finalPick.Some? || result.Some? {
        return None;
      }
      var outcome := OutcomeOf(door, prizeDoor);
      finalPick, result, choosingSwitch := Some(door), Some(outcome), false;
      return Some(Report(montyType, outcome, true));
    }

    /** A new round with a freshly hidden prize; only the mode survives. */
    method ResetGame(prizeDraw: real)
      requires 0.0 <= prizeDraw < 1.0
      modifies this
      ensures Valid()
      ensures prizeDoor == PickPrizeDoor(prizeDraw) && montyType == old(montyType)
      ensures playerPick.None? && montyOpens.None? && !switchOffered
      ensures finalPick.None? && result.None? && !choosingSwitch
    {
      prizeDoor := PickPrizeDoor(prizeDraw);
      playerPick, montyOpens, switchOffered := None, None, false;
      finalPick, result, choosingSwitch := None, None, false;
    }

    /** A click on one of the game's doors: ignored while the door is disabled;
        a first pick when none exists; in second-pick mode a pick of any door but
        the first one; nothing otherwise. So a settled switch never lands back on
        the first pick. */
    method ClickDoor(door: Door, r: real) returns (report: Option<Report>)
      requires Valid() && door in DefaultDoors
      modifies this`playerPick, this`montyOpens, this`switchOffered, this`finalPick, this`result, this`choosingSwitch
      ensures Valid()
      ensures DoorDisabled(old(Snapshot()), old(choosingSwitch)) ==> unchanged(this) && report.None?
      ensures old(playerPick).None? && HostDecision(prizeDoor, door, montyType, EngineTable(customConfig), r).Failure? ==>
                unchanged(this) && report.None?
      ensures old(playerPick).None? && HostDecision(prizeDoor, door, montyType, EngineTable(customConfig), r).Ok? ==>
                (var shown := HostDecision(prizeDoor, door, montyType, EngineTable(customConfig), r).value;
                 var immediate := ImmediateResult(montyType, customConfig, prizeDoor, door, shown);
                 var offer := OfferSwitch(montyType, customConfig, prizeDoor, door, shown, immediate);
                 && playerPick == Some(door) && montyOpens == shown && !choosingSwitch
                 && if !offer && immediate.None? then
                      && !switchOffered && finalPick == Some(door)
                      && result == Some(OutcomeOf(door, prizeDoor))
                      && report == Some(Report(montyType, OutcomeOf(door, prizeDoor), false))
                    else
                      switchOffered == offer && finalPick.None? && result == immediate && report.None?)
      ensures old(playerPick).Some? && old(choosingSwitch) && Some(door) != old(playerPick) && old(result).None? ==>
                && playerPick == old(playerPick) && montyOpens == old(montyOpens)
                && switchOffered == old(switchOffered)
                && finalPick == Some(door) && result == Some(OutcomeOf(door, prizeDoor)) && !choosingSwitch
                && report == Some(Report(montyType, OutcomeOf(door, prizeDoor), true))
      ensures old(playerPick).Some? && !(old(choosingSwitch) && Some(door) != old(playerPick) && old(result).None?) ==>
                unchanged(this) && report.None?
      ensures old(playerPick).Some? && finalPick != old(finalPick) ==> finalPick.value != playerPick.value
      ensures report.Some? ==> result == Some(report.value.result)
                               && (report.value.switched <==> finalPick != playerPick)
    {
      report := None;
      if DoorDisabled(Snapshot(), choosingSwitch) {
        return;
      }
      if playerPick.None? {
        report := HandleInitialPick(door, r);
      } else if choosingSwitch && Some(door) != playerPick {
        report := HandleFinalPick(door);
      }
    }
  }

  // ----- Rounds under each mode -----

  /** Standard mode, pick not the prize: the host opens the third door, nothing is
      settled, and a switch is offered. */
  lemma StandardRoundOffersSwitch(prizeDoor: Door, door: Door, r: real, customConfig: Option<ExtendedCustomConfig>)
    requires prizeDoor in DefaultDoors && door in DefaultDoors && prizeDoor != door
    requires 0.0 <= r < 1.0
    ensures var shown := HostDecision(prizeDoor, door, Standard, EngineTable(customConfig), r).value;
            && shown == Some(OtherDoor(prizeDoor, door))
            && ImmediateResult(Standard, customConfig, prizeDoor, door, shown).None?
            && OfferSwitch(Standard, customConfig, prizeDoor, door, shown, None)
  {
    StandardOpensThirdDoor(prizeDoor, door, r);
    assert HostDecision(prizeDoor, door, Standard, EngineTable(customConfig), r)
        == HostDecision(prizeDoor, door, Standard, None, r);
  }

  /** Evil mode, pick not the prize: the host shows the prize and the round is
      lost at once with no switch offered. */
  lemma EvilRoundLosesAtOnce(prizeDoor: Door, door: Door, r: real, customConfig: Option<ExtendedCustomConfig>)
    requires prizeDoor != door
    requires 0.0 <= r < 1.0
    ensures var shown := HostDecision(prizeDoor, door, Evil, EngineTable(customConfig), r).value;
            var immediate := ImmediateResult(Evil, customConfig, prizeDoor, door, shown);
            && shown == Some(prizeDoor) && immediate == Some(Lose)
            && !OfferSwitch(Evil, customConfig, prizeDoor, door, shown, immediate)
  {
    EvilOpensPrize(prizeDoor, door, r);
    assert HostDecision(prizeDoor, door, Evil, EngineTable(customConfig), r)
        == HostDecision(prizeDoor, door, Evil, None, r);
  }

  /** Secretive mode: no door opens, nothing is settled, and a switch is always offered. */
  lemma SecretiveRoundAlwaysOffers(prizeDoor: Door, door: Door, r: real, customConfig: Option<ExtendedCustomConfig>)
    requires 0.0 <= r < 1.0
    ensures var shown := HostDecision(prizeDoor, door, Secretive, EngineTable(customConfig), r).value;
            && shown.None?
            && ImmediateResult(Secretive, customConfig, prizeDoor, door, shown).None?
            && OfferSwitch(Secretive, customConfig, prizeDoor, door, shown, None)
  {
    SecretiveOpensNothing(prizeDoor, door, r);
    assert HostDecision(prizeDoor, door, Secretive, EngineTable(customConfig), r)
        == HostDecision(prizeDoor, door, Secretive, None, r);
  }

  /** Custom mode with a configuration: the engine never opens a door, so the
      knows-the-prize rule never fires and the offer is exactly the flag. With
      the flag off the round is settled as a stay. */
  lemma CustomRoundOffersExactlyWhenFlagged(prizeDoor: Door, door: Door, r: real, cfg: ExtendedCustomConfig)
    ensures var shown := HostDecision(prizeDoor, door, Custom, EngineTable(Some(cfg)), r).value;
            && shown.None?
            && ImmediateResult(Custom, Some(cfg), prizeDoor, door, shown).None?
            && (OfferSwitch(Custom, Some(cfg), prizeDoor, door, shown, None) <==> cfg.offerSwitchUntilOpen)
  {
    EmptyTableOpensNothing(prizeDoor, door, r);
  }

  /** Custom mode without a configuration: the engine fails for every draw. */
  lemma CustomWithoutConfigFails(prizeDoor: Door, door: Door, r: real)
    ensures HostDecision(prizeDoor, door, Custom, EngineTable(None), r).Failure?
  {
  }
}
