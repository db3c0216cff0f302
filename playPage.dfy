/** The older round state machine of the data-collection page
    (src/pages/PlayPage/PlayPage.tsx). Its mode is always a random built-in one,
    its only immediate result is an evil host showing the prize, and its
    second-pick mode is never left by a second pick. */
module PlayPage {
  import opened MontyTypes
  import opened MontyTables
  import opened MontyEngine
  import opened RoundView

  /** The older offer policy: secretive always offers, an evil host that opened
      the player's door does not, and otherwise a switch is offered when a door
      was opened. */
  function LegacyOffer(montyType: MontyType, door: Door, mDoor: Option<Door>): (offer: bool)
    ensures montyType == Secretive ==> offer
    ensures montyType == Evil && mDoor == Some(door) ==> !offer
    ensures montyType != Secretive && !(montyType == Evil && mDoor == Some(door)) ==> (offer <==> mDoor.Some?)
  {
    if montyType == Secretive then true
    else if montyType == Evil && mDoor == Some(door) then false
    else mDoor.Some?
  }

  /** The only immediate result: a loss when an evil host opens the prize door. */
  function LegacyImmediate(montyType: MontyType, prizeDoor: Door, mDoor: Option<Door>): (res: Option<Outcome>)
    ensures res.Some? <==> montyType == Evil && mDoor == Some(prizeDoor)
    ensures res != Some(Win)
  {
    if montyType == Evil && mDoor == Some(prizeDoor) then Some(Lose) else None
  }

  class PlayPageGame {
    var prizeDoor: Door
    var playerPick: Option<Door>
    var montyOpens: Option<Door>
    var switchOffered: bool
    var finalPick: Option<Door>
    var result: Option<Outcome>
    var montyType: MontyType
    var choosingSwitch: bool

    function Snapshot(): GameState
      reads this
    {
      GameState(prizeDoor, playerPick, montyOpens, switchOffered, finalPick, result, montyType)
    }

    /** The round invariant: the mode is built-in; before a pick nothing has
        happened; a final pick carries its true outcome and always follows an
        offer; a result without a final pick is the evil host's immediate loss;
        an offer outside secretive mode comes with an opened door; second-pick
        mode happens only under a secretive host after an offer. */
    ghost predicate Valid()
      reads this
    {
      && prizeDoor in DefaultDoors
      && montyType != Custom
      && (playerPick.None? ==>
            montyOpens.None? && !switchOffered && finalPick.None? && result.None? && !choosingSwitch)
      && (finalPick.Some? ==> result == Some(OutcomeOf(finalPick.value, prizeDoor)) && switchOffered)
      && (result.Some? && finalPick.None? ==>
            result == Some(Lose) && montyType == Evil && montyOpens == Some(prizeDoor))
      && (switchOffered && montyType != Secretive ==> montyOpens.Some?)
      && (choosingSwitch ==> montyType == Secretive && switchOffered)
    }

    /** A fresh round with a random prize door and a random built-in mode. */
    constructor (prizeDraw: real, typeDraw: real)
      requires 0.0 <= prizeDraw < 1.0 && 0.0 <= typeDraw < 1.0
      ensures Valid()
      ensures prizeDoor == PickPrizeDoor(prizeDraw) && montyType == PickRandomMontyType(typeDraw)
      ensures playerPick.None? && montyOpens.None? && !switchOffered
      ensures finalPick.None? && result.None? && !choosingSwitch
    {
      prizeDoor := PickPrizeDoor(prizeDraw);
      playerPick, montyOpens, switchOffered := None, None, false;
      finalPick, result := None, None;
      montyType := PickRandomMontyType(typeDraw);
      choosingSwitch := false;
    }

    /** The first pick: ignored once a pick exists; otherwise the host moves and
        the offer and the immediate result are recorded. */
    method HandleInitialPick(door: Door, r: real)
      requires Valid()
      modifies this`playerPick, this`montyOpens, this`switchOffered, this`result
      ensures Valid()
      ensures old(playerPick).Some? ==> unchanged(this)
      ensures old(playerPick).None? ==>
                (var shown := HostDecision(prizeDoor, door, montyType, None, r).value;
                 && playerPick == Some(door) && montyOpens == shown
                 && switchOffered == LegacyOffer(montyType, door, shown)
                 && result == LegacyImmediate(montyType, prizeDoor, shown))
    {
      if playerPick.Some? {
        return;
      }
      var decision := MontyOpensDoor(prizeDoor, door, montyType, None, r);
      var mDoor := decision.value;
      playerPick, montyOpens := Some(door), mDoor;
      switchOffered := LegacyOffer(montyType, door, mDoor);
      result := LegacyImmediate(montyType, prizeDoor, mDoor);
    }

    /** Switch or stay, under the same guard as the main game. Staying settles on
        the first pick; switching enters second-pick mode under a secretive host
        and otherwise settles on the one remaining door. */
    method HandleChoice(doSwitch: bool)
      requires Valid()
      modifies this`finalPick, this`result, this`choosingSwitch
      ensures Valid()
      ensures !ChoiceAllowed(old(Snapshot())) ==> unchanged(this)
      ensures ChoiceAllowed(old(Snapshot())) && !doSwitch ==>
                finalPick == playerPick && result == Some(OutcomeOf(playerPick.value, prizeDoor))
                && choosingSwitch == old(choosingSwitch)
      ensures ChoiceAllowed(old(Snapshot())) && doSwitch && montyType == Secretive ==>
                choosingSwitch && finalPick.None? && result.None?
      ensures ChoiceAllowed(old(Snapshot())) && doSwitch && montyType != Secretive ==>
                && finalPick == Some(OtherDoor(playerPick.value, montyOpens.value))
                && finalPick.value != playerPick.value && finalPick.value != montyOpens.value
                && result == Some(OutcomeOf(finalPick.value, prizeDoor))
                && choosingSwitch == old(choosingSwitch)
    {
      if playerPick.None? || !switchOffered || finalPick.Some? || result.Some? {
        return;
      }
      if !doSwitch {
        finalPick, result := playerPick, Some(OutcomeOf(playerPick.value, prizeDoor));
      } else if montyType == Secretive {
        choosingSwitch := true;
      } else {
        var remaining := OtherDoor(playerPick.value, montyOpens.value);
        finalPick, result := Some(remaining), Some(OutcomeOf(remaining, prizeDoor));
      }
    }

    /** The second pick: acts only in second-pick mode with nothing final, and
        leaves that mode switched on. */
    method HandleFinalPick(door: Door)
      requires Valid()
      modifies this`finalPick, this`result
      ensures Valid()
      ensures !choosingSwitch || old(finalPick).Some? || old(result).Some? ==> unchanged(this)
      ensures choosingSwitch && old(finalPick).None? && old(result).None? ==>
                finalPick == Some(door) && result == Some(OutcomeOf(door, prizeDoor))
    {
      if !choosingSwitch || finalPick.Some? || result.Some? {
        return;
      }
      finalPick, result := Some(door), Some(OutcomeOf(door, prizeDoor));
    }

    /** A new round with a freshly hidden prize; only the mode survives. */
    method ResetGame(prizeDraw: real)
      requires Valid() && 0.0 <= prizeDraw < 1.0
      modifies this
      ensures Valid()
      ensures prizeDoor == PickPrizeDoor(prizeDraw) && montyType == old(montyType)
      ensures playerPick.None? && montyOpens.None? && !switchOffered
      ensures finalPick.None? && result.None? && !choosingSwitch
    {
      prizeDoor := PickPrizeDoor(prizeDraw);
      playerPick, montyOpens, switchOffered := None, None, false;
      finalPick, result, choosingSwitch := None, None, false;
    }

    /** A click on one of the game's doors, dispatched as on the main game page:
        a first pick when none exists, in second-pick mode a pick of any door
        but the first one, and nothing otherwise. */
    method ClickDoor(door: Door, r: real)
      requires Valid() && door in DefaultDoors
      modifies this`playerPick, this`montyOpens, this`switchOffered, this`finalPick, this`result
      ensures Valid()
      ensures DoorDisabled(old(Snapshot()), choosingSwitch) ==> unchanged(this)
      ensures old(playerPick).None? ==>
                (var shown := HostDecision(prizeDoor, door, montyType, None, r).value;
                 && playerPick == Some(door) && montyOpens == shown
                 && switchOffered == LegacyOffer(montyType, door, shown)
                 && result == LegacyImmediate(montyType, prizeDoor, shown)
                 && finalPick.None?)
      ensures old(playerPick).Some? && choosingSwitch && Some(door) != old(playerPick) && old(result).None? ==>
                && playerPick == old(playerPick) && montyOpens == old(montyOpens)
                && switchOffered == old(switchOffered)
                && finalPick == Some(door) && result == Some(OutcomeOf(door, prizeDoor))
      ensures old(playerPick).Some? && !(choosingSwitch && Some(door) != old(playerPick) && old(result).None?) ==>
                unchanged(this)
      ensures old(playerPick).Some? && finalPick != old(finalPick) ==> finalPick.value != playerPick.value
    {
      if DoorDisabled(Snapshot(), choosingSwitch) {
        return;
      }
      if playerPick.None? {
        HandleInitialPick(door, r);
      } else if choosingSwitch && Some(door) != playerPick {
        HandleFinalPick(door);
      }
    }
  }

  /** An evil host facing a wrong pick shows the prize: the round is lost at
      once, yet a switch stays on offer that the choice guard will never accept. */
  lemma EvilWrongPickLeavesDeadOffer(prizeDoor: Door, door: Door, r: real)
    requires prizeDoor != door && 0.0 <= r < 1.0
    ensures var shown := HostDecision(prizeDoor, door, Evil, None, r).value;
            var s := GameState(prizeDoor, Some(door), shown, LegacyOffer(Evil, door, shown), None,
                               LegacyImmediate(Evil, prizeDoor, shown), Evil);
            && s.result == Some(Lose) && s.switchOffered && !ChoiceAllowed(s)
  {
    EvilOpensPrize(prizeDoor, door, r);
  }

  /** A secretive host opens nothing, nothing is settled, and a switch is offered. */
  lemma LegacySecretiveOffers(prizeDoor: Door, door: Door, r: real)
    requires 0.0 <= r < 1.0
    ensures var shown := HostDecision(prizeDoor, door, Secretive, None, r).value;
            shown.None? && LegacyOffer(Secretive, door, shown) && LegacyImmediate(Secretive, prizeDoor, shown).None?
  {
    SecretiveOpensNothing(prizeDoor, door, r);
  }

  /** A standard host facing a wrong pick opens the third door and a switch is offered. */
  lemma LegacyStandardOffers(prizeDoor: Door, door: Door, r: real)
    requires prizeDoor in DefaultDoors && door in DefaultDoors && prizeDoor != door
    requires 0.0 <= r < 1.0
    ensures var shown := HostDecision(prizeDoor, door, Standard, None, r).value;
            shown == Some(OtherDoor(prizeDoor, door)) && LegacyOffer(Standard, door, shown)
            && LegacyImmediate(Standard, prizeDoor, shown).None?
  {
    StandardOpensThirdDoor(prizeDoor, door, r);
  }
}
