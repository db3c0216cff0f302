/** How a round's state is shown on the three doors, shared by both play pages
    (src/components/PlayPageComp/PlayPageComp.tsx and src/pages/PlayPage/PlayPage.tsx). */
module RoundView {
  import opened MontyTypes

  /** The look of one door button. */
  datatype DoorStatus = Closed | Opened | Selected | Prize

  /** Once a result exists every door is revealed (the prize door as the prize);
      before the round is final the host's door shows opened and the pick selected. */
  function StatusOf(s: GameState, door: Door): (st: DoorStatus)
    ensures st == Prize <==> s.result.Some? && door == s.prizeDoor
    ensures st == Opened <==>
              (s.result.Some? && door != s.prizeDoor)
              || (s.result.None? && s.playerPick.Some? && s.finalPick.None? && s.montyOpens == Some(door))
    ensures st == Selected <==>
              s.result.None? && s.playerPick == Some(door) && s.finalPick.None? && s.montyOpens != Some(door)
  {
    if s.result.Some? then
      (if door == s.prizeDoor then Prize else Opened)
    else if s.playerPick.Some? && s.finalPick.None? then
      (if s.montyOpens == Some(door) then Opened
       else if s.playerPick == Some(door) then Selected
       else Closed)
    else Closed
  }

  /** Doors stop reacting once there is a result, and after the first pick
      unless a second pick is awaited or the host is secretive; a secretive
      host's doors stay enabled until the result. */
  function DoorDisabled(s: GameState, choosingSwitch: bool): (disabled: bool)
    ensures s.result.Some? ==> disabled
    ensures s.playerPick.None? && s.result.None? ==> !disabled
    ensures choosingSwitch && s.result.None? ==> !disabled
    ensures s.result.None? && s.montyType == Secretive ==> !disabled
    ensures s.playerPick.Some? && !choosingSwitch && s.montyType != Secretive ==> disabled
  {
    s.result.Some? || (s.playerPick.Some? && !choosingSwitch && s.montyType != Secretive)
  }

  /** The guard of a switch-or-stay decision: a pick exists, a switch was
      offered and nothing is final yet. */
  predicate ChoiceAllowed(s: GameState) {
    s.playerPick.Some? && s.switchOffered && s.finalPick.None? && s.result.None?
  }

  /** At the end of a round exactly the prize door reads as the prize and no
      door is left closed, whatever path the round took. */
  lemma AllDoorsRevealedAtEnd(s: GameState)
    requires s.result.Some? && s.prizeDoor in DefaultDoors
    ensures forall d :: d in DefaultDoors ==> StatusOf(s, d) != Closed && StatusOf(s, d) != Selected
    ensures |set d | d in DefaultDoors && StatusOf(s, d) == Prize| == 1
  {
    assert (set d | d in DefaultDoors && StatusOf(s, d) == Prize) == {s.prizeDoor};
  }
}
