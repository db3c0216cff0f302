/** Shared vocabulary of the game: doors, host behaviour modes, outcomes and the
    snapshot of one round's state (src/logic/types.ts). */
module MontyTypes {

  datatype Option<+T> = None | Some(value: T)

  datatype Result<+T, +E> = Ok(value: T) | Failure(error: E)

  /** A door is a plain number so that games with more doors stay expressible. */
  type Door = int

  /** The doors of the default three-door game, in ascending order. */
  const DefaultDoors: seq<Door> := [1, 2, 3]

  /** The host ("Monty") behaviour modes. */
  datatype MontyType = Standard | Evil | Secretive | Custom

  datatype Outcome = Win | Lose

  /** Everything the interface keeps about one round. */
  datatype GameState = GameState(
    prizeDoor: Door,
    playerPick: Option<Door>,
    montyOpens: Option<Door>,
    switchOffered: bool,
    finalPick: Option<Door>,
    result: Option<Outcome>,
    montyType: MontyType)

  /** The player wins exactly when the door they end on hides the prize. */
  function OutcomeOf(door: Door, prizeDoor: Door): (o: Outcome)
    ensures o == Win <==> door == prizeDoor
  {
    if door == prizeDoor then Win else Lose
  }

  ghost predicate Ascending(s: seq<Door>) {
    forall i, j :: 0 <= i < j < |s| ==> s[i] < s[j]
  }

  /** The first door of `doors` that is neither `a` nor `b` (JavaScript's
      `doors.find(d => d !== a && d !== b)`), or None when every door is one of them. */
  function FirstDoorOtherThan(doors: seq<Door>, a: Door, b: Door): (r: Option<Door>)
    ensures r.Some? ==> r.value in doors && r.value != a && r.value != b
    ensures r.None? <==> forall d :: d in doors ==> d == a || d == b
    ensures r.Some? && Ascending(doors) ==>
              forall d :: d in doors && d != a && d != b ==> r.value <= d
  {
    if doors == [] then None
    else if doors[0] != a && doors[0] != b then Some(doors[0])
    else
      var rest := FirstDoorOtherThan(doors[1..], a, b);
      assert forall d :: d in doors ==> d == doors[0] || d in doors[1..];
      rest
  }

  /** In the three-door game some door always differs from any two given doors;
      when those two are distinct doors of the game, it is the unique third door. */
  lemma OtherDoorOfDefault(a: Door, b: Door)
    ensures FirstDoorOtherThan(DefaultDoors, a, b).Some?
    ensures a != b && a in DefaultDoors && b in DefaultDoors ==>
              forall d :: d in DefaultDoors && d != a && d != b ==>
                d == FirstDoorOtherThan(DefaultDoors, a, b).value
  {
    var third := if 1 != a && 1 != b then 1 else if 2 != a && 2 != b then 2 else 3;
    assert third in DefaultDoors && third != a && third != b;
  }

  /** The door `DefaultDoors.find(d => d !== a && d !== b)!` yields: defined for all a, b. */
  function OtherDoor(a: Door, b: Door): (d: Door)
    ensures d in DefaultDoors && d != a && d != b
    ensures forall x :: x in DefaultDoors && x != a && x != b ==> d <= x
  {
    OtherDoorOfDefault(a, b);
    FirstDoorOtherThan(DefaultDoors, a, b).value
  }
}
