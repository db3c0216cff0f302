/** The host's action tables and the mapping from a chosen table row to a door
    (src/logic/montyTables.ts). */
module MontyTables {
  import opened MontyTypes

  /** What the host can do; `OpenNone` is the source's 'None'. */
  datatype MontyAction = OpenPrize | OpenPlayerPick | OpenOther | OpenNone

  /** The actions in the order of the rows of every table. */
  const MontyActions: seq<MontyAction> := [OpenPrize, OpenPlayerPick, OpenOther, OpenNone]

  /** One row per action; column 0 applies when the pick is the prize door,
      column 1 when it is not. Probabilities are exact reals. */
  type ProbabilityTable = seq<(real, real)>

  const StandardTable: ProbabilityTable := [(0.0, 0.0), (0.0, 0.0), (1.0, 1.0), (0.0, 0.0)]

  const EvilTable: ProbabilityTable := [(0.0, 1.0), (0.0, 0.0), (1.0, 0.0), (0.0, 0.0)]

  const SecretiveTable: ProbabilityTable := [(0.0, 0.0), (0.0, 0.0), (0.0, 0.0), (1.0, 1.0)]

  function Cell(row: (real, real), column: nat): real {
    if column == 0 then row.0 else row.1
  }

  /** The sum of the first `k` entries of a column. */
  function PrefixSum(table: ProbabilityTable, column: nat, k: nat): real
    requires k <= |table|
  {
    if k == 0 then 0.0 else PrefixSum(table, column, k - 1) + Cell(table[k - 1], column)
  }

  function ColumnSum(table: ProbabilityTable, column: nat): real {
    PrefixSum(table, column, |table|)
  }

  /** A table has one row per action, and each column is a probability distribution. */
  ghost predicate WellFormed(table: ProbabilityTable) {
    && |table| == |MontyActions|
    && (forall i :: 0 <= i < |table| ==> table[i].0 >= 0.0 && table[i].1 >= 0.0)
    && ColumnSum(table, 0) == 1.0
    && ColumnSum(table, 1) == 1.0
  }

  lemma BuiltInTablesWellFormed()
    ensures WellFormed(StandardTable)
    ensures WellFormed(EvilTable)
    ensures WellFormed(SecretiveTable)
  {
    assert ColumnSum(StandardTable, 0) == PrefixSum(StandardTable, 0, 4);
    assert PrefixSum(StandardTable, 0, 3) == 1.0;
    assert ColumnSum(StandardTable, 1) == PrefixSum(StandardTable, 1, 4);
    assert PrefixSum(StandardTable, 1, 3) == 1.0;
    assert ColumnSum(EvilTable, 0) == PrefixSum(EvilTable, 0, 4);
    assert PrefixSum(EvilTable, 0, 3) == 1.0;
    assert ColumnSum(EvilTable, 1) == PrefixSum(EvilTable, 1, 4);
    assert PrefixSum(EvilTable, 1, 3) == 1.0;
    assert ColumnSum(SecretiveTable, 0) == PrefixSum(SecretiveTable, 0, 4);
    assert PrefixSum(SecretiveTable, 0, 3) == 0.0;
    assert ColumnSum(SecretiveTable, 1) == PrefixSum(SecretiveTable, 1, 4);
    assert PrefixSum(SecretiveTable, 1, 3) == 0.0;
  }

  /** What each action means as a door: the independent reading of the action
      names that the row numbering in MapRowIndexToDoor must agree with. */
  function DoorForAction(action: MontyAction, prizeDoor: Door, playerPick: Door): Option<Door> {
    match action
    case OpenPrize => Some(prizeDoor)
    case OpenPlayerPick => Some(playerPick)
    case OpenOther => Some(OtherDoor(prizeDoor, playerPick))
    case OpenNone => None
  }

  /** The door opened for a table row: the rows follow MontyActions, the "other"
      row is the lowest door that is neither the prize nor the pick, and any row
      number outside the table opens nothing. */
  function MapRowIndexToDoor(rowIndex: int, prizeDoor: Door, playerPick: Door): (d: Option<Door>)
    ensures 0 <= rowIndex < |MontyActions| ==>
              d == DoorForAction(MontyActions[rowIndex], prizeDoor, playerPick)
    ensures !(0 <= rowIndex < |MontyActions|) ==> d.None?
    ensures rowIndex == 2 ==> d.Some? && d.value in DefaultDoors
                              && d.value != prizeDoor && d.value != playerPick
  {
    match rowIndex
    case 0 => Some(prizeDoor)
    case 1 => Some(playerPick)
    case 2 => FirstDoorOtherThan(DefaultDoors, prizeDoor, playerPick)
    case _ => None
  }

  /** A row never names a door outside the game when the prize and the pick are doors of it. */
  lemma MappedDoorInGame(rowIndex: int, prizeDoor: Door, playerPick: Door)
    requires prizeDoor in DefaultDoors && playerPick in DefaultDoors
    ensures MapRowIndexToDoor(rowIndex, prizeDoor, playerPick).Some? ==>
              MapRowIndexToDoor(rowIndex, prizeDoor, playerPick).value in DefaultDoors
  {
  }

  /** When the pick is the prize, the "other" row is not random: it always opens
      the lowest-numbered door other than the pick. */
  lemma OtherRowWhenPickIsPrize(door: Door)
    requires door in DefaultDoors
    ensures MapRowIndexToDoor(2, door, door) == Some(if door == 1 then 2 else 1)
  {
    OtherDoorOfDefault(door, door);
  }
}
