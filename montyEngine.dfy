/** The host decision engine (src/logic/montyEngine.ts). Every use of
    `Math.random()` becomes a draw `r` with 0 <= r < 1 passed in by the caller. */
module MontyEngine {
  import opened MontyTypes
  import opened MontyTables

  /** The doors of the game minus the excluded ones, in the game's order. */
  function Remaining(doors: seq<Door>, exclude: seq<Door>): (options: seq<Door>)
    ensures forall d :: d in options <==> d in doors && d !in exclude
    ensures |options| <= |doors|
  {
    if doors == [] then []
    else if doors[0] in exclude then Remaining(doors[1..], exclude)
    else [doors[0]] + Remaining(doors[1..], exclude)
  }

  /** The product `r * n`, written as `n` additions of `r` so that the draw
      arithmetic stays linear for the solver (ScaledIsProduct). */
  function Scaled(r: real, n: nat): real {
    if n == 0 then 0.0 else Scaled(r, n - 1) + r
  }

  lemma {:induction false} ScaledIsProduct(r: real, n: nat)
    ensures Scaled(r, n) == r * n as real
  {
    if n > 0 {
      ScaledIsProduct(r, n - 1);
    }
  }

  lemma {:induction false} ScaledBelow(r: real, n: nat)
    requires 0.0 <= r < 1.0
    ensures 0.0 <= Scaled(r, n) <= n as real
    ensures n > 0 ==> Scaled(r, n) < n as real
  {
    if n > 0 {
      ScaledBelow(r, n - 1);
    }
  }

  /** `Math.floor(r * n)`: an index into a list of `n` options. */
  function ScaledIndex(r: real, n: nat): (i: nat)
    requires 0.0 <= r < 1.0 && n > 0
    ensures i < n
    ensures i as real <= Scaled(r, n) < i as real + 1.0
  {
    ScaledBelow(r, n);
    Scaled(r, n).Floor
  }

  /** A uniformly drawn door among those not excluded; None where the source
      would index an empty array (every door excluded). */
  function GetRandomDoor(exclude: seq<Door>, r: real): (d: Option<Door>)
    requires 0.0 <= r < 1.0
    ensures d.Some? <==> exists x :: x in DefaultDoors && x !in exclude
    ensures d.Some? ==> d.value in DefaultDoors && d.value !in exclude
  {
    var options := Remaining(DefaultDoors, exclude);
    if |options| == 0 then None
    else
      assert options[ScaledIndex(r, |options|)] in options;
      Some(options[ScaledIndex(r, |options|)])
  }

  /** The prize is hidden behind a door of the game. */
  function PickPrizeDoor(r: real): (d: Door)
    requires 0.0 <= r < 1.0
    ensures d in DefaultDoors
  {
    assert 1 in DefaultDoors && 1 !in [];
    GetRandomDoor([], r).value
  }

  /** The modes a random choice draws from: custom is never drawn. */
  const RandomMontyTypes: seq<MontyType> := [Standard, Evil, Secretive]

  function PickRandomMontyType(r: real): (t: MontyType)
    requires 0.0 <= r < 1.0
    ensures t != Custom
  {
    RandomMontyTypes[ScaledIndex(r, |RandomMontyTypes|)]
  }

  /** Raised when 'custom' is requested without a table. */
  datatype EngineError = CustomTableRequired

  /** The table a mode uses; a custom mode needs a caller-supplied table. */
  function TableFor(montyType: MontyType, customTable: Option<ProbabilityTable>): (t: Result<ProbabilityTable, EngineError>)
    ensures t.Failure? <==> montyType == Custom && customTable.None?
    ensures montyType == Custom && customTable.Some? ==> t == Ok(customTable.value)
  {
    match montyType
    case Custom => if customTable.None? then Failure(CustomTableRequired) else Ok(customTable.value)
    case Standard => Ok(StandardTable)
    case Evil => Ok(EvilTable)
    case Secretive => Ok(SecretiveTable)
  }

  /** Column 0 is read exactly when the pick is the prize door. */
  function ColumnFor(prizeDoor: Door, playerPick: Door): (c: nat)
    ensures c <= 1
    ensures c == 0 <==> prizeDoor == playerPick
  {
    if prizeDoor == playerPick then 0 else 1
  }

  /** Row `k` is reached by draw `r`: the running sum up to and including row `k` exceeds `r`. */
  ghost predicate Covers(table: ProbabilityTable, column: nat, r: real, k: nat)
    requires k < |table|
  {
    r < PrefixSum(table, column, k + 1)
  }

  /** The first row at or after `k` reached by `r`, knowing that no earlier row is. */
  ghost function SelectFrom(table: ProbabilityTable, column: nat, r: real, k: nat): (row: Option<nat>)
    requires k <= |table|
    requires forall j :: 0 <= j < k ==> !Covers(table, column, r, j)
    ensures row.Some? ==> k <= row.value < |table| && Covers(table, column, r, row.value)
    ensures row.Some? ==> forall j :: 0 <= j < row.value ==> !Covers(table, column, r, j)
    ensures row.None? ==> forall j :: 0 <= j < |table| ==> !Covers(table, column, r, j)
    decreases |table| - k
  {
    if k == |table| then None
    else if Covers(table, column, r, k) then Some(k)
    else SelectFrom(table, column, r, k + 1)
  }

  /** The row chosen by draw `r`: the first whose running sum exceeds `r`, or None
      when no row does (the table's residual mass means "no door"). */
  ghost function SelectRow(table: ProbabilityTable, column: nat, r: real): (row: Option<nat>)
    ensures row.Some? ==> row.value < |table| && Covers(table, column, r, row.value)
    ensures row.Some? ==> forall j :: 0 <= j < row.value ==> !Covers(table, column, r, j)
    ensures row.None? <==> forall j :: 0 <= j < |table| ==> !Covers(table, column, r, j)
  {
    SelectFrom(table, column, r, 0)
  }

  /** The decision `montyOpensDoor` takes for draw `r`: a failure for 'custom'
      without a table, otherwise the door of the selected row, or no door. */
  ghost function HostDecision(prizeDoor: Door, playerPick: Door, montyType: MontyType,
                              customTable: Option<ProbabilityTable>, r: real): (res: Result<Option<Door>, EngineError>)
    ensures res.Failure? <==> montyType == Custom && customTable.None?
    ensures res.Ok? && res.value.Some? ==>
              res.value.value == prizeDoor || res.value.value == playerPick
              || res.value.value == OtherDoor(prizeDoor, playerPick)
  {
    match TableFor(montyType, customTable)
    case Failure(e) => Failure(e)
    case Ok(table) =>
      match SelectRow(table, ColumnFor(prizeDoor, playerPick), r)
      case None => Ok(None)
      case Some(row) => Ok(MapRowIndexToDoor(row, prizeDoor, playerPick))
  }

  /** The engine as the source runs it: choose the table and column, then walk
      the rows accumulating probabilities until the sum exceeds the draw. */
  method MontyOpensDoor(prizeDoor: Door, playerPick: Door, montyType: MontyType,
                        customTable: Option<ProbabilityTable>, r: real)
    returns (res: Result<Option<Door>, EngineError>)
    ensures res == HostDecision(prizeDoor, playerPick, montyType, customTable, r)
  {
    var table: ProbabilityTable;
    match montyType {
      case Custom =>
        if customTable.None? {
          return Failure(CustomTableRequired);
        }
        table := customTable.value;
      case Standard => table := StandardTable;
      case Evil => table := EvilTable;
      case Secretive => table := SecretiveTable;
    }
    var column := if prizeDoor == playerPick then 0 else 1;
    var accumulator := 0.0;
    var row := 0;
    while row < |table|
      invariant 0 <= row <= |table|
      invariant accumulator == PrefixSum(table, column, row)
      invariant forall j :: 0 <= j < row ==> !Covers(table, column, r, j)
    {
      accumulator := accumulator + Cell(table[row], column);
      if r < accumulator {
        FirstCoverIsSelected(table, column, r, row);
        return Ok(MapRowIndexToDoor(row, prizeDoor, playerPick));
      }
      row := row + 1;
    }
    return Ok(None);
  }

  /** The row the scan stops at is the one SelectRow names. */
  lemma FirstCoverIsSelected(table: ProbabilityTable, column: nat, r: real, row: nat)
    requires row < |table| && Covers(table, column, r, row)
    requires forall j :: 0 <= j < row ==> !Covers(table, column, r, j)
    ensures SelectRow(table, column, r) == Some(row)
  {
  }

  // ----- What the built-in modes do, for every draw -----

  /** A built-in mode reads only its own table: whatever custom table is passed
      along is ignored. */
  lemma BuiltInIgnoresCustomTable(prizeDoor: Door, playerPick: Door, montyType: MontyType,
                                  customTable: Option<ProbabilityTable>, r: real)
    requires montyType != Custom
    ensures HostDecision(prizeDoor, playerPick, montyType, customTable, r)
            == HostDecision(prizeDoor, playerPick, montyType, None, r)
  {
  }

  /** Standard mode, pick not the prize: the host opens the one remaining door. */
  lemma StandardOpensThirdDoor(prizeDoor: Door, playerPick: Door, r: real)
    requires prizeDoor in DefaultDoors && playerPick in DefaultDoors && prizeDoor != playerPick
    requires 0.0 <= r < 1.0
    ensures HostDecision(prizeDoor, playerPick, Standard, None, r) == Ok(Some(OtherDoor(prizeDoor, playerPick)))
    ensures forall d :: d in DefaultDoors && d != prizeDoor && d != playerPick ==> d == OtherDoor(prizeDoor, playerPick)
  {
    OtherDoorOfDefault(prizeDoor, playerPick);
    BuiltInTableScan(StandardTable, 1, r, 2);
  }

  /** Standard mode, pick is the prize: the host deterministically opens the
      lowest-numbered other door. */
  lemma StandardOpensLowestOtherWhenPickIsPrize(door: Door, r: real)
    requires door in DefaultDoors
    requires 0.0 <= r < 1.0
    ensures HostDecision(door, door, Standard, None, r) == Ok(Some(if door == 1 then 2 else 1))
  {
    BuiltInTableScan(StandardTable, 0, r, 2);
    OtherRowWhenPickIsPrize(door);
  }

  /** Evil mode, pick not the prize: the host opens the prize door. */
  lemma EvilOpensPrize(prizeDoor: Door, playerPick: Door, r: real)
    requires prizeDoor != playerPick
    requires 0.0 <= r < 1.0
    ensures HostDecision(prizeDoor, playerPick, Evil, None, r) == Ok(Some(prizeDoor))
  {
    BuiltInTableScan(EvilTable, 1, r, 0);
  }

  /** Evil mode, pick is the prize: like standard mode, the lowest other door. */
  lemma EvilOpensLowestOtherWhenPickIsPrize(door: Door, r: real)
    requires door in DefaultDoors
    requires 0.0 <= r < 1.0
    ensures HostDecision(door, door, Evil, None, r) == Ok(Some(if door == 1 then 2 else 1))
  {
    BuiltInTableScan(EvilTable, 0, r, 2);
    OtherRowWhenPickIsPrize(door);
  }

  /** Secretive mode: the host never opens a door. */
  lemma SecretiveOpensNothing(prizeDoor: Door, playerPick: Door, r: real)
    requires 0.0 <= r < 1.0
    ensures HostDecision(prizeDoor, playerPick, Secretive, None, r) == Ok(None)
  {
    BuiltInTableScan(SecretiveTable, ColumnFor(prizeDoor, playerPick), r, 3);
  }

  /** A table with no rows selects nothing, whatever the draw: this is what the
      custom mode receives from its callers. */
  lemma EmptyTableOpensNothing(prizeDoor: Door, playerPick: Door, r: real)
    ensures HostDecision(prizeDoor, playerPick, Custom, Some([]), r) == Ok(None)
  {
  }

  /** In every built-in table each column holds a single 1 in row `row`; a draw in
      [0,1) therefore selects exactly that row. */
  lemma BuiltInTableScan(table: ProbabilityTable, column: nat, r: real, row: nat)
    requires table == StandardTable || table == EvilTable || table == SecretiveTable
    requires column <= 1 && row < |table|
    requires Cell(table[row], column) == 1.0
    requires forall j :: 0 <= j < |table| && j != row ==> Cell(table[j], column) == 0.0
    requires 0.0 <= r < 1.0
    ensures SelectRow(table, column, r) == Some(row)
  {
    forall j | 0 <= j <= |table|
      ensures PrefixSum(table, column, j) == if j <= row then 0.0 else 1.0
    {
      PrefixSumOneHot(table, column, row, j);
    }
    FirstCoverIsSelected(table, column, r, row);
  }

  lemma {:induction false} PrefixSumOneHot(table: ProbabilityTable, column: nat, row: nat, j: nat)
    requires row < |table| && j <= |table|
    requires Cell(table[row], column) == 1.0
    requires forall i :: 0 <= i < |table| && i != row ==> Cell(table[i], column) == 0.0
    ensures PrefixSum(table, column, j) == if j <= row then 0.0 else 1.0
  {
    if j > 0 {
      PrefixSumOneHot(table, column, row, j - 1);
    }
  }

  // ----- The scan as a whole -----

  /** With non-negative entries the running sums never decrease. */
  lemma {:induction false} PrefixSumMonotone(table: ProbabilityTable, column: nat, i: nat, j: nat)
    requires i <= j <= |table|
    requires forall k :: 0 <= k < |table| ==> Cell(table[k], column) >= 0.0
    ensures PrefixSum(table, column, i) <= PrefixSum(table, column, j)
  {
    if i < j {
      PrefixSumMonotone(table, column, i, j - 1);
    }
  }

  /** Residual mass: with non-negative entries, a draw at or above the column's
      total selects no row, so the host opens no door. */
  lemma DrawAboveTotalOpensNothing(table: ProbabilityTable, column: nat, r: real)
    requires forall k :: 0 <= k < |table| ==> Cell(table[k], column) >= 0.0
    requires ColumnSum(table, column) <= r
    ensures SelectRow(table, column, r).None?
  {
    forall j | 0 <= j < |table|
      ensures !Covers(table, column, r, j)
    {
      PrefixSumMonotone(table, column, j + 1, |table|);
    }
  }

  /** A column that sums to 1 always selects some row for a draw in [0,1). */
  lemma FullColumnSelectsARow(table: ProbabilityTable, column: nat, r: real)
    requires ColumnSum(table, column) == 1.0
    requires 0.0 <= r < 1.0
    ensures SelectRow(table, column, r).Some?
  {
    if |table| > 0 {
      assert Covers(table, column, r, |table| - 1);
    }
  }
}
