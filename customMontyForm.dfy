/** The custom-host configuration form: three probability sums, validation
    against a tolerance, and construction of the configuration record
    (src/components/CustomMontyForm.tsx). Numbers are exact reals. */
module CustomMontyForm {
  import opened MontyTypes

  /** Weights used when the pick is the prize door (host knows the prize). */
  datatype PickedPrizeWeights = PickedPrizeWeights(
    openSelected: real, openClosestNonPrize: real, openFarthestNonPrize: real, none: real)

  /** Weights used when the pick is not the prize door (host knows the prize). */
  datatype NotPrizeWeights = NotPrizeWeights(
    openSelected: real, openPrize: real, openOtherNonPrize: real)

  /** One weight per door, used when the host does not know the prize. */
  datatype UnknownPrizeWeights = UnknownPrizeWeights(door1: real, door2: real, door3: real)

  /** The record the form hands to its parent. */
  datatype ExtendedCustomConfig = ExtendedCustomConfig(
    openChance: real,
    offerSwitchUntilOpen: bool,
    knowsPrize: bool,
    whenPickedPrize: PickedPrizeWeights,
    whenPickedNotPrize: NotPrizeWeights,
    unknownPrize: UnknownPrizeWeights)

  /** The form's input fields. */
  datatype FormInputs = FormInputs(
    openChance: real,
    offerSwitchUntilOpen: bool,
    knowsPrize: bool,
    openSelectedIfPicked: real,
    openClosestIfPicked: real,
    openFarthestIfPicked: real,
    noneIfPicked: real,
    openSelectedIfNot: real,
    openPrizeIfNot: real,
    openOtherIfNot: real,
    unknownP1: real,
    unknownP2: real,
    unknownP3: real)

  /** The values the form starts with. */
  const DefaultInputs: FormInputs :=
    FormInputs(1.0, true, true, 0.25, 0.25, 0.25, 0.25, 0.33, 0.33, 0.34, 0.3, 0.3, 0.3)

  /** How far a sum may stray from its target. */
  const Tolerance: real := 0.000001

  function PickedSum(f: FormInputs): real {
    f.openSelectedIfPicked + f.openClosestIfPicked + f.openFarthestIfPicked + f.noneIfPicked
  }

  function NotSum(f: FormInputs): real {
    f.openSelectedIfNot + f.openPrizeIfNot + f.openOtherIfNot
  }

  function UnknownSum(f: FormInputs): real {
    f.unknownP1 + f.unknownP2 + f.unknownP3
  }

  function Abs(x: real): real {
    if x < 0.0 then -x else x
  }

  /** The rejection reasons, each carrying the offending sum. */
  datatype FormError =
    | PickedSumNotOne(sum: real)
    | NotSumNotOne(sum: real)
    | UnknownSumAboveOne(sum: real)

  /** The configuration record, with every input copied as entered. */
  function BuildConfig(f: FormInputs): (c: ExtendedCustomConfig)
    ensures InputsOf(c) == f
  {
    ExtendedCustomConfig(
      f.openChance, f.offerSwitchUntilOpen, f.knowsPrize,
      PickedPrizeWeights(f.openSelectedIfPicked, f.openClosestIfPicked, f.openFarthestIfPicked, f.noneIfPicked),
      NotPrizeWeights(f.openSelectedIfNot, f.openPrizeIfNot, f.openOtherIfNot),
      UnknownPrizeWeights(f.unknownP1, f.unknownP2, f.unknownP3))
  }

  /** Reads the inputs back out of a configuration record. */
  function InputsOf(c: ExtendedCustomConfig): FormInputs {
    FormInputs(
      c.openChance, c.offerSwitchUntilOpen, c.knowsPrize,
      c.whenPickedPrize.openSelected, c.whenPickedPrize.openClosestNonPrize,
      c.whenPickedPrize.openFarthestNonPrize, c.whenPickedPrize.none,
      c.whenPickedNotPrize.openSelected, c.whenPickedNotPrize.openPrize,
      c.whenPickedNotPrize.openOtherNonPrize,
      c.unknownPrize.door1, c.unknownPrize.door2, c.unknownPrize.door3)
  }

  /** The sum constraints of the regime the inputs select. */
  predicate SumsAcceptable(f: FormInputs) {
    if f.knowsPrize then Abs(PickedSum(f) - 1.0) <= Tolerance && Abs(NotSum(f) - 1.0) <= Tolerance
    else UnknownSum(f) <= 1.0 + Tolerance
  }

  /** The checks of a submission, in the source's order: with knowledge of the
      prize, the picked sum then the not-picked sum must be within tolerance of 1;
      without it, the per-door sum must not exceed 1 by more than the tolerance.
      An accepted submission yields the inputs verbatim, never renormalised. */
  function Validate(f: FormInputs): (res: Result<ExtendedCustomConfig, FormError>)
    ensures res.Ok? <==> SumsAcceptable(f)
    ensures res.Ok? ==> InputsOf(res.value) == f
    ensures res.Failure? && f.knowsPrize && Abs(PickedSum(f) - 1.0) > Tolerance ==>
              res.error == PickedSumNotOne(PickedSum(f))
    ensures res.Failure? && f.knowsPrize && Abs(PickedSum(f) - 1.0) <= Tolerance ==>
              res.error == NotSumNotOne(NotSum(f))
    ensures res.Failure? && !f.knowsPrize ==> res.error == UnknownSumAboveOne(UnknownSum(f))
  {
    if f.knowsPrize && Abs(PickedSum(f) - 1.0) > Tolerance then Failure(PickedSumNotOne(PickedSum(f)))
    else if f.knowsPrize && Abs(NotSum(f) - 1.0) > Tolerance then Failure(NotSumNotOne(NotSum(f)))
    else if !f.knowsPrize && UnknownSum(f) > 1.0 + Tolerance then Failure(UnknownSumAboveOne(UnknownSum(f)))
    else Ok(BuildConfig(f))
  }

  /** The form's state that submission touches: the inputs and the error shown. */
  class Form {
    var inputs: FormInputs
    var error: Option<FormError>

    constructor ()
      ensures inputs == DefaultInputs && error.None?
    {
      inputs := DefaultInputs;
      error := None;
    }

    /** A rejection records its reason and submits nothing; an acceptance clears
        the error and submits the configuration. */
    method HandleSubmit() returns (submitted: Option<ExtendedCustomConfig>)
      modifies this`error
      ensures Validate(inputs).Failure? ==> error == Some(Validate(inputs).error) && submitted.None?
      ensures Validate(inputs).Ok? ==> error.None? && submitted == Some(Validate(inputs).value)
    {
      var res := Validate(inputs);
      match res {
        case Failure(e) =>
          error := Some(e);
          submitted := None;
        case Ok(config) =>
          error := None;
          submitted := Some(config);
      }
    }
  }

  // ----- Properties of validation -----

  /** The starting values pass in both regimes, in exact arithmetic. */
  lemma DefaultInputsAccepted()
    ensures Validate(DefaultInputs).Ok?
    ensures Validate(DefaultInputs.(knowsPrize := false)).Ok?
  {
  }

  /** Four weights of 0.25 pass; raising the last to 0.3 is rejected. */
  lemma QuarterWeightsExample(f: FormInputs)
    requires f.knowsPrize && NotSum(f) == 1.0
    requires f.openSelectedIfPicked == 0.25 && f.openClosestIfPicked == 0.25
    requires f.openFarthestIfPicked == 0.25
    ensures f.noneIfPicked == 0.25 ==> Validate(f).Ok?
    ensures f.noneIfPicked == 0.3 ==> Validate(f) == Failure(PickedSumNotOne(1.05))
  {
  }

  /** Without knowledge of the prize, any per-door sum up to 1 passes, and the
      prize-known weights are not looked at. */
  lemma UnknownRegimeAcceptsSumsUpToOne(f: FormInputs)
    requires !f.knowsPrize && UnknownSum(f) <= 1.0
    ensures Validate(f).Ok?
  {
  }

  /** Each regime reads only its own sums: two inputs that agree on the regime
      and on that regime's weights are judged alike, whatever else they hold. */
  lemma RegimesIndependent(f: FormInputs, g: FormInputs)
    requires f.knowsPrize == g.knowsPrize
    requires f.knowsPrize ==> PickedSum(f) == PickedSum(g) && NotSum(f) == NotSum(g)
    requires !f.knowsPrize ==> UnknownSum(f) == UnknownSum(g)
    ensures Validate(f).Ok? <==> Validate(g).Ok?
    ensures Validate(f).Failure? ==> Validate(f).error == Validate(g).error
  {
  }

  /** What an accepted configuration guarantees about its own weights: with
      knowledge of the prize both distributions sum to 1 within the tolerance;
      without it the per-door weights sum to at most 1 plus the tolerance. */
  lemma AcceptedConfigSums(f: FormInputs)
    requires Validate(f).Ok?
    ensures var c := InputsOf(Validate(f).value);
            && (c.knowsPrize ==> Abs(PickedSum(c) - 1.0) <= Tolerance && Abs(NotSum(c) - 1.0) <= Tolerance)
            && (!c.knowsPrize ==> UnknownSum(c) <= 1.0 + Tolerance)
  {
  }

  /** Signs of individual weights and the open chance are never checked: a
      negative weight passes as long as its regime's sums do. */
  lemma NegativeWeightAccepted()
    ensures Validate(DefaultInputs.(openSelectedIfPicked := -0.25, noneIfPicked := 0.75, openChance := -1.0)).Ok?
  {
  }
}
