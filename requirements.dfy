/**
 * The requirement hooks of src/requirements.js: a calculation or side
 * effect may declare the calculations (and a side effect also the side
 * effects) it requires, and the registration of its batch fails unless each
 * of them was registered by an earlier batch.
 *
 * The register of names already registered (`shared.registered`) is a
 * parameter: the set of names whose entry is truthy.
 */
module Requirements {
  import opened Results
  import opened Units

  /** The property a check reads. */
  datatype RequiresProp = RequiresCalculations | RequiresSideEffects

  function PropName(prop: RequiresProp): string
  {
    match prop
    case RequiresCalculations => "requiresCalculations"
    case RequiresSideEffects => "requiresSideEffects"
  }

  /** The three messages of the hooks. */
  datatype Wording = CalculationNeedsCalculation | SideEffectNeedsCalculation | SideEffectNeedsSideEffect

  function Message(wording: Wording, name: string, reqd: string, logId: string): string
  {
    match wording
    case CalculationNeedsCalculation =>
      "Calculation '" + name + "' requires the calculation '" + reqd + "' in " + logId
    case SideEffectNeedsCalculation =>
      "Side effect '" + name + "' requires the calculation '" + reqd + "' in " + logId
    case SideEffectNeedsSideEffect =>
      "Side effect '" + name + "' requires the side-effect '" + reqd + "' in " + logId
  }

  /** `asArray(requires)`: an array as it is, another truthy value as a
      singleton, a falsy value (the empty name among them) as the empty list. */
  function AsArray(req: Requirement): (names: seq<string>)
    ensures req.Several? ==> names == req.names
    ensures req.Single? ==> names == if req.name == "" then [] else [req.name]
    ensures req.NoRequirement? ==> names == []
    ensures "" in names ==> req.Several?
  {
    match req
    case NoRequirement => []
    case Single(name) => if name == "" then [] else [name]
    case Several(names) => names
  }

  /** `named[name][requiresProp]`. */
  function ReadRequirement<W, F>(u: Unit<W, F>, prop: RequiresProp): Result<Requirement>
  {
    match PropsOf(u)
    case None => Throw(PropertyReadError(u.shown, PropName(prop)))
    case Some(props) =>
      Ok(match prop
         case RequiresCalculations => props.requiresCalculations
         case RequiresSideEffects => props.requiresSideEffects)
  }

  /** The inner loop of `checkRequirements`: the requirements of `name` in
      order, up to the first one missing from the register. */
  function CheckNames(name: string, reqs: seq<string>, registered: set<string>, wording: Wording, logId: string): (r: Outcome)
    decreases |reqs|
  {
    if reqs == [] then Pass
    else if reqs[0] !in registered then Fail(Error(Message(wording, name, reqs[0], logId)))
    else CheckNames(name, reqs[1..], registered, wording, logId)
  }

  /** `checkRequirements(requiresProp, named, register, msg)`: each unit in
      key order, each of its requirements in array order. */
  function CheckRequirements<W, F>(prop: RequiresProp, batch: Batch<Unit<W, F>>, registered: set<string>,
                                   wording: Wording, logId: string): Outcome
    decreases |batch|
  {
    if batch == [] then Pass
    else
      match ReadRequirement(batch[0].1, prop)
      case Throw(e) => Fail(e)
      case Ok(req) =>
        match CheckNames(batch[0].0, AsArray(req), registered, wording, logId)
        case Fail(e) => Fail(e)
        case Pass => CheckRequirements(prop, batch[1..], registered, wording, logId)
  }

  /** One thing the check looks at: a property read that throws, or a
      requirement of a named unit. */
  datatype Step = Unreadable(error: Exception) | Needs(name: string, requirement: string)

  /** Every step of a check over `batch`, in the order it takes them, as an
      independent reference for `CheckRequirements`. */
  function Steps<W, F>(prop: RequiresProp, batch: Batch<Unit<W, F>>): seq<Step>
    decreases |batch|
  {
    if batch == [] then []
    else
      match ReadRequirement(batch[0].1, prop)
      case Throw(e) => [Unreadable(e)] + Steps(prop, batch[1..])
      case Ok(req) => NeedsAll(batch[0].0, AsArray(req)) + Steps(prop, batch[1..])
  }

  function NeedsAll(name: string, reqs: seq<string>): (steps: seq<Step>)
    ensures |steps| == |reqs|
    ensures forall i :: 0 <= i < |reqs| ==> steps[i] == Needs(name, reqs[i])
    decreases |reqs|
  {
    if reqs == [] then [] else [Needs(name, reqs[0])] + NeedsAll(name, reqs[1..])
  }

  predicate Met(s: Step, registered: set<string>)
  {
    s.Needs? && s.requirement in registered
  }

  /** The position of the first step that is not met, or the number of steps. */
  function FirstUnmet(steps: seq<Step>, registered: set<string>): (k: nat)
    ensures k <= |steps|
    ensures forall i :: 0 <= i < k ==> Met(steps[i], registered)
    ensures k < |steps| ==> !Met(steps[k], registered)
    decreases |steps|
  {
    if steps == [] || !Met(steps[0], registered) then 0
    else 1 + FirstUnmet(steps[1..], registered)
  }

  /** What a step that is not met throws. */
  function StepError(s: Step, wording: Wording, logId: string): Exception
  {
    match s
    case Unreadable(e) => e
    case Needs(name, reqd) => Error(Message(wording, name, reqd, logId))
  }

  /** The outcome of checking a list of steps: the error of the first that is
      not met. */
  function StepsOutcome(steps: seq<Step>, registered: set<string>, wording: Wording, logId: string): Outcome
  {
    var k := FirstUnmet(steps, registered);
    if k == |steps| then Pass else Fail(StepError(steps[k], wording, logId))
  }

  lemma {:induction false} StepsOutcomeConcat(a: seq<Step>, b: seq<Step>, registered: set<string>, wording: Wording, logId: string)
    ensures StepsOutcome(a + b, registered, wording, logId) ==
              if FirstUnmet(a, registered) < |a| then StepsOutcome(a, registered, wording, logId)
              else StepsOutcome(b, registered, wording, logId)
    decreases |a|
  {
    if a == [] {
      assert a + b == b;
    } else if Met(a[0], registered) {
      assert (a + b)[0] == a[0];
      assert (a + b)[1..] == a[1..] + b;
      StepsOutcomeConcat(a[1..], b, registered, wording, logId);
    } else {
      assert (a + b)[0] == a[0];
    }
  }

  lemma {:induction false} CheckNamesIsFirstUnmet(name: string, reqs: seq<string>, registered: set<string>,
                                                 wording: Wording, logId: string)
    ensures CheckNames(name, reqs, registered, wording, logId) ==
              StepsOutcome(NeedsAll(name, reqs), registered, wording, logId)
    decreases |reqs|
  {
    if reqs != [] {
      CheckNamesIsFirstUnmet(name, reqs[1..], registered, wording, logId);
      assert NeedsAll(name, reqs)[1..] == NeedsAll(name, reqs[1..]);
    }
  }

  /** `checkRequirements` throws the error of the first step, in key then
      array order, that is not met (a unit whose property cannot be read, or
      a requirement missing from the register), and has no effect when there
      is none. */
  lemma {:induction false} CheckRequirementsStopsAtFirstUnmet<W, F>(prop: RequiresProp, batch: Batch<Unit<W, F>>,
                                                                   registered: set<string>, wording: Wording, logId: string)
    ensures CheckRequirements(prop, batch, registered, wording, logId) ==
              StepsOutcome(Steps(prop, batch), registered, wording, logId)
    decreases |batch|
  {
    if batch != [] {
      CheckRequirementsStopsAtFirstUnmet(prop, batch[1..], registered, wording, logId);
      match ReadRequirement(batch[0].1, prop)
      case Throw(e) =>
        StepsOutcomeConcat([Unreadable(e)], Steps(prop, batch[1..]), registered, wording, logId);
      case Ok(req) =>
        var needs := NeedsAll(batch[0].0, AsArray(req));
        CheckNamesIsFirstUnmet(batch[0].0, AsArray(req), registered, wording, logId);
        StepsOutcomeConcat(needs, Steps(prop, batch[1..]), registered, wording, logId);
    }
  }

  /** A batch passes only when every unit's declared requirements are all in
      the register of earlier batches: a name registered in the same batch
      does not count. */
  lemma {:induction false} PassMeansRegisteredEarlier<W, F>(prop: RequiresProp, batch: Batch<Unit<W, F>>,
                                                           registered: set<string>, wording: Wording, logId: string)
    requires CheckRequirements(prop, batch, registered, wording, logId).Pass?
    ensures forall i :: 0 <= i < |batch| ==> ReadRequirement(batch[i].1, prop).Ok?
    ensures forall i, n :: 0 <= i < |batch| && n in AsArray(ReadRequirement(batch[i].1, prop).value) ==> n in registered
    decreases |batch|
  {
    if batch != [] {
      PassMeansRegisteredEarlier(prop, batch[1..], registered, wording, logId);
      var reqs := AsArray(ReadRequirement(batch[0].1, prop).value);
      CheckNamesIsFirstUnmet(batch[0].0, reqs, registered, wording, logId);
      forall n | n in reqs
        ensures n in registered
      {
        var p :| 0 <= p < |reqs| && reqs[p] == n;
        assert Met(NeedsAll(batch[0].0, reqs)[p], registered);
      }
      forall i | 1 <= i < |batch|
        ensures batch[i] == batch[1..][i - 1]
      {
      }
    }
  }

  /** The post-hook of `registerCalculations`: only `requiresCalculations`,
      against the registered calculations. */
  function RegisterCalculations<W, F>(logId: string, calculations: set<string>, batch: Batch<Unit<W, F>>): (r: Outcome)
    ensures r == StepsOutcome(Steps(RequiresCalculations, batch), calculations, CalculationNeedsCalculation, logId)
  {
    CheckRequirementsStopsAtFirstUnmet(RequiresCalculations, batch, calculations, CalculationNeedsCalculation, logId);
    CheckRequirements(RequiresCalculations, batch, calculations, CalculationNeedsCalculation, logId)
  }

  /** The post-hook of `registerSideEffects`: `requiresCalculations` against
      the registered calculations for the whole batch first, then
      `requiresSideEffects` against the registered side effects. */
  function RegisterSideEffects<W, F>(logId: string, calculations: set<string>, sideEffects: set<string>,
                                     batch: Batch<Unit<W, F>>): (r: Outcome)
    ensures var first := StepsOutcome(Steps(RequiresCalculations, batch), calculations, SideEffectNeedsCalculation, logId);
            r == if first.Fail? then first
                 else StepsOutcome(Steps(RequiresSideEffects, batch), sideEffects, SideEffectNeedsSideEffect, logId)
  {
    CheckRequirementsStopsAtFirstUnmet(RequiresCalculations, batch, calculations, SideEffectNeedsCalculation, logId);
    CheckRequirementsStopsAtFirstUnmet(RequiresSideEffects, batch, sideEffects, SideEffectNeedsSideEffect, logId);
    match CheckRequirements(RequiresCalculations, batch, calculations, SideEffectNeedsCalculation, logId)
    case Fail(e) => Fail(e)
    case Pass => CheckRequirements(RequiresSideEffects, batch, sideEffects, SideEffectNeedsSideEffect, logId)
  }
}
