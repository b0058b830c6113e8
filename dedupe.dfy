/**
 * The de-duplication hooks of src/dedupe.js: registering a name that the
 * instance already has fails.
 *
 * The instance's lookups (`fluxlet.has.action`, `.calculation`,
 * `.sideEffect`) are parameters.
 */
module Dedupe {
  import opened Results
  import opened Units

  /** `fluxlet.has`: one lookup per kind. */
  datatype Lookups = Lookups(action: string -> bool, calculation: string -> bool, sideEffect: string -> bool)

  /** The lookup a hook checks its batch against. */
  function LookupFor(has: Lookups, kind: Kind): string -> bool
  {
    match kind
    case ActionKind => has.action
    case CalculationKind => has.calculation
    case SideEffectKind => has.sideEffect
  }

  function KindWord(kind: Kind): string
  {
    match kind
    case ActionKind => "action"
    case CalculationKind => "calculation"
    case SideEffectKind => "side-effect"
  }

  function DuplicateMessage(kind: Kind, name: string, logId: string): string
  {
    "Attempt to add an existing " + KindWord(kind) + " '" + name + "' to " + logId
  }

  /** The position of the first name `has` knows, or the number of names. */
  function FirstExisting(names: seq<string>, has: string -> bool): (k: nat)
    ensures k <= |names|
    ensures forall i :: 0 <= i < k ==> !has(names[i])
    ensures k < |names| ==> has(names[k])
    decreases |names|
  {
    if names == [] || has(names[0]) then 0 else 1 + FirstExisting(names[1..], has)
  }

  /** `checkForDuplicates(named, has, msg)`: the names in key order, up to the
      first one `has` knows. */
  function CheckForDuplicates(names: seq<string>, has: string -> bool, kind: Kind, logId: string): (r: Outcome)
    ensures r.Pass? <==> forall i :: 0 <= i < |names| ==> !has(names[i])
    ensures r.Fail? ==> r.error == Error(DuplicateMessage(kind, names[FirstExisting(names, has)], logId))
    decreases |names|
  {
    if names == [] then Pass
    else if has(names[0]) then Fail(Error(DuplicateMessage(kind, names[0], logId)))
    else CheckForDuplicates(names[1..], has, kind, logId)
  }

  /** The post-hook of `registerActions`, `registerCalculations` or
      `registerSideEffects`: each checks the batch's keys against the lookup
      of its own kind only, and returns nothing, so a batch without a known
      name passes unchanged. */
  function DedupeHook<U>(kind: Kind, logId: string, has: Lookups, batch: Batch<U>): (r: Outcome)
    ensures r.Pass? <==> forall i :: 0 <= i < |batch| ==> !LookupFor(has, kind)(batch[i].0)
    ensures r.Fail? ==>
              r.error == Error(DuplicateMessage(kind, batch[FirstExisting(Keys(batch), LookupFor(has, kind))].0, logId))
  {
    CheckForDuplicates(Keys(batch), LookupFor(has, kind), kind, logId)
  }
}
