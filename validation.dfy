/**
 * The validation post-hooks of src/validation.js (and of
 * src/fluxlet-validator.js, which is the same code): a validator is called
 * on the initial state, and on the state after an action or a calculation
 * whenever that step changed it by identity.
 *
 * A validator is a function of the state that completes or throws. The
 * post-hooks return `undefined`, so they never replace the state passed
 * through; a result here says only whether the hook threw, and which state
 * (if any) it gave the validator.
 */
module Validation {
  import opened Results

  /** What a post-hook call did: how it completed, and the state it
      validated, if it called the validator. */
  datatype Checked<S> = Checked(outcome: Outcome, validated: Option<S>)

  /** The `registerState` post-hook: validates every state given to it. */
  function AfterRegisterState<S>(validator: S -> Outcome, state: S): (r: Checked<S>)
    ensures r.validated == Some(state)
    ensures r.outcome == validator(state)
  {
    Checked(validator(state), Some(state))
  }

  /** The `action` post-hook (made with the dispatch's `startState` as
      `reference`) and the `calculation` post-hook (made with the
      calculation's `priorState`): `transientState !== reference &&
      validator(transientState)`. The validator is called exactly when the
      state changed by identity, and its exception is the hook's. */
  function AfterChange<S(==)>(validator: S -> Outcome, reference: S, transientState: S): (r: Checked<S>)
    ensures r.validated.Some? <==> transientState != reference
    ensures r.validated.Some? ==> r.validated.value == transientState && r.outcome == validator(transientState)
    ensures r.validated.None? ==> r.outcome == Pass
  {
    if transientState != reference then Checked(validator(transientState), Some(transientState))
    else Checked(Pass, None)
  }

  /** A call of one of the three post-hooks, with the states the hook and
      its factory are given. */
  datatype HookCall<S> =
    | StateSet(state: S)
    | ActionDone(startState: S, transientState: S)
    | CalculationDone(priorState: S, transientState: S)

  /** The hook object as a whole: the validator sees the initial state, and
      the state after an action or a calculation exactly when that step
      returned a new state. */
  function Hooks<S(==)>(validator: S -> Outcome, call: HookCall<S>): (r: Checked<S>)
    ensures call.StateSet? ==> r.validated == Some(call.state)
    ensures call.ActionDone? ==>
              r.validated == if call.transientState != call.startState then Some(call.transientState) else None
    ensures call.CalculationDone? ==>
              r.validated == if call.transientState != call.priorState then Some(call.transientState) else None
    ensures r.outcome == if r.validated.Some? then validator(r.validated.value) else Pass
  {
    match call
    case StateSet(state) => AfterRegisterState(validator, state)
    case ActionDone(startState, transientState) => AfterChange(validator, startState, transientState)
    case CalculationDone(priorState, transientState) => AfterChange(validator, priorState, transientState)
  }
}
