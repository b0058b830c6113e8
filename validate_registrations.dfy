/**
 * The registration checks of src/validate-registrations.js: every unit of
 * a batch must be a function, or carry a `then` function.
 *
 * The check is looser than the engine's own `createCall`, which also
 * demands a `when` function; `AcceptanceVersusCreateCall` states exactly
 * where the two disagree among the values the model represents.
 */
module ValidateRegistrations {
  import opened Results
  import opened Units

  function Label(kind: Kind): string
  {
    match kind
    case ActionKind => "Action"
    case CalculationKind => "Calculation"
    case SideEffectKind => "Side effect"
  }

  function NotAFunctionMessage(kind: Kind, name: string): string
  {
    Label(kind) + " '" + name + "' must be a function, or an object containing a 'then' function"
  }

  /** `typeof (unit.then || unit) === 'function'`, for a unit whose `then`
      can be read. */
  predicate Accepted<W, F>(props: Props<W, F>, u: Unit<W, F>)
  {
    match props.body
    case Function(_) => true
    case TruthyValue => false
    case _ => u.Callable?
  }

  /** The check of one unit: `Ok(accepted)`, or the engine's error when the
      unit is `undefined` or `null`. */
  function CheckUnit<W, F>(u: Unit<W, F>): (r: Result<bool>)
    ensures r.Throw? <==> u.Nullish?
    ensures r.Throw? ==> r.error == PropertyReadError(u.shown, "then")
    ensures r == Ok(true) <==> !u.Nullish? && (PropsOf(u).value.body.Function? ||
                                              (u.Callable? && !PropsOf(u).value.body.TruthyValue?))
  {
    match PropsOf(u)
    case None => Throw(PropertyReadError(u.shown, "then"))
    case Some(props) => Ok(Accepted(props, u))
  }

  /** The position of the first unit that is not accepted, or the batch length. */
  function FirstRejected<W, F>(batch: Batch<Unit<W, F>>): (k: nat)
    ensures k <= |batch|
    ensures forall i :: 0 <= i < k ==> CheckUnit(batch[i].1) == Ok(true)
    ensures k < |batch| ==> CheckUnit(batch[k].1) != Ok(true)
    decreases |batch|
  {
    if batch == [] || CheckUnit(batch[0].1) != Ok(true) then 0 else 1 + FirstRejected(batch[1..])
  }

  /** `checkFunctions(named, msg)`: the units in key order, up to the first
      one that is not accepted, which throws a TypeError naming it. */
  function CheckFunctions<W, F>(kind: Kind, batch: Batch<Unit<W, F>>): (r: Outcome)
    ensures r.Pass? <==> forall i :: 0 <= i < |batch| ==> CheckUnit(batch[i].1) == Ok(true)
    ensures r.Fail? ==>
              var k := FirstRejected(batch);
              k < |batch| &&
              r.error == match CheckUnit(batch[k].1)
                         case Throw(e) => e
                         case Ok(_) => TypeError(NotAFunctionMessage(kind, batch[k].0))
    decreases |batch|
  {
    if batch == [] then Pass
    else
      match CheckUnit(batch[0].1)
      case Throw(e) => Fail(e)
      case Ok(accepted) =>
        if !accepted then Fail(TypeError(NotAFunctionMessage(kind, batch[0].0)))
        else CheckFunctions(kind, batch[1..])
  }

  /** Where this check and `createCall` disagree, among the values the model
      represents (a `Function` slot or a `Callable` unit is a function with
      a truthy `apply`): an object with a `then`
      function but no `when` function passes here and is rejected there; a
      function whose `then` is a truthy non-function is rejected here and
      accepted there as a plain function. */
  lemma AcceptanceVersusCreateCall<W, F>(u: Unit<W, F>)
    requires !u.Nullish?
    ensures CheckUnit(u) == Ok(true) && !Shaped(u) <==>
              u.Object? && u.props.body.Function? && !u.props.guard.Function?
    ensures Shaped(u) && CheckUnit(u) == Ok(false) <==>
              u.Callable? && u.props.body.TruthyValue?
  {
  }
}
