/**
 * The registered units of src/fluxlet.js (actions, calculations and side
 * effects) as JavaScript values, and how `createCall` turns each one into
 * the call the engine keeps: a plain function, or a `when`/`then` pair run
 * through `conditionalCall`.
 *
 * The same value shapes are what the registration hooks of
 * src/validate-registrations.js and src/requirements.js inspect.
 */
module Units {
  import opened Results

  /** A property of a registered value: missing (`undefined`), another falsy
      value, a truthy value that cannot be called, or a function. */
  datatype Slot<F> = Absent | FalsyValue | TruthyValue | Function(f: F)

  /** A `requiresCalculations` / `requiresSideEffects` declaration: a falsy
      value (or none), a single name, or an array of names. `Single("")` is
      the empty string, which is falsy like `NoRequirement`. */
  datatype Requirement = NoRequirement | Single(name: string) | Several(names: seq<string>)

  /** The properties of a registered value that the engine and the hooks read
      (`guard` is its `when` property, `body` its `then` property). */
  datatype Props<W, F> = Props(
    guard: Slot<W>,
    body: Slot<F>,
    requiresCalculations: Requirement,
    requiresSideEffects: Requirement)

  /** The properties of a value that has none of its own (a primitive). */
  function NoProps<W, F>(): Props<W, F>
  {
    Props(Absent, Absent, NoRequirement, NoRequirement)
  }

  /** A registered value: `undefined` or `null` (reading a property of it
      throws), a falsy primitive (`false`, `0`, `""`), an object or truthy
      primitive that cannot be called, or a function, which may carry
      properties of its own. */
  datatype Unit<W, F> =
    | Nullish(shown: string)
    | FalsyPrimitive
    | Object(props: Props<W, F>)
    | Callable(f: F, props: Props<W, F>)

  /** The TypeError the engine throws when a property `prop` is read from
      `undefined` or `null` (`shown` is "undefined" or "null"). */
  function PropertyReadError(shown: string, prop: string): Exception
  {
    TypeError("Cannot read properties of " + shown + " (reading '" + prop + "')")
  }

  /** The properties a unit's property reads see; `None` for `undefined` and
      `null`, whose property reads throw. */
  function PropsOf<W, F>(u: Unit<W, F>): Option<Props<W, F>>
  {
    match u
    case Nullish(_) => None
    case FalsyPrimitive => Some(NoProps())
    case Object(props) => Some(props)
    case Callable(_, props) => Some(props)
  }

  /** A named object of units, as its keys come in `Object.keys` order. */
  type Batch<U> = seq<(string, U)>

  function Keys<U>(batch: Batch<U>): (keys: seq<string>)
    ensures |keys| == |batch|
    ensures forall i :: 0 <= i < |batch| ==> keys[i] == batch[i].0
    decreases |batch|
  {
    if batch == [] then [] else [batch[0].0] + Keys(batch[1..])
  }

  /** Object keys are distinct. */
  ghost predicate DistinctKeys<U>(batch: Batch<U>)
  {
    forall i, j :: 0 <= i < j < |batch| ==> batch[i].0 != batch[j].0
  }

  /** The call the engine keeps for a unit (`guard` and `body` are `when`
      and `then`). */
  datatype Call<W, F> = Plain(f: F) | Conditional(guard: W, body: F)

  /** The `type` word `createCall` puts in its message. */
  datatype Kind = ActionKind | CalculationKind | SideEffectKind

  function KindName(kind: Kind): string
  {
    match kind
    case ActionKind => "action"
    case CalculationKind => "calculation"
    case SideEffectKind => "sideEffect"
  }

  function ShapeMessage(kind: Kind, name: string): string
  {
    KindName(kind) + " '" + name + "' must be a function or an object containing a when & then function"
  }

  /** `fnOrCond && fnOrCond.when && fnOrCond.when.apply && fnOrCond.then &&
      fnOrCond.then.apply`, where a `Function` slot stands for a value with a
      truthy `apply`: the model has no other values with one. */
  predicate HasWhenAndThen<W, F>(u: Unit<W, F>)
  {
    (u.Object? || u.Callable?) && u.props.guard.Function? && u.props.body.Function?
  }

  /** A unit `createCall` accepts: a `when`/`then` pair or a function (a
      value with a truthy `apply`). */
  predicate Shaped<W, F>(u: Unit<W, F>)
  {
    HasWhenAndThen(u) || u.Callable?
  }

  /** The call kept for an accepted unit: the conditional form takes
      precedence over the unit being a function itself. */
  function ToCall<W, F>(u: Unit<W, F>): (c: Call<W, F>)
    requires Shaped(u)
    ensures c.Conditional? <==> HasWhenAndThen(u)
    ensures c.Conditional? ==> c == Conditional(u.props.guard.f, u.props.body.f)
    ensures c.Plain? ==> u.Callable? && c == Plain(u.f)
  {
    if HasWhenAndThen(u) then Conditional(u.props.guard.f, u.props.body.f) else Plain(u.f)
  }

  /** `createCall(type, name, fnOrCond, wrap)`, with the wrapping (logging,
      or the dispatcher for an action) left to the caller. */
  function CreateCall<W, F>(kind: Kind, name: string, u: Unit<W, F>): (r: Result<Call<W, F>>)
    ensures r.Ok? <==> Shaped(u)
    ensures r.Ok? ==> r.value == ToCall(u)
    ensures r.Throw? ==> r.error == TypeError(ShapeMessage(kind, name))
  {
    if HasWhenAndThen(u) then Ok(Conditional(u.props.guard.f, u.props.body.f))
    else if u.Callable? then Ok(Plain(u.f))
    else Throw(TypeError(ShapeMessage(kind, name)))
  }

  /** The index of the first unit `createCall` rejects, or the batch length. */
  function FirstUnshaped<W, F>(batch: Batch<Unit<W, F>>): (k: nat)
    ensures k <= |batch|
    ensures forall i :: 0 <= i < k ==> Shaped(batch[i].1)
    ensures k < |batch| ==> !Shaped(batch[k].1)
    decreases |batch|
  {
    if batch == [] then 0
    else if !Shaped(batch[0].1) then 0
    else 1 + FirstUnshaped(batch[1..])
  }

  /** `createCalls(type, obj, wrap)`: every unit mapped through `createCall`
      before anything is kept, so one rejected unit rejects the whole batch
      with the error of the first. */
  function CreateCalls<W, F>(kind: Kind, batch: Batch<Unit<W, F>>): (r: Result<seq<Call<W, F>>>)
    ensures r.Ok? <==> FirstUnshaped(batch) == |batch|
    ensures r.Ok? ==> |r.value| == |batch| && forall i :: 0 <= i < |batch| ==> r.value[i] == ToCall(batch[i].1)
    ensures r.Throw? ==> r.error == TypeError(ShapeMessage(kind, batch[FirstUnshaped(batch)].0))
    decreases |batch|
  {
    if batch == [] then Ok([])
    else
      match CreateCall(kind, batch[0].0, batch[0].1)
      case Throw(e) => Throw(e)
      case Ok(c) =>
        match CreateCalls(kind, batch[1..])
        case Throw(e) => Throw(e)
        case Ok(rest) => Ok([c] + rest)
  }

  /** `conditionalCall(when, then)(...args)`: `then(...args)` when the guard
      holds, otherwise the first argument, without calling `then`. */
  function ConditionalCall<A, R>(guard: A -> Result<bool>, body: A -> Result<R>, args: A, first: R): (r: Result<R>)
    ensures guard(args).Throw? ==> r == Throw(guard(args).error)
    ensures guard(args) == Ok(false) ==> r == Ok(first)
    ensures guard(args) == Ok(true) ==> r == body(args)
  {
    match guard(args)
    case Throw(e) => Throw(e)
    case Ok(enabled) => if enabled then body(args) else Ok(first)
  }

  /** Calling a kept call with its arguments (`first` is `args[0]`). */
  function CallUnit<A, R>(c: Call<A -> Result<bool>, A -> Result<R>>, args: A, first: R): Result<R>
  {
    match c
    case Plain(f) => f(args)
    case Conditional(guard, body) => ConditionalCall(guard, body, args, first)
  }

  /** Whether calling `c` runs its body (the function, or `then`). */
  predicate Runs<A, R>(c: Call<A -> Result<bool>, A -> Result<R>>, args: A)
  {
    c.Plain? || c.guard(args) == Ok(true)
  }
}
