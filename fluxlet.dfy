/**
 * A fluxlet instance of src/fluxlet.js: its locker, its `dispatchers`
 * object and its `calculations` and `sideEffects` arrays, the registration
 * methods that fill them, and the dispatch cycle a dispatcher runs.
 *
 * User code (actions, guards, calculations, side effects) is a total
 * function that returns a value or throws. Console logging is left out:
 * `logCall` then only passes its arguments through.
 */
module Fluxlet {
  import opened Results
  import opened Units
  import opened Locker

  /** What `action(...args)` returns: the transform applied to the start
      state, or something that cannot be called. */
  datatype Transform<!S> = Transform(apply: S -> Result<S>) | NotAFunction

  type ActionFn<!S, !Arg> = seq<Arg> -> Result<Transform<S>>
  type ActionGuard<!Arg> = seq<Arg> -> Result<bool>
  type ActionUnit<!S, !Arg> = Unit<ActionGuard<Arg>, ActionFn<S, Arg>>

  /** Calculations and side effects are called with (state, startState). */
  type StateGuard<!S> = ((S, S)) -> Result<bool>
  type CalcFn<!S> = ((S, S)) -> Result<S>
  type EffectFn<!S> = ((S, S)) -> Result<()>
  type CalcUnit<!S> = Unit<StateGuard<S>, CalcFn<S>>
  type EffectUnit<!S> = Unit<StateGuard<S>, EffectFn<S>>
  type Calculation<!S> = Call<StateGuard<S>, CalcFn<S>>
  type SideEffect<!S> = Call<StateGuard<S>, EffectFn<S>>

  /** The function stored at `dispatchers[name]`: the dispatcher of an
      action, or a conditional call whose `then` is that dispatcher. */
  datatype Dispatcher<!S, !Arg> = Dispatcher(name: string, call: Call<ActionGuard<Arg>, ActionFn<S, Arg>>)

  /** What calling a transform that is not a function throws. */
  const NotAFunctionMessage: string := "action(...) is not a function"

  /** `action(...args)(startState)`. */
  function ApplyAction<S, Arg>(action: ActionFn<S, Arg>, args: seq<Arg>, start: S): Result<S>
  {
    match action(args)
    case Throw(e) => Throw(e)
    case Ok(NotAFunction) => Throw(TypeError(NotAFunctionMessage))
    case Ok(Transform(apply)) => apply(start)
  }

  /** The calculation chain: each calculation in order, called with the
      previous result and the start state. */
  function Calculate<S>(calcs: seq<Calculation<S>>, s: S, start: S): Result<S>
    decreases |calcs|
  {
    if calcs == [] then Ok(s)
    else
      match CallUnit(calcs[0], (s, start), s)
      case Throw(e) => Throw(e)
      case Ok(next) => Calculate(calcs[1..], next, start)
  }

  /** The state a dispatch arrives at before it is stored. */
  function EndState<S, Arg>(action: ActionFn<S, Arg>, args: seq<Arg>, calcs: seq<Calculation<S>>, start: S): Result<S>
  {
    match ApplyAction(action, args, start)
    case Throw(e) => Throw(e)
    case Ok(s) => Calculate(calcs, s, start)
  }

  /** The side effects, called in order with (endState, startState) until
      one throws; the second component lists (from `offset`) the positions
      whose body ran. */
  function Notify<S>(effects: seq<SideEffect<S>>, end: S, start: S, offset: nat): (Outcome, seq<nat>)
    decreases |effects|
  {
    if effects == [] then (Pass, [])
    else
      var ran := if Runs(effects[0], (end, start)) then [offset] else [];
      match CallUnit(effects[0], (end, start), ())
      case Throw(e) => (Fail(e), ran)
      case Ok(_) =>
        var rest := Notify(effects[1..], end, start, offset + 1);
        (rest.0, ran + rest.1)
  }

  /** The position of the first side effect whose call throws (its guard or
      its body), or the number of side effects when none does. */
  function FirstThrow<S>(effects: seq<SideEffect<S>>, end: S, start: S): (p: nat)
    ensures p <= |effects|
    ensures forall i :: 0 <= i < p ==> CallUnit(effects[i], (end, start), ()).Ok?
    ensures p < |effects| ==> CallUnit(effects[p], (end, start), ()).Throw?
    decreases |effects|
  {
    if effects == [] || CallUnit(effects[0], (end, start), ()).Throw? then 0
    else 1 + FirstThrow(effects[1..], end, start)
  }

  /** One step of `Notify` past a side effect that completes. */
  lemma NotifyUnfolds<S>(effects: seq<SideEffect<S>>, end: S, start: S, offset: nat)
    requires effects != [] && CallUnit(effects[0], (end, start), ()).Ok?
    ensures var rest := Notify(effects[1..], end, start, offset + 1);
            Notify(effects, end, start, offset) ==
              (rest.0, (if Runs(effects[0], (end, start)) then [offset] else []) + rest.1)
  {
  }

  /** The outcome of the side effects is the exception of the first one that
      throws, and a pass when none does. */
  lemma {:induction false} NotifyStopsAtFirstThrow<S>(effects: seq<SideEffect<S>>, end: S, start: S, offset: nat)
    ensures var r := Notify(effects, end, start, offset);
            var p := FirstThrow(effects, end, start);
            (r.0.Pass? <==> p == |effects|) &&
            (r.0.Fail? ==> p < |effects| && r.0.error == CallUnit(effects[p], (end, start), ()).error)
    decreases |effects|
  {
    if effects != [] && CallUnit(effects[0], (end, start), ()).Ok? {
      var later := effects[1..];
      NotifyStopsAtFirstThrow(later, end, start, offset + 1);
      NotifyUnfolds(effects, end, start, offset);
      var p := FirstThrow(later, end, start);
      if p < |later| {
        assert later[p] == effects[p + 1];
      }
    }
  }

  /** The listed positions are exactly those up to the first throwing side
      effect (included) whose body runs. */
  lemma {:induction false} NotifyListsRuns<S>(effects: seq<SideEffect<S>>, end: S, start: S, offset: nat)
    ensures var r := Notify(effects, end, start, offset);
            forall n :: n in r.1 <==>
              offset <= n < offset + |effects| && n - offset <= FirstThrow(effects, end, start) &&
              Runs(effects[n - offset], (end, start))
    decreases |effects|
  {
    if effects != [] && CallUnit(effects[0], (end, start), ()).Ok? {
      var later := effects[1..];
      NotifyListsRuns(later, end, start, offset + 1);
      NotifyUnfolds(effects, end, start, offset);
      forall i | 1 <= i < |effects|
        ensures later[i - 1] == effects[i]
      {
      }
    }
  }

  /** The listed positions are strictly increasing. */
  lemma {:induction false} NotifyListsInOrder<S>(effects: seq<SideEffect<S>>, end: S, start: S, offset: nat)
    ensures var r := Notify(effects, end, start, offset);
            (forall k :: 0 <= k < |r.1| ==> offset <= r.1[k] < offset + |effects|) &&
            (forall j, k :: 0 <= j < k < |r.1| ==> r.1[j] < r.1[k])
    decreases |effects|
  {
    if effects != [] && CallUnit(effects[0], (end, start), ()).Ok? {
      NotifyListsInOrder(effects[1..], end, start, offset + 1);
      NotifyUnfolds(effects, end, start, offset);
    }
  }

  /** Side effects run in registration order and the first exception stops
      them: the outcome is that exception, if any, and the positions whose
      body ran are, in increasing order, those up to and including the
      throwing one whose body runs. */
  lemma NotifyRunsInOrder<S>(effects: seq<SideEffect<S>>, end: S, start: S, offset: nat)
    ensures var r := Notify(effects, end, start, offset);
            var p := FirstThrow(effects, end, start);
            (forall k :: 0 <= k < |r.1| ==> offset <= r.1[k] < offset + |effects|) &&
            (forall j, k :: 0 <= j < k < |r.1| ==> r.1[j] < r.1[k]) &&
            (r.0.Pass? <==> p == |effects|) &&
            (r.0.Fail? ==> p < |effects| && r.0.error == CallUnit(effects[p], (end, start), ()).error) &&
            (forall i :: 0 <= i < |effects| ==> (offset + i in r.1 <==> i <= p && Runs(effects[i], (end, start))))
  {
    NotifyStopsAtFirstThrow(effects, end, start, offset);
    NotifyListsRuns(effects, end, start, offset);
    NotifyListsInOrder(effects, end, start, offset);
  }

  /** What one dispatch cycle completes with, the state it leaves stored,
      and the side effects whose bodies ran. */
  datatype Cycle<S> = Cycle(outcome: Outcome, stored: S, effectsRun: seq<nat>)

  /** The dispatch cycle on a claimed locker holding `start`. */
  function RunCycle<S(==), Arg>(action: ActionFn<S, Arg>, args: seq<Arg>, calcs: seq<Calculation<S>>,
                                effects: seq<SideEffect<S>>, start: S): (c: Cycle<S>)
    ensures EndState(action, args, calcs, start).Throw? ==>
              c == Cycle(Fail(EndState(action, args, calcs, start).error), start, [])
    ensures c.stored != start <==>
              EndState(action, args, calcs, start).Ok? && EndState(action, args, calcs, start).value != start
    ensures c.stored != start ==>
              c.stored == EndState(action, args, calcs, start).value &&
              (c.outcome, c.effectsRun) == Notify(effects, c.stored, start, 0)
    ensures c.stored == start ==> c.effectsRun == [] && (c.outcome.Fail? ==> EndState(action, args, calcs, start).Throw?)
  {
    match EndState(action, args, calcs, start)
    case Throw(e) => Cycle(Fail(e), start, [])
    case Ok(end) =>
      if end == start then Cycle(Pass, start, [])
      else
        var (o, ran) := Notify(effects, end, start, 0);
        Cycle(o, end, ran)
  }

  /** Calculations registered in two batches fold as the first batch and then
      the second. */
  lemma {:induction false} CalculateConcat<S>(a: seq<Calculation<S>>, b: seq<Calculation<S>>, s: S, start: S)
    ensures Calculate(a + b, s, start) ==
              match Calculate(a, s, start)
              case Throw(e) => Throw(e)
              case Ok(m) => Calculate(b, m, start)
    decreases |a|
  {
    if a == [] {
      assert a + b == b;
    } else {
      assert (a + b)[0] == a[0];
      assert (a + b)[1..] == a[1..] + b;
      match CallUnit(a[0], (s, start), s)
      case Throw(e) =>
      case Ok(next) => CalculateConcat(a[1..], b, next, start);
    }
  }

  /** A chain of conditional calculations whose guards all say no leaves the
      state as it was. */
  lemma {:induction false} SkippedCalculationsKeepState<S>(calcs: seq<Calculation<S>>, s: S, start: S)
    requires forall i :: 0 <= i < |calcs| ==> calcs[i].Conditional? && calcs[i].guard((s, start)) == Ok(false)
    ensures Calculate(calcs, s, start) == Ok(s)
    decreases |calcs|
  {
    if calcs != [] {
      SkippedCalculationsKeepState(calcs[1..], s, start);
    }
  }

  /** The body of a kept call: the function, or `then`. */
  function Body<W, F>(c: Call<W, F>): F
  {
    match c
    case Plain(f) => f
    case Conditional(_, body) => body
  }

  /** The first argument, or `undefined`. */
  function First<Arg>(args: seq<Arg>): Option<Arg>
  {
    if args == [] then None else Some(args[0])
  }

  /** An instance created by the default export, with its locker. */
  class Fluxlet<S(==), Arg> {
    const id: Option<string>
    const locker: Locker<S>
    var dispatchers: map<string, Dispatcher<S, Arg>>
    var calculations: seq<Calculation<S>>
    var sideEffects: seq<SideEffect<S>>

    /** A new instance; `initial` stands for the locker's `undefined` state. */
    constructor (id: Option<string>, initial: S)
      ensures this.id == id && fresh(locker)
      ensures locker.Current() == Lock(initial, Free)
      ensures dispatchers == map[] && calculations == [] && sideEffects == []
    {
      this.id := id;
      locker := new Locker(initial);
      dispatchers := map[];
      calculations := [];
      sideEffects := [];
    }

    /** The dispatcher of `createDispatcher(action, type, name)` called with
        `args`: on a held locker the claim throws and nothing changes;
        otherwise one cycle runs and the locker is free again afterwards,
        whether the cycle completed or threw. */
    method Dispatch(name: string, action: ActionFn<S, Arg>, args: seq<Arg>) returns (r: Outcome, effectsRun: seq<nat>)
      modifies locker
      ensures old(locker.claimed) != Free ==>
                r == Fail(Thrown(ReentryMessage(Some(name), old(locker.claimed)))) &&
                effectsRun == [] && locker.Current() == old(locker.Current())
      ensures old(locker.claimed) == Free ==>
                var c := RunCycle(action, args, calculations, sideEffects, old(locker.state));
                r == c.outcome && effectsRun == c.effectsRun && locker.Current() == Lock(c.stored, Free)
    {
      effectsRun := [];
      var claimed := locker.Claim(Some(name));
      if claimed.Throw? {
        r := Fail(claimed.error);
        return;
      }
      var startState := claimed.value;
      var endState := ApplyAction(action, args, startState);
      if endState.Ok? {
        endState := RunCalculations(endState.value, startState);
      }
      if endState.Throw? {
        r := Fail(endState.error);
      } else {
        var changed := locker.Swap(endState.value);
        r := Pass;
        if changed == Ok(true) {
          r, effectsRun := RunSideEffects(endState.value, startState);
        }
      }
      var released := locker.Release();
    }

    /** The `calculations.forEach` loop of a dispatcher: `endState` passed
        through each calculation in turn, with the start state. */
    method RunCalculations(afterAction: S, startState: S) returns (r: Result<S>)
      ensures r == Calculate(calculations, afterAction, startState)
    {
      var endState := afterAction;
      var i := 0;
      assert calculations[0..] == calculations;
      while i < |calculations|
        invariant 0 <= i <= |calculations|
        invariant Calculate(calculations, afterAction, startState) == Calculate(calculations[i..], endState, startState)
      {
        assert calculations[i..][1..] == calculations[i + 1..];
        var next := CallUnit(calculations[i], (endState, startState), endState);
        if next.Throw? {
          return Throw(next.error);
        }
        endState := next.value;
        i := i + 1;
      }
      r := Ok(endState);
    }

    /** The `sideEffects.forEach` loop of a dispatcher: each side effect in
        turn, with the end and start states, until one throws; `ran` lists
        the positions whose body ran. */
    method RunSideEffects(endState: S, startState: S) returns (r: Outcome, ran: seq<nat>)
      ensures (r, ran) == Notify(sideEffects, endState, startState, 0)
    {
      ran := [];
      var j := 0;
      assert sideEffects[0..] == sideEffects;
      while j < |sideEffects|
        invariant 0 <= j <= |sideEffects|
        invariant Notify(sideEffects, endState, startState, 0).0 == Notify(sideEffects[j..], endState, startState, j).0
        invariant Notify(sideEffects, endState, startState, 0).1 == ran + Notify(sideEffects[j..], endState, startState, j).1
      {
        assert sideEffects[j..][1..] == sideEffects[j + 1..];
        ghost var later := Notify(sideEffects[j + 1..], endState, startState, j + 1);
        var body := if Runs(sideEffects[j], (endState, startState)) then [j] else [];
        var done := CallUnit(sideEffects[j], (endState, startState), ());
        assert done.Throw? ==> Notify(sideEffects[j..], endState, startState, j) == (Fail(done.error), body);
        assert done.Ok? ==> Notify(sideEffects[j..], endState, startState, j) == (later.0, body + later.1);
        assert ran + (body + later.1) == (ran + body) + later.1;
        ran := ran + body;
        if done.Throw? {
          return Fail(done.error), ran;
        }
        j := j + 1;
      }
      assert sideEffects[j..] == [] && ran + [] == ran;
      r := Pass;
    }

    /** Calling `dispatchers[name](...args)`: a conditional action whose
        `when` says no returns its first argument and leaves the locker
        alone; otherwise the dispatcher runs and returns `undefined`. */
    method CallDispatcher(d: Dispatcher<S, Arg>, args: seq<Arg>) returns (r: Result<Option<Arg>>, effectsRun: seq<nat>)
      modifies locker
      ensures d.call.Conditional? && d.call.guard(args).Throw? ==>
                r == Throw(d.call.guard(args).error) && effectsRun == [] && locker.Current() == old(locker.Current())
      ensures d.call.Conditional? && d.call.guard(args) == Ok(false) ==>
                r == Ok(First(args)) && effectsRun == [] && locker.Current() == old(locker.Current())
      ensures Runs(d.call, args) && old(locker.claimed) != Free ==>
                r == Throw(Thrown(ReentryMessage(Some(d.name), old(locker.claimed)))) &&
                effectsRun == [] && locker.Current() == old(locker.Current())
      ensures Runs(d.call, args) && old(locker.claimed) == Free ==>
                var c := RunCycle(Body(d.call), args, calculations, sideEffects, old(locker.state));
                (c.outcome.Pass? ==> r == Ok(None)) && (c.outcome.Fail? ==> r == Throw(c.outcome.error)) &&
                effectsRun == c.effectsRun && locker.Current() == Lock(c.stored, Free)
    {
      effectsRun := [];
      var run := d.call.Plain?;
      if d.call.Conditional? {
        var enabled := d.call.guard(args);
        if enabled.Throw? {
          r := Throw(enabled.error);
          return;
        }
        run := enabled.value;
      }
      if !run {
        r := Ok(First(args));
        return;
      }
      var o;
      o, effectsRun := Dispatch(d.name, Body(d.call), args);
      r := if o.Pass? then Ok(None) else Throw(o.error);
    }

    /** `state(state)`: claim without a name, swap, release. */
    method State(s: S) returns (r: Outcome)
      modifies locker
      ensures (r, locker.Current()) == StoreState(old(locker.Current()), s)
    {
      var claimed := locker.Claim(None);
      if claimed.Throw? {
        r := Fail(claimed.error);
        return;
      }
      var changed := locker.Swap(s);
      r := locker.Release();
    }

    /** `actions(namedActions)`: each action in key order becomes
        `dispatchers[name]`, replacing any earlier one of that name; a
        rejected action throws, keeping those before it. */
    method Actions(batch: Batch<ActionUnit<S, Arg>>) returns (r: Outcome)
      modifies this
      ensures (dispatchers, r) == AddActions(old(dispatchers), batch)
      ensures calculations == old(calculations) && sideEffects == old(sideEffects)
    {
      var i := 0;
      r := Pass;
      assert batch[0..] == batch;
      while i < |batch|
        invariant 0 <= i <= |batch|
        invariant AddActions(old(dispatchers), batch) == AddActions(dispatchers, batch[i..])
        invariant calculations == old(calculations) && sideEffects == old(sideEffects)
      {
        assert batch[i..][1..] == batch[i + 1..];
        var name := batch[i].0;
        var call := CreateCall(ActionKind, name, batch[i].1);
        if call.Throw? {
          r := Fail(call.error);
          return;
        }
        dispatchers := dispatchers[name := Dispatcher(name, call.value)];
        i := i + 1;
      }
    }

    /** `calculations(namedCalculations)`: all of the batch is appended, in
        key order, or none of it. */
    method Calculations(batch: Batch<CalcUnit<S>>) returns (r: Outcome)
      modifies this
      ensures CreateCalls(CalculationKind, batch).Ok? ==>
                r == Pass && calculations == old(calculations) + CreateCalls(CalculationKind, batch).value
      ensures CreateCalls(CalculationKind, batch).Throw? ==>
                r == Fail(CreateCalls(CalculationKind, batch).error) && calculations == old(calculations)
      ensures dispatchers == old(dispatchers) && sideEffects == old(sideEffects)
    {
      var created := CreateCalls(CalculationKind, batch);
      if created.Throw? {
        r := Fail(created.error);
      } else {
        calculations := calculations + created.value;
        r := Pass;
      }
    }

    /** `sideEffects(namedSideEffects)`: all of the batch is appended, in
        key order, or none of it. */
    method SideEffects(batch: Batch<EffectUnit<S>>) returns (r: Outcome)
      modifies this
      ensures CreateCalls(SideEffectKind, batch).Ok? ==>
                r == Pass && sideEffects == old(sideEffects) + CreateCalls(SideEffectKind, batch).value
      ensures CreateCalls(SideEffectKind, batch).Throw? ==>
                r == Fail(CreateCalls(SideEffectKind, batch).error) && sideEffects == old(sideEffects)
      ensures dispatchers == old(dispatchers) && calculations == old(calculations)
    {
      var created := CreateCalls(SideEffectKind, batch);
      if created.Throw? {
        r := Fail(created.error);
      } else {
        sideEffects := sideEffects + created.value;
        r := Pass;
      }
    }

    /** `init(fn)`: `fn` is called with the dispatchers. */
    method Init(fn: map<string, Dispatcher<S, Arg>> -> Outcome) returns (r: Outcome)
      ensures r == fn(dispatchers)
    {
      r := fn(dispatchers);
    }

    /** `debug.state()`: claim as "DEBUG", release, return the state. */
    method DebugState() returns (r: Result<S>)
      modifies locker
      ensures (r, locker.Current()) == PeekState(old(locker.Current()))
    {
      r := locker.Claim(Some("DEBUG"));
      if r.Ok? {
        var released := locker.Release();
      }
    }
  }

  /** The dispatchers after `actions(batch)`, and how the call completes. */
  function AddActions<S, Arg>(table: map<string, Dispatcher<S, Arg>>, batch: Batch<ActionUnit<S, Arg>>)
    : (map<string, Dispatcher<S, Arg>>, Outcome)
    decreases |batch|
  {
    if batch == [] then (table, Pass)
    else if !Shaped(batch[0].1) then (table, Fail(TypeError(ShapeMessage(ActionKind, batch[0].0))))
    else AddActions(table[batch[0].0 := Dispatcher(batch[0].0, ToCall(batch[0].1))], batch[1..])
  }

  /** The keys of a non-empty prefix: the first key, then the keys of the
      rest's prefix. */
  lemma KeysOfPrefix<U>(batch: Batch<U>, k: nat)
    requires 1 <= k <= |batch|
    ensures forall n :: n in Keys(batch[..k]) <==> n == batch[0].0 || n in Keys(batch[1..][..k - 1])
  {
    assert Keys(batch[..k]) == [batch[0].0] + Keys(batch[1..][..k - 1]);
  }

  /** With distinct keys, the first key is not among the later ones, and the
      rest still has distinct keys. */
  lemma DistinctRest<U>(batch: Batch<U>, k: nat)
    requires DistinctKeys(batch) && 1 <= k <= |batch|
    ensures DistinctKeys(batch[1..])
    ensures batch[0].0 !in Keys(batch[1..][..k - 1])
  {
    var later := batch[1..][..k - 1];
    forall p | 0 <= p < |later|
      ensures Keys(later)[p] != batch[0].0
    {
      assert later[p] == batch[p + 1];
    }
  }

  /** `actions(batch)` completes exactly when every action in it is accepted,
      and otherwise throws the message of the first rejected one. */
  lemma {:induction false} AddActionsOutcome<S, Arg>(table: map<string, Dispatcher<S, Arg>>,
                                                   batch: Batch<ActionUnit<S, Arg>>)
    ensures AddActions(table, batch).1.Pass? <==> FirstUnshaped(batch) == |batch|
    ensures AddActions(table, batch).1.Fail? ==>
              AddActions(table, batch).1.error == TypeError(ShapeMessage(ActionKind, batch[FirstUnshaped(batch)].0))
    decreases |batch|
  {
    if batch != [] && Shaped(batch[0].1) {
      var next := table[batch[0].0 := Dispatcher(batch[0].0, ToCall(batch[0].1))];
      AddActionsOutcome(next, batch[1..]);
    }
  }

  /** `actions(batch)` registers every action before the first rejected one
      under its own name, and leaves every other name as it was. */
  lemma {:induction false} AddActionsRegistersPrefix<S, Arg>(table: map<string, Dispatcher<S, Arg>>,
                                                           batch: Batch<ActionUnit<S, Arg>>)
    requires DistinctKeys(batch)
    ensures forall i :: 0 <= i < FirstUnshaped(batch) ==>
              batch[i].0 in AddActions(table, batch).0 &&
              AddActions(table, batch).0[batch[i].0] == Dispatcher(batch[i].0, ToCall(batch[i].1))
    ensures forall n :: n !in Keys(batch[..FirstUnshaped(batch)]) ==>
              (n in AddActions(table, batch).0 <==> n in table) &&
              (n in table ==> AddActions(table, batch).0[n] == table[n])
    decreases |batch|
  {
    if batch == [] || !Shaped(batch[0].1) {
      assert batch[..FirstUnshaped(batch)] == [];
    } else {
      var name := batch[0].0;
      var rest := batch[1..];
      var k := FirstUnshaped(batch);
      var next := table[name := Dispatcher(name, ToCall(batch[0].1))];
      var after := AddActions(next, rest).0;
      assert AddActions(table, batch).0 == after;
      assert FirstUnshaped(rest) == k - 1;
      KeysOfPrefix(batch, k);
      DistinctRest(batch, k);
      AddActionsRegistersPrefix(next, rest);
      forall i | 0 <= i < k
        ensures batch[i].0 in after && after[batch[i].0] == Dispatcher(batch[i].0, ToCall(batch[i].1))
      {
        if i > 0 {
          assert rest[i - 1] == batch[i];
        }
      }
    }
  }
}
