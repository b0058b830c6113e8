# Fluxlet, modelled in Dafny

Fluxlet is a small JavaScript state container. An instance holds one state
value in a *locker*. Named **actions** become dispatchers. Dispatching an
action:

1. claims the locker;
2. applies the action's transform to the start state;
3. folds the registered **calculations** over the result;
4. stores the end state;
5. calls the **side effects** only when the state changed by identity;
6. releases the locker.

Optional hook modules add checks around registration and dispatch:

- requirements between units;
- duplicate names;
- unit shapes;
- a lockdown after the first dispatch;
- state validation;
- a debugging backdoor.

The utilities include a persistent path update on JSON-like trees (`update`),
function chaining, and a small insertion-ordered register.

This project models each of those source files:

| file | models |
|---|---|
| `results.dfy` | The completions shared by every module: a value or a throw. |
| `locker.dfy` | `createLocker` as a class with `state` and `claimed` fields. Its methods are proved equal to pure step functions. |
| `units.dfy` | Registered values and their shapes. How `createCall`/`createCalls` turn them into plain or conditional calls, and `conditionalCall`. |
| `fluxlet.dfy` | An instance as a class: its locker, `dispatchers`, `calculations` and `sideEffects`. It has the registration methods and the dispatcher. The dispatcher's two loops are proved against the pure cycle `RunCycle`. |
| `register.dfy` | The ordered register (`src/register.js`) as a class, with its truthiness quirk, proved against a replay of `set` calls. |
| `utils.dfy` | `update` with `doUpdate`/`cloneAndSet`, and `chain`. JavaScript object identity is modelled by a reference carried by every container. |
| `requirements.dfy`, `dedupe.dfy`, `validate_registrations.dfy` | The registration checks as pure functions. Each has an independent reference definition of "first failure". |
| `lockdown.dfy` | The shared `lockdown` flag as a class, plus a pure replay of hook calls. |
| `validation.dfy` | The validator post-hooks of `src/validation.js` and of `src/fluxlet-validator.js`, which has identical code. |
| `backdoor.dfy` | The `reg` table as a class updated in place, and `expose`. |

User code is modelled as total Dafny functions that return a value or throw:

- actions, guards (`when`), calculations and side effects;
- validators and `update` value functions.

The hook modules read host inputs, and those inputs are explicit parameters:

- `shared.registered`;
- `fluxlet.has`;
- `shared.lockdown`;
- `uid`.

Identity (`!==`) on states is `!=` on an abstract state type.

The repository's tests (`test/fluxlet.js`, for example its `validator` suite
at line 104, and its `remove` test at line 34) exercise a later, hook-based
`fluxlet.js` than the one in `src/`. The model follows the code of
`src/fluxlet.js` as it stands:

- a conditional unit needs both `when` and `then`;
- `when` receives the dispatcher arguments;
- the error texts are those of that file.

## Model

| member | source | states |
|---|---|---|
| Locker.ClaimedBy | src/fluxlet.js:148 | The holder recorded by `byAction \|\| true`: the action name, or the anonymous holder `true` when the name is missing or empty. It is never free. |
| Locker.ClaimStep | src/fluxlet.js:144-150 | On a held locker, the claim throws a message naming the requested action and the current holder, and leaves both bindings unchanged. On a free locker, it returns the stored state and records the holder. |
| Locker.SwapStep | src/fluxlet.js:152-161 | On a free locker, the swap throws and changes nothing. Otherwise it reports whether the new state differs by identity, and stores it. |
| Locker.ReleaseStep | src/fluxlet.js:163-168 | On a free locker, the release throws. Otherwise it frees the holder and keeps the state. |
| Locker.StoreState | src/fluxlet.js:88-94 | `state(s)` on a free locker stores `s` and leaves the locker free. On a held locker, its anonymous claim throws and nothing changes. |
| Locker.PeekState | src/fluxlet.js:127-131 | `debug.state()` returns the stored state and leaves the locker exactly as it was. On a held locker, it throws the reentry message for "DEBUG". |
| Locker.Locker.constructor | src/fluxlet.js:139-141 | A new locker holds the initial state and is free. |
| Locker.Locker.Claim | src/fluxlet.js:144-150 | Its result and the new bindings are exactly `ClaimStep` of the old bindings. |
| Locker.Locker.Swap | src/fluxlet.js:152-161 | Its result and the new bindings are exactly `SwapStep` of the old bindings. |
| Locker.Locker.Release | src/fluxlet.js:163-168 | Its result and the new bindings are exactly `ReleaseStep` of the old bindings. |
| Units.ToCall | src/fluxlet.js:63-66 | The kept call is conditional exactly when both `when` and `then` are callable, and then it holds those two. Otherwise it is plain and holds the unit itself, which is callable. Callable stands for a truthy `.apply`; see "## Left out". |
| Units.CreateCall | src/fluxlet.js:60-70 | A unit is accepted exactly when it has callable `when` and `then`, or is callable itself. Callable stands for a truthy `.apply`; see "## Left out". A rejected unit throws the TypeError naming its type and name. |
| Units.FirstUnshaped | src/fluxlet.js:83-85 | The position of the first unit `createCall` rejects: every unit before it is accepted, and the unit at it is not. |
| Units.CreateCalls | src/fluxlet.js:83-85 | A batch maps to one call per key in key order, exactly when every unit is accepted. Otherwise it throws the error of the first rejected unit, so nothing is kept. |
| Units.ConditionalCall | src/fluxlet.js:72-81 | A guard that throws propagates its error. A false guard returns the first argument without calling `then`. A true guard returns `then`'s completion. |
| Fluxlet.FirstThrow | src/fluxlet.js:43-45 | The position of the first side effect whose call throws, its guard or its body: every earlier call completes, and the call at it throws. |
| Fluxlet.NotifyStopsAtFirstThrow | src/fluxlet.js:43-45 | About `Notify`: its outcome is the exception of the call at `FirstThrow`, and a pass exactly when no call throws. |
| Fluxlet.NotifyListsRuns | src/fluxlet.js:43-45 | About `Notify`: a number is listed exactly when it is the position of a side effect, at or before `FirstThrow`, whose body runs. |
| Fluxlet.NotifyListsInOrder | src/fluxlet.js:43-45 | About `Notify`: the listed positions are in range and strictly increasing. |
| Fluxlet.NotifyRunsInOrder | src/fluxlet.js:43-45 | About `Notify`, the side-effect loop, with `FirstThrow` as the reference for its stopping point. The outcome is the exception of the first side effect whose call throws, or a pass when none does. The positions whose body ran are strictly increasing and in range. They are exactly the positions up to and including that first throw whose body runs, so nothing after a throw runs. |
| Fluxlet.RunCycle | src/fluxlet.js:30-46 | Over `EndState` (`ApplyAction` then `Calculate`) and `Notify`. An error from the action or from a calculation leaves the start state stored and runs no side effect. The stored state differs from the start state exactly when the end state does, and side effects run only in that case. |
| Fluxlet.CalculateConcat | src/fluxlet.js:35-37 | About `Calculate`, the calculation chain. Calculations appended by two `calculations` calls fold as the first batch, then the second on its result. An error in the first batch stops the chain. |
| Fluxlet.SkippedCalculationsKeepState | src/fluxlet.js:72-81 | About `Calculate`: a chain of conditional calculations whose guards all say no leaves the state as it was. |
| Fluxlet.Fluxlet.constructor | src/fluxlet.js:2-6 | A new instance has a fresh, free locker holding the undefined state, no dispatchers, no calculations and no side effects. |
| Fluxlet.Fluxlet.Dispatch | src/fluxlet.js:23-51 | On a held locker, the claim throws the reentry message naming this action and the holder, and nothing changes. This includes a dispatch from inside another dispatch. Otherwise the outcome, the side effects run and the stored state are those of `RunCycle`, and the locker is free afterwards whether the cycle completed or threw. |
| Fluxlet.Fluxlet.RunCalculations | src/fluxlet.js:35-37 | The loop reassigning `endState` ends with exactly the chain `Calculate`: each calculation in order, given the previous result and the start state. The first exception ends it. |
| Fluxlet.Fluxlet.RunSideEffects | src/fluxlet.js:43-45 | The loop's outcome and the bodies it ran are exactly `Notify` of the end and start states. |
| Fluxlet.Fluxlet.CallDispatcher | src/fluxlet.js:63-81 | A conditional action whose `when` throws or says no returns that error or its first argument, without touching the locker. Otherwise its dispatcher runs as `Dispatch` states and returns `undefined`. |
| Fluxlet.Fluxlet.State | src/fluxlet.js:88-94 | Its outcome and the new locker are `StoreState` of the old locker. |
| Fluxlet.Fluxlet.Actions | src/fluxlet.js:96-101 | The dispatchers and the outcome are exactly `AddActions` of the old dispatchers. Calculations and side effects are unchanged. |
| Fluxlet.AddActionsOutcome | src/fluxlet.js:96-101 | About `AddActions`, the registration loop of `actions`. It completes exactly when every action is accepted. Otherwise it throws the TypeError of the first rejected one. |
| Fluxlet.AddActionsRegistersPrefix | src/fluxlet.js:96-101 | About `AddActions`: every action before the first rejected one becomes the dispatcher under its own name, replacing any earlier one. Every other name keeps what it had. |
| Fluxlet.Fluxlet.Calculations | src/fluxlet.js:103-106 | The whole batch is appended, in key order, when every unit is accepted. Otherwise nothing is appended and the first rejection is thrown. Dispatchers and side effects are unchanged. |
| Fluxlet.Fluxlet.SideEffects | src/fluxlet.js:108-111 | The same all-or-nothing append, for side effects. |
| Fluxlet.Fluxlet.Init | src/fluxlet.js:113-116 | `fn` is called with the current dispatchers, and its completion is the call's. |
| Fluxlet.Fluxlet.DebugState | src/fluxlet.js:127-131 | Its result and the new locker are `PeekState` of the old locker. |
| Register.Register.constructor | src/register.js:7-9 | A new register is empty and consistent. |
| Register.Register.Set | src/register.js:11-16 | The name is appended to the order exactly when it is not currently mapped to a truthy value. The value is always stored. Order and keys stay consistent. |
| Register.Register.Get | src/register.js:17-19 | The stored value, or `undefined` for a name never set. |
| Register.Register.Has | src/register.js:20-22 | True exactly when the stored value is truthy. |
| Register.Register.ForEach | src/register.js:23-25 | The iteratee is called once per entry of the order array, in that order, with (current value, name). |
| Register.GetReturnsLastSet | src/register.js:11-19 | About `Replay` of `Put` steps, the register after a sequence of `set` calls. `get(name)` is the value of the most recent `set(name, …)`, and `undefined` if there was none. |
| Register.OrderOnlyGrows | src/register.js:7-27 | About `Put`: no operation removes a name, so the order at any moment is a prefix of the order at every later moment. |
| Register.ReplayConsistent | src/register.js:11-16 | About `Replay`: after any sequence of `set` calls, the names in the order are exactly the stored keys. |
| Register.StoredValuesTruthy | src/register.js:11-16 | About `Replay`: when every value set is truthy, every stored value is truthy. |
| Register.FirstOccurrencesMembers | src/register.js:23-25 | A name is in the first-occurrence list exactly when it occurs at all. |
| Register.TruthyOrderIsFirstInsertion | src/register.js:11-25 | About `Replay`: with truthy values only, `forEach` visits each name once, in the order of its first `set`. |
| Register.FalsyResetRepeatsName | src/register.js:12-14 | About `Put`: setting again a name whose stored value is falsy appends it a second time. |
| Utils.CloneAndSet | src/utils.js:14-22 | The result is a new container of the same kind. It differs from the original only at `key`, which holds the value or is missing when the value is `undefined`. Every other child is the very same child. |
| Utils.Split | src/utils.js:25-27 | `split('.')` gives at least one part, no part contains a dot, and joining the parts with dots gives the text back. |
| Utils.SplitAfterPart | src/utils.js:25-27 | A dot-free part followed by a dot splits off as the first part. |
| Utils.SplitWhole | src/utils.js:25-27 | A dot-free part splits to itself alone. |
| Utils.SplitJoin | src/utils.js:25-27 | Splitting a dot-join of dot-free parts gives the parts back. |
| Utils.NormalisePath | src/utils.js:25-31 | A non-empty string path becomes its dot-separated keys, and a non-empty array stays as it is. Anything else throws the path TypeError before any container is looked at. |
| Utils.DoUpdate | src/utils.js:36-45 | The result is the original container, or a container whose reference lies in the range `[next, returned next)` that this update consumed. References are only consumed. |
| Utils.Update | src/utils.js:24-49 | A bad path throws the path TypeError. Otherwise the result is the container itself or a fresh copy. |
| Utils.LookupStep | src/utils.js:41-42 | Following a path from a container is following the rest of it from the child at the first key. |
| Utils.OpenStep | src/utils.js:37-42 | Every value before the leaf is a container exactly when the container is one and the same holds from its child. |
| Utils.UpdateSucceedsIff | src/utils.js:36-45 | About `DoUpdate`: the update succeeds exactly when every value on the path before the leaf is a container and the new leaf computes. An exception of the value function propagates unchanged. |
| Utils.UpdateFailsAtFirstGap | src/utils.js:37-39 | About `DoUpdate`: the first non-container on the path is the one reported, with the prefix of the path before it and the value found there. |
| Utils.UnchangedReturnsContainer | src/utils.js:44 | About `DoUpdate`: when the new leaf is identical to the old one, the original container comes back by reference, and no reference is used. |
| Utils.ChangedCopiesPath | src/utils.js:42-44 | About `DoUpdate`: when the new leaf differs, every container on the path is a fresh shallow copy differing only at the path key, and off-path children are shared. An `undefined` leaf deletes the key. |
| Utils.FreshCopiesDoNotCollide | src/utils.js:36-45 | About `DoUpdate`: when every reference in the tree and in the new leaf was handed out before `next`, so is every reference in the result before the returned `next`. A copy never takes the identity of an existing object. |
| Utils.ReadBack | src/utils.js:41-44 | About `DoUpdate`: reading the path back from the result gives the new leaf. |
| Utils.RepeatIsNoOp | src/utils.js:33-44 | About `DoUpdate`: applying the same plain-value update to its own result returns that result unchanged. |
| Utils.ChainConcat | src/utils.js:62-64 | About `Chain`, `chain` called with an initial state. Chaining two lists of functions applies the first list, then the second to its result, left to right. |
| Requirements.AsArray | src/requirements.js:84-86 | An array stays as it is, and a non-empty name becomes a singleton. A falsy value, including the empty name, becomes the empty list, so an empty name can only come from an array. |
| Requirements.NeedsAll | src/requirements.js:76-80 | One requirement step per declared name, in array order. |
| Requirements.FirstUnmet | src/requirements.js:74-82 | The position of the first step that is not met: every step before it is met, and the step at it is not. |
| Requirements.StepsOutcomeConcat | src/requirements.js:74-82 | Checking two step lists in turn stops at a failure in the first list, and otherwise is the check of the second. |
| Requirements.CheckNamesIsFirstUnmet | src/requirements.js:76-80 | About `CheckNames`, the inner loop: it throws for the first requirement missing from the register, and only then. |
| Requirements.CheckRequirementsStopsAtFirstUnmet | src/requirements.js:74-82 | About `CheckRequirements`: `checkRequirements` throws the error of the first step, in key then array order, that is not met: an unreadable unit or a missing requirement. With no such step, it has no effect. |
| Requirements.PassMeansRegisteredEarlier | src/requirements.js:74-82 | A batch passes only when every declared requirement of every unit is in the register of earlier batches. A sibling in the same batch does not count. |
| Requirements.RegisterCalculations | src/requirements.js:52-58 | Calculations are checked only for `requiresCalculations`, against the registered calculations. |
| Requirements.RegisterSideEffects | src/requirements.js:60-70 | Side effects are checked for `requiresCalculations` against calculations first. Only when that passes are they checked for `requiresSideEffects` against side effects. |
| Dedupe.FirstExisting | src/dedupe.js:35-41 | The position of the first key the lookup knows: no key before it is known, and the key at it is. |
| Dedupe.CheckForDuplicates | src/dedupe.js:35-41 | Passes exactly when no key is already known. Otherwise it throws "Attempt to add an existing <kind> '<name>' to <logId>" for the first known key in key order. |
| Dedupe.DedupeHook | src/dedupe.js:9-31 | Each kind's post-hook checks the batch keys against that kind's own lookup only. A batch without a known key passes. |
| ValidateRegistrations.CheckUnit | src/validate-registrations.js:30 | A unit is accepted exactly when its `then` is a function, or when `then` is falsy and the unit is a function. Reading `then` from `undefined` or `null` throws. |
| ValidateRegistrations.FirstRejected | src/validate-registrations.js:28-34 | The position of the first unit not accepted: every unit before it is accepted, and the unit at it is not. |
| ValidateRegistrations.CheckFunctions | src/validate-registrations.js:28-34 | Passes exactly when every unit is accepted. Otherwise the first unit not accepted, in key order, throws the per-kind TypeError naming it. |
| ValidateRegistrations.AcceptanceVersusCreateCall | src/validate-registrations.js:30 | This check accepts an object with a `then` function and no `when` function, which `createCall` rejects. It rejects a function whose `then` is a truthy non-function, which `createCall` accepts. These are the only disagreements among the values the model represents. Values whose `apply` property disagrees with being a function are not represented; see "## Left out". |
| Lockdown.Step | src/lockdown.js:3-26 | A dispatch sets the flag and nothing clears it. A registration fails exactly when the flag is set, with the state message or the post-hook's message. |
| Lockdown.LockedStaysLocked | src/lockdown.js:18-25 | Once locked, every later registration fails and every dispatch succeeds. |
| Lockdown.LockdownIsPermanent | src/lockdown.js:3-26 | From an unlocked start, a registration fails exactly when some dispatch came before it. |
| Lockdown.Shared.Dispatch | src/lockdown.js:3-5 | The `dispatch` hook sets the flag. |
| Lockdown.Shared.RegisterState | src/lockdown.js:7-11 | The `registerState` hook throws "Attempt to set state of <logId> after the first action was dispatched" exactly when the flag is set. |
| Lockdown.Shared.RegisterBulk | src/lockdown.js:18-26 | The bulk hooks return a rejecting post-hook exactly when the flag is set. Before that they return none, and the batch is left alone. |
| Lockdown.Shared.Handle | src/lockdown.js:2-16 | Any hook call changes the flag and completes as `Step` says. |
| Validation.AfterRegisterState | src/validation.js:23-27 | The validator is called on every state given, and its exception is the hook's. |
| Validation.AfterChange | src/validation.js:29-43 | The `action` and `calculation` post-hooks call the validator exactly when the transient state differs by identity from the reference state: the start state for an action, the prior state for a calculation. The validator's exception is the hook's, and otherwise the hook passes. |
| Validation.Hooks | src/fluxlet-validator.js:2-24 | The validator is called on the initial state, and after an action or a calculation exactly when it returned a new state by identity. The hook throws exactly what the validator throws. |
| Backdoor.SaveIn | src/backdoor.js:40-46 | The value is stored at `reg[uid][type][name]`, and missing tables are created. Every other place reads as before, the entry's initial state is kept, and other uids are untouched. |
| Backdoor.WithInitialState | src/backdoor.js:17-20 | The uid's initial state is set, its tables are kept, and other uids are untouched. |
| Backdoor.ExposeIn | src/backdoor.js:30-35 | A falsy argument, or one without a function `uid`, throws the TypeError. Otherwise it returns the entry for `uid()`, or `undefined`. |
| Backdoor.ExposeAfterRemoveAndSave | src/backdoor.js:25-46 | After `remove`, exposing that instance gives `undefined`. After a save, exposing it gives an entry holding the saved value. |
| Backdoor.Registry.constructor | src/backdoor.js:38 | The table starts empty. |
| Backdoor.Registry.Save | src/backdoor.js:40-46 | The table becomes `SaveIn` of the old table. |
| Backdoor.Registry.RegisterState | src/backdoor.js:17-20 | The table becomes `WithInitialState` of the old table. |
| Backdoor.Registry.Remove | src/backdoor.js:25-27 | The uid's whole entry is deleted, and every other uid is untouched. |
| Backdoor.Registry.Expose | src/backdoor.js:30-35 | Returns `ExposeIn` of the current table. |

## Left out

- Console logging is not modelled because it is output only. This covers `log`, the logging half of `logCall`, the `logging` configuration and `logging(categories)`.
- The `dispatchers` argument that side effects receive is not modelled, so a side effect cannot call a dispatcher here. A nested dispatch would meet a held locker, and `Fluxlet.Fluxlet.Dispatch` states that such a dispatch throws and changes nothing.
- Fluxlet.RunCycle, Fluxlet.NotifyRunsInOrder: side-effect bodies have no effects beyond completing or throwing. Their external work is outside the model.
- Registration methods return `this` for chaining. The model returns only how the call completed.
- `debug.id`, `debug.locker`, `debug.dispatchers`, `debug.calculations` and `debug.sideEffects` are not modelled. They only hand out internal values, which are the class's fields.
- This version of `src/fluxlet.js` has no hook router, named-instance table, `has`, `remove` or `validator`. The hook modules therefore take their inputs as parameters and are not wired into `Fluxlet.Fluxlet`.
- Fluxlet.ApplyAction, Requirements.ReadRequirement, ValidateRegistrations.CheckUnit: the TypeError texts for calling a non-function and for reading a property of `undefined`/`null` are the JavaScript engine's. The model fixes one wording.
- Utils: arrays are containers with string keys. `length`, holes and prototype properties are not modelled, and neither are functions stored as values in a tree.
- Utils.DeepFreeze: `Object.freeze` is the identity here, because immutability is not observable in the model.
- `onlyIfDiffers`, `clickAction` and `deferred` in `src/utils.js` are not modelled. They rely on a foreign deep-equality routine, DOM events and timers.
- Utils.Chain: `chain(...fns)` is modelled only when called with an initial state. Called with no argument, `reduce` has no seed. On an empty list it throws. On a non-empty list the first function is itself the seed, so it is never called, and the second function receives it. Neither case is modelled.
- Register.Register.ForEach: an iteratee that changes the register during the walk is not modelled. The iteratee's calls are returned as a sequence.
- Requirements: a requirement name that is not a string is taken as its property-key text. The register is the set of names whose entry is truthy.
- Backdoor.ExposeIn, Backdoor.Registry.Expose: `expose` returns the live `reg[uid]` object, so later `save` calls show through it, and a caller can change it in place. The model returns a snapshot of the entry's value, and aliasing with the table is not captured.
- Fluxlet.Fluxlet.Init: `init(fn)` passes the live `dispatchers` object. Dispatchers that later `actions` calls add show through it, and `fn` may keep it and call its dispatchers later. The model passes the current map as a value to `fn`, which returns only how it completed. Later calls through a retained dispatcher are `Fluxlet.Fluxlet.CallDispatcher`.
- Utils.DoUpdate, Utils.Update: a copy's reference is fresh only relative to the references below `next`. The caller must choose `next` above every reference in the tree and in the new leaf. `Utils.FreshCopiesDoNotCollide` proves that, when it does, every reference in the result lies below the returned `next`. There is no global heap that enforces the choice.
- Utils: numbers are integers (`Json.Num(int)`). Fractions, infinities and `NaN` are not modelled. In particular, `NaN !== NaN` would make writing `NaN` over `NaN` copy the path, which the model cannot express.
- Backdoor: the uid is a property-key string, and `expose`'s message uses the argument's string conversion, given as text. A `uid()` that throws, whose exception would leave `expose`, is not modelled.
- Units.ToCall, Units.CreateCall, ValidateRegistrations.AcceptanceVersusCreateCall: `createCall` tests for a truthy `.apply`, not for a function. The model's `Slot.Function` and `Unit.Callable` stand for values with a truthy `apply`. Values where the two differ are not represented. One is an object with a truthy `apply` property, such as `{apply: 1}`. `createCall` accepts it as a plain call that throws only when called, and `{when: {apply: 1}, then: f}` is conditional there. The other is a function whose `apply` is set to a falsy value, which `createCall` rejects.
- ValidateRegistrations.AcceptanceVersusCreateCall: it characterises the disagreements only among represented values. `{apply: 1}` is accepted by `createCall` and rejected by `checkFunctions`, whose `typeof` test sees an object, and is outside the model.
