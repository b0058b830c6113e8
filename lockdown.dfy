/**
 * The lockdown hooks of src/lockdown.js: once an action has been
 * dispatched, setting the state and registering actions, calculations or
 * side effects all fail.
 *
 * The hooks share one flag, `shared.lockdown`; the `Shared` class holds it.
 */
module Lockdown {
  import opened Results
  import opened Units
  import Utils

  /** The `type` word of `createHook(type)`. */
  function PluralName(kind: Kind): string
  {
    match kind
    case ActionKind => "actions"
    case CalculationKind => "calculations"
    case SideEffectKind => "side effects"
  }

  function StateMessage(logId: string): string
  {
    "Attempt to set state of " + logId + " after the first action was dispatched"
  }

  /** The batch keys appear as `${Object.keys(named)}`, which joins them with commas. */
  function BulkMessage(kind: Kind, keys: seq<string>, logId: string): string
  {
    "Attempt to add " + PluralName(kind) + " " + Utils.Join(keys, ',') + " to " + logId +
    " after the first action was dispatched"
  }

  /** The post-hook `createHook(type)` returns once the flag is set. */
  datatype PostHook = Rejecting(kind: Kind, logId: string)

  /** Calling that post-hook with a batch: it always throws. */
  function RunPostHook(p: PostHook, keys: seq<string>): Outcome
  {
    Fail(Error(BulkMessage(p.kind, keys, p.logId)))
  }

  /** A hook call: a dispatch, a state registration, or the registration of
      a batch of one kind with the given keys. */
  datatype Event = Dispatched | StateRegistered | Registered(kind: Kind, keys: seq<string>)

  /** The flag after one hook call, and how the registration it guards
      completes (a dispatch always completes). */
  function Step(locked: bool, e: Event, logId: string): (r: (bool, Outcome))
    ensures r.0 == (locked || e.Dispatched?)
    ensures r.1.Fail? <==> locked && !e.Dispatched?
    ensures e.StateRegistered? && locked ==> r.1 == Fail(Error(StateMessage(logId)))
    ensures e.Registered? && locked ==> r.1 == RunPostHook(Rejecting(e.kind, logId), e.keys)
  {
    match e
    case Dispatched => (true, Pass)
    case StateRegistered => (locked, if locked then Fail(Error(StateMessage(logId))) else Pass)
    case Registered(kind, keys) => (locked, if locked then RunPostHook(Rejecting(kind, logId), keys) else Pass)
  }

  /** The flag after a run of hook calls, and the outcome of each. */
  function Run(locked: bool, events: seq<Event>, logId: string): (r: (bool, seq<Outcome>))
    ensures |r.1| == |events|
    decreases |events|
  {
    if events == [] then (locked, [])
    else
      var (next, o) := Step(locked, events[0], logId);
      var rest := Run(next, events[1..], logId);
      (rest.0, [o] + rest.1)
  }

  /** Once locked, every registration fails and every dispatch keeps the lock. */
  lemma {:induction false} LockedStaysLocked(events: seq<Event>, logId: string)
    ensures Run(true, events, logId).0
    ensures forall j :: 0 <= j < |events| ==> (Run(true, events, logId).1[j].Fail? <==> !events[j].Dispatched?)
    decreases |events|
  {
    if events != [] {
      LockedStaysLocked(events[1..], logId);
      forall j | 1 <= j < |events|
        ensures events[j] == events[1..][j - 1]
      {
      }
    }
  }

  /** Some dispatch comes before position `j`. */
  ghost predicate DispatchedBefore(events: seq<Event>, j: int)
  {
    exists i :: 0 <= i < j && i < |events| && events[i].Dispatched?
  }

  /** Starting unlocked, a registration fails exactly when some dispatch came
      before it, and the flag ends set exactly when some dispatch happened. */
  lemma {:induction false} LockdownIsPermanent(events: seq<Event>, logId: string)
    ensures Run(false, events, logId).0 <==> DispatchedBefore(events, |events|)
    ensures forall j :: 0 <= j < |events| ==>
              (Run(false, events, logId).1[j].Fail? <==> !events[j].Dispatched? && DispatchedBefore(events, j))
    decreases |events|
  {
    if events != [] {
      var rest := events[1..];
      forall j | 1 <= j < |events|
        ensures events[j] == rest[j - 1]
      {
      }
      if events[0].Dispatched? {
        LockedStaysLocked(rest, logId);
        assert DispatchedBefore(events, |events|);
        forall j | 1 <= j < |events|
          ensures DispatchedBefore(events, j)
        {
        }
      } else {
        LockdownIsPermanent(rest, logId);
        forall j | 1 <= j <= |events|
          ensures DispatchedBefore(events, j) <==> DispatchedBefore(rest, j - 1)
        {
          if DispatchedBefore(events, j) {
            var i :| 0 <= i < j && i < |events| && events[i].Dispatched?;
            assert rest[i - 1].Dispatched?;
          }
          if DispatchedBefore(rest, j - 1) {
            var i :| 0 <= i < j - 1 && i < |rest| && rest[i].Dispatched?;
            assert events[i + 1].Dispatched?;
          }
        }
      }
    }
  }

  /** `shared`, with the one field these hooks use. */
  class Shared {
    var lockdown: bool

    constructor ()
      ensures !lockdown
    {
      lockdown := false;
    }

    /** The `dispatch` hook: sets the flag; nothing clears it. */
    method Dispatch()
      modifies this
      ensures lockdown
    {
      lockdown := true;
    }

    /** The `registerState` hook: throws exactly when the flag is set. */
    method RegisterState(logId: string) returns (r: Outcome)
      ensures r.Fail? <==> lockdown
      ensures r.Fail? ==> r.error == Error(StateMessage(logId))
    {
      if lockdown {
        r := Fail(Error(StateMessage(logId)));
      } else {
        r := Pass;
      }
    }

    /** `createHook(type)` called for a batch registration: a rejecting
        post-hook exactly when the flag is set, and none before, so the batch
        is then left alone. */
    method RegisterBulk(kind: Kind, logId: string) returns (post: Option<PostHook>)
      ensures post.Some? <==> lockdown
      ensures post.Some? ==> post.value == Rejecting(kind, logId)
    {
      if lockdown {
        post := Some(Rejecting(kind, logId));
      } else {
        post := None;
      }
    }

    /** One hook call, as `Step` describes it. */
    method Handle(e: Event, logId: string) returns (r: Outcome)
      modifies this
      ensures (lockdown, r) == Step(old(lockdown), e, logId)
    {
      match e
      case Dispatched =>
        Dispatch();
        r := Pass;
      case StateRegistered =>
        r := RegisterState(logId);
      case Registered(kind, keys) =>
        var post := RegisterBulk(kind, logId);
        r := if post.Some? then RunPostHook(post.value, keys) else Pass;
    }
  }
}
