/**
 * The state locker of src/fluxlet.js (`createLocker`): one state value and
 * a holder that is either free or claimed on behalf of an action.
 *
 * `claim` fails while the locker is held, `swap` and `release` fail while it
 * is free; each failure throws a bare string and changes nothing.
 */
module Locker {
  import opened Results

  /** A name that `byAction || true` keeps: the empty string is falsy. */
  type ActionName = s: string | s != "" witness "a"

  /** The `claimed` binding: `false`, an action name, or `true` (a claim made
      without a name, or with the empty name). */
  datatype Holder = Free | ByAction(name: ActionName) | Anonymous

  /** The holder as string concatenation shows it. */
  function HolderText(h: Holder): string
  {
    match h
    case Free => "false"
    case ByAction(name) => name
    case Anonymous => "true"
  }

  /** `byAction || true`. */
  function ClaimedBy(byAction: Option<string>): (h: Holder)
    ensures h != Free
    ensures h.ByAction? <==> byAction.Some? && byAction.value != ""
    ensures h.ByAction? ==> h.name == byAction.value
  {
    match byAction
    case Some(name) => if name == "" then Anonymous else ByAction(name)
    case None => Anonymous
  }

  /** The requested action name as string concatenation shows it. */
  function RequestText(byAction: Option<string>): string
  {
    match byAction
    case Some(name) => name
    case None => "undefined"
  }

  function ReentryMessage(byAction: Option<string>, holder: Holder): string
  {
    "Attempt to call the action '" + RequestText(byAction) + "' within action '" + HolderText(holder) + "'"
  }

  const SwapUnclaimed: string := "Attempted to swap an unclaimed state"
  const ReleaseUnclaimed: string := "Attempted to release an unclaimed state"

  /** The locker's two bindings, as a value. */
  datatype Lock<S> = Lock(state: S, holder: Holder)

  /** `claim(byAction)`: the stored state and the locker afterwards. */
  function ClaimStep<S>(l: Lock<S>, byAction: Option<string>): (r: (Result<S>, Lock<S>))
    ensures l.holder != Free ==> r == (Throw(Thrown(ReentryMessage(byAction, l.holder))), l)
    ensures l.holder == Free ==> r.0 == Ok(l.state) && r.1 == Lock(l.state, ClaimedBy(byAction))
  {
    if l.holder != Free then (Throw(Thrown(ReentryMessage(byAction, l.holder))), l)
    else (Ok(l.state), Lock(l.state, ClaimedBy(byAction)))
  }

  /** `swap(newState)`: whether the state changed by identity, and the locker afterwards. */
  function SwapStep<S(==)>(l: Lock<S>, newState: S): (r: (Result<bool>, Lock<S>))
    ensures l.holder == Free ==> r == (Throw(Thrown(SwapUnclaimed)), l)
    ensures l.holder != Free ==> r.0 == Ok(newState != l.state) && r.1 == Lock(newState, l.holder)
  {
    if l.holder == Free then (Throw(Thrown(SwapUnclaimed)), l)
    else if newState != l.state then (Ok(true), Lock(newState, l.holder))
    else (Ok(false), l)
  }

  /** `release()`: the locker afterwards. */
  function ReleaseStep<S>(l: Lock<S>): (r: (Outcome, Lock<S>))
    ensures l.holder == Free ==> r == (Fail(Thrown(ReleaseUnclaimed)), l)
    ensures l.holder != Free ==> r == (Pass, Lock(l.state, Free))
  {
    if l.holder == Free then (Fail(Thrown(ReleaseUnclaimed)), l)
    else (Pass, Lock(l.state, Free))
  }

  /** The claim-swap-release sequence of `state(s)`: on a free locker it stores
      `s` and leaves the locker free; on a held one the claim throws and
      nothing changes. */
  function StoreState<S(==)>(l: Lock<S>, s: S): (r: (Outcome, Lock<S>))
    ensures l.holder == Free ==> r == (Pass, Lock(s, Free))
    ensures l.holder != Free ==> r == (Fail(Thrown(ReentryMessage(None, l.holder))), l)
  {
    var (claimed, l1) := ClaimStep(l, None);
    if claimed.Throw? then (Fail(claimed.error), l1)
    else
      var (swapped, l2) := SwapStep(l1, s);
      match swapped
      case Throw(e) => (Fail(e), l2)
      case Ok(_) => ReleaseStep(l2)
  }

  /** The claim-release sequence of `debug.state()`: the stored state, and
      the locker exactly as it was. */
  function PeekState<S>(l: Lock<S>): (r: (Result<S>, Lock<S>))
    ensures r.1 == l
    ensures l.holder == Free ==> r.0 == Ok(l.state)
    ensures l.holder != Free ==> r.0 == Throw(Thrown(ReentryMessage(Some("DEBUG"), l.holder)))
  {
    var (claimed, l1) := ClaimStep(l, Some("DEBUG"));
    if claimed.Throw? then (claimed, l1)
    else
      var (released, l2) := ReleaseStep(l1);
      match released
      case Fail(e) => (Throw(e), l2)
      case Pass => (claimed, l2)
  }

  /** The locker object, with its two bindings as fields. */
  class Locker<S(==)> {
    var state: S
    var claimed: Holder

    function Current(): Lock<S>
      reads this
    {
      Lock(state, claimed)
    }

    /** `createLocker(initialState)`. */
    constructor (initialState: S)
      ensures Current() == Lock(initialState, Free)
    {
      state := initialState;
      claimed := Free;
    }

    method Claim(byAction: Option<string>) returns (r: Result<S>)
      modifies this
      ensures (r, Current()) == ClaimStep(old(Current()), byAction)
    {
      if claimed != Free {
        r := Throw(Thrown(ReentryMessage(byAction, claimed)));
        return;
      }
      claimed := ClaimedBy(byAction);
      r := Ok(state);
    }

    method Swap(newState: S) returns (r: Result<bool>)
      modifies this
      ensures (r, Current()) == SwapStep(old(Current()), newState)
    {
      if claimed == Free {
        r := Throw(Thrown(SwapUnclaimed));
        return;
      }
      if newState != state {
        state := newState;
        r := Ok(true);
      } else {
        r := Ok(false);
      }
    }

    method Release() returns (r: Outcome)
      modifies this
      ensures (r, Current()) == ReleaseStep(old(Current()))
    {
      if claimed == Free {
        r := Fail(Thrown(ReleaseUnclaimed));
        return;
      }
      claimed := Free;
      r := Pass;
    }
  }
}
