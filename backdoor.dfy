/**
 * The backdoor of src/backdoor.js: the `gather` hooks record what each
 * instance registers in a module-level table `reg`, keyed by the instance's
 * uid, and `expose` hands an instance's entry out.
 *
 * An entry holds the initial state and one table per kind of registered
 * value (`action`, `dispatcher`, `calculation`, `sideEffect`).
 */
module Backdoor {
  import opened Results

  /** The `type` of `save(type)`. */
  datatype Category = ActionEntry | DispatcherEntry | CalculationEntry | SideEffectEntry

  /** `reg[uid]`: the initial state (if set) and the tables created so far. */
  datatype Gathered<V> = Gathered(initialState: Option<V>, tables: map<Category, map<string, V>>)

  /** `reg[uid][type][name]`, or `undefined`. */
  function Lookup<V>(reg: map<string, Gathered<V>>, uid: string, c: Category, name: string): Option<V>
  {
    if uid in reg && c in reg[uid].tables && name in reg[uid].tables[c] then Some(reg[uid].tables[c][name])
    else None
  }

  /** `reg[uid] || {}`. */
  function EntryOf<V>(reg: map<string, Gathered<V>>, uid: string): Gathered<V>
  {
    if uid in reg then reg[uid] else Gathered(None, map[])
  }

  /** The table after the `save(type)` post-hook stores `named` as
      `reg[uid][type][name]`, creating the entry and the table when missing:
      that one place changes and nothing else. */
  function SaveIn<V>(reg: map<string, Gathered<V>>, uid: string, c: Category, name: string, named: V)
    : (r: map<string, Gathered<V>>)
    ensures forall u, c', n :: Lookup(r, u, c', n) == if u == uid && c' == c && n == name then Some(named) else Lookup(reg, u, c', n)
    ensures uid in r && r[uid].initialState == EntryOf(reg, uid).initialState
    ensures forall c' :: c' in r[uid].tables <==> c' == c || c' in EntryOf(reg, uid).tables
    ensures forall u :: u != uid ==> (u in r <==> u in reg) && (u in reg ==> r[u] == reg[u])
  {
    var entry := EntryOf(reg, uid);
    var table := if c in entry.tables then entry.tables[c] else map[];
    reg[uid := Gathered(entry.initialState, entry.tables[c := table[name := named]])]
  }

  /** The table after the `registerState` post-hook sets
      `reg[uid].initialState`, keeping the rest of that entry. */
  function WithInitialState<V>(reg: map<string, Gathered<V>>, uid: string, state: V): (r: map<string, Gathered<V>>)
    ensures uid in r && r[uid].initialState == Some(state)
    ensures r[uid].tables == EntryOf(reg, uid).tables
    ensures forall c, n :: Lookup(r, uid, c, n) == Lookup(reg, uid, c, n)
    ensures forall u :: u != uid ==> (u in r <==> u in reg) && (u in reg ==> r[u] == reg[u])
  {
    reg[uid := Gathered(Some(state), EntryOf(reg, uid).tables)]
  }

  /** `fluxlet.uid`: a function returning the uid, or anything else. */
  datatype UidProp = NoUidFunction | UidFunction(uid: string)

  /** The argument of `expose`: a falsy value, or an object; `shown` is its
      string conversion. */
  datatype Handle = FalsyHandle(shown: string) | ObjectHandle(uidProp: UidProp, shown: string)

  const InvalidFluxlet: string := "Invalid fluxlet given to expose:"

  /** `expose(fluxlet)` on the table `reg`. */
  function ExposeIn<V>(reg: map<string, Gathered<V>>, h: Handle): (r: Result<Option<Gathered<V>>>)
    ensures r.Throw? <==> h.FalsyHandle? || h.uidProp.NoUidFunction?
    ensures r.Throw? ==> r.error == TypeError(InvalidFluxlet + h.shown)
    ensures r.Ok? ==> (r.value.Some? <==> h.uidProp.uid in reg)
    ensures r.Ok? && r.value.Some? ==> r.value.value == reg[h.uidProp.uid]
  {
    match h
    case FalsyHandle(shown) => Throw(TypeError(InvalidFluxlet + shown))
    case ObjectHandle(NoUidFunction, shown) => Throw(TypeError(InvalidFluxlet + shown))
    case ObjectHandle(UidFunction(uid), _) => Ok(if uid in reg then Some(reg[uid]) else None)
  }

  /** After `remove` of a uid, exposing that instance gives `undefined`;
      after a save, exposing it gives an entry holding the saved value. */
  lemma ExposeAfterRemoveAndSave<V>(reg: map<string, Gathered<V>>, uid: string, c: Category, name: string,
                                    named: V, shown: string)
    ensures ExposeIn(reg - {uid}, ObjectHandle(UidFunction(uid), shown)) == Ok(None)
    ensures var r := ExposeIn(SaveIn(reg, uid, c, name, named), ObjectHandle(UidFunction(uid), shown));
            r.Ok? && r.value.Some? && c in r.value.value.tables && r.value.value.tables[c][name] == named
  {
    assert Lookup(SaveIn(reg, uid, c, name, named), uid, c, name) == Some(named);
  }

  /** The module-level `reg` table, which the hooks update in place. */
  class Registry<V> {
    var reg: map<string, Gathered<V>>

    constructor ()
      ensures reg == map[]
    {
      reg := map[];
    }

    /** The `save(type)` post-hook for the value registered as `name` by the
        instance `uid`. */
    method Save(c: Category, uid: string, name: string, named: V)
      modifies this
      ensures reg == SaveIn(old(reg), uid, c, name, named)
    {
      reg := SaveIn(reg, uid, c, name, named);
    }

    /** The `registerState` post-hook. */
    method RegisterState(uid: string, state: V)
      modifies this
      ensures reg == WithInitialState(old(reg), uid, state)
    {
      reg := WithInitialState(reg, uid, state);
    }

    /** The `remove` hook: the instance's whole entry goes, and no other. */
    method Remove(uid: string)
      modifies this
      ensures reg == old(reg) - {uid}
      ensures uid !in reg
      ensures forall u :: u != uid ==> (u in reg <==> u in old(reg)) && (u in reg ==> reg[u] == old(reg)[u])
    {
      reg := reg - {uid};
    }

    /** `expose(fluxlet)`. */
    method Expose(h: Handle) returns (r: Result<Option<Gathered<V>>>)
      ensures r == ExposeIn(reg, h)
    {
      r := ExposeIn(reg, h);
    }
  }
}
