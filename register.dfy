/**
 * The ordered register of src/register.js: a minimal insertion-ordered map
 * built from an array of names (`ordered`) and a keyed object (`keyed`).
 *
 * `set` appends the name to `ordered` only when `keyed[name]` is not truthy,
 * so a name whose stored value is falsy is appended again when it is set
 * again. JavaScript truthiness of a stored value is the register's
 * `truthy` function.
 */
module Register {
  import opened Results

  /** The register's two halves, as plain values. */
  datatype Table<V> = Table(ordered: seq<string>, keyed: map<string, V>)

  /** `keyed[name]` is truthy (a missing name reads as `undefined`, which is not). */
  predicate Holds<V>(t: Table<V>, truthy: V -> bool, name: string)
  {
    name in t.keyed && truthy(t.keyed[name])
  }

  /** The table after `set(name, value)`. */
  function Put<V>(t: Table<V>, truthy: V -> bool, name: string, value: V): Table<V>
  {
    Table(if Holds(t, truthy, name) then t.ordered else t.ordered + [name],
          t.keyed[name := value])
  }

  /** The names of `ordered` are exactly the keys of `keyed`. */
  ghost predicate Consistent<V>(t: Table<V>)
  {
    (forall i :: 0 <= i < |t.ordered| ==> t.ordered[i] in t.keyed) &&
    (forall n :: n in t.keyed ==> n in t.ordered)
  }

  /** The table of a fresh register after the `set` calls of `history`, in order. */
  function Replay<V>(truthy: V -> bool, history: seq<(string, V)>): Table<V>
    decreases |history|
  {
    if history == [] then Table([], map[])
    else
      var last := history[|history| - 1];
      Put(Replay(truthy, history[..|history| - 1]), truthy, last.0, last.1)
  }

  /** The value given to the most recent `set` of `name` in `history`, if any. */
  function LastSet<V>(history: seq<(string, V)>, name: string): Option<V>
    decreases |history|
  {
    if history == [] then None
    else if history[|history| - 1].0 == name then Some(history[|history| - 1].1)
    else LastSet(history[..|history| - 1], name)
  }

  /** The names of `history`, in call order. */
  function Names<V>(history: seq<(string, V)>): (names: seq<string>)
    ensures |names| == |history|
    ensures forall i :: 0 <= i < |history| ==> names[i] == history[i].0
    decreases |history|
  {
    if history == [] then [] else Names(history[..|history| - 1]) + [history[|history| - 1].0]
  }

  /** Each name once, in the order of its first occurrence. */
  function FirstOccurrences(names: seq<string>): seq<string>
    decreases |names|
  {
    if names == [] then []
    else
      var seen := FirstOccurrences(names[..|names| - 1]);
      if names[|names| - 1] in seen then seen else seen + [names[|names| - 1]]
  }

  /** `get(name)` returns the value of the most recent `set(name, ...)`, and
      `undefined` for a name never set. */
  lemma {:induction false} GetReturnsLastSet<V>(truthy: V -> bool, history: seq<(string, V)>, name: string)
    ensures name in Replay(truthy, history).keyed <==> LastSet(history, name).Some?
    ensures name in Replay(truthy, history).keyed ==>
              LastSet(history, name) == Some(Replay(truthy, history).keyed[name])
    decreases |history|
  {
    if history != [] {
      GetReturnsLastSet(truthy, history[..|history| - 1], name);
    }
  }

  /** No operation removes a name: the order of an earlier moment is a
      prefix of the order of every later one. */
  lemma {:induction false} OrderOnlyGrows<V>(truthy: V -> bool, history: seq<(string, V)>, more: seq<(string, V)>)
    ensures Replay(truthy, history).ordered <= Replay(truthy, history + more).ordered
    decreases |more|
  {
    if more == [] {
      assert history + more == history;
    } else {
      var shorter := more[..|more| - 1];
      assert (history + more)[..|history + more| - 1] == history + shorter;
      OrderOnlyGrows(truthy, history, shorter);
      assert Replay(truthy, history + shorter).ordered <= Replay(truthy, history + more).ordered;
    }
  }

  /** Every name in the order is mapped, and every mapped name is in the order. */
  lemma {:induction false} ReplayConsistent<V>(truthy: V -> bool, history: seq<(string, V)>)
    ensures Consistent(Replay(truthy, history))
    decreases |history|
  {
    if history != [] {
      ReplayConsistent(truthy, history[..|history| - 1]);
    }
  }

  /** When every value set is truthy, every stored value is truthy. */
  lemma {:induction false} StoredValuesTruthy<V>(truthy: V -> bool, history: seq<(string, V)>)
    requires forall i :: 0 <= i < |history| ==> truthy(history[i].1)
    ensures forall n :: n in Replay(truthy, history).keyed ==> truthy(Replay(truthy, history).keyed[n])
    decreases |history|
  {
    if history != [] {
      StoredValuesTruthy(truthy, history[..|history| - 1]);
    }
  }

  /** A name occurs in its first-occurrence list exactly when it occurs at all. */
  lemma {:induction false} FirstOccurrencesMembers(names: seq<string>, n: string)
    ensures n in FirstOccurrences(names) <==> n in names
    decreases |names|
  {
    if names != [] {
      FirstOccurrencesMembers(names[..|names| - 1], n);
      assert names == names[..|names| - 1] + [names[|names| - 1]];
    }
  }

  /** With truthy values only, `forEach` visits each name once, in the order
      of its first `set`. */
  lemma {:induction false} TruthyOrderIsFirstInsertion<V>(truthy: V -> bool, history: seq<(string, V)>)
    requires forall i :: 0 <= i < |history| ==> truthy(history[i].1)
    ensures Replay(truthy, history).ordered == FirstOccurrences(Names(history))
    decreases |history|
  {
    if history != [] {
      var prefix := history[..|history| - 1];
      var name := history[|history| - 1].0;
      TruthyOrderIsFirstInsertion(truthy, prefix);
      ReplayConsistent(truthy, prefix);
      StoredValuesTruthy(truthy, prefix);
      FirstOccurrencesMembers(Names(prefix), name);
      assert Names(history)[..|history| - 1] == Names(prefix);
    }
  }

  /** Setting a name whose stored value is falsy appends it to the order a
      second time, so `forEach` then visits it twice. */
  lemma FalsyResetRepeatsName<V>(truthy: V -> bool, name: string, falsy: V, value: V)
    requires !truthy(falsy)
    ensures Replay(truthy, [(name, falsy), (name, value)]).ordered == [name, name]
  {
    assert [(name, falsy), (name, value)][..1] == [(name, falsy)];
    assert [(name, falsy)][..0] == [];
    assert Replay(truthy, [(name, falsy)]) == Table([name], map[name := falsy]);
  }

  /** The register object, with the array and the object it updates in place. */
  class Register<V> {
    const truthy: V -> bool
    var ordered: seq<string>
    var keyed: map<string, V>

    function Contents(): Table<V>
      reads this
    {
      Table(ordered, keyed)
    }

    ghost predicate Valid()
      reads this
    {
      Consistent(Contents())
    }

    constructor (truthy: V -> bool)
      ensures Valid()
      ensures this.truthy == truthy && Contents() == Table([], map[])
    {
      this.truthy := truthy;
      ordered := [];
      keyed := map[];
    }

    /** `set(name, value)`: store the value, appending the name to the order
        unless it is currently mapped to a truthy value. */
    method Set(name: string, value: V)
      requires Valid()
      modifies this
      ensures Valid()
      ensures Contents() == Put(old(Contents()), truthy, name, value)
    {
      if !(name in keyed && truthy(keyed[name])) {
        ordered := ordered + [name];
      }
      keyed := keyed[name := value];
    }

    /** `get(name)`: the stored value, or `undefined`. */
    method Get(name: string) returns (r: Option<V>)
      ensures r.Some? <==> name in keyed
      ensures r.Some? ==> r.value == keyed[name]
    {
      r := if name in keyed then Some(keyed[name]) else None;
    }

    /** `has(name)`: whether the stored value is truthy. */
    method Has(name: string) returns (b: bool)
      ensures b <==> name in keyed && truthy(keyed[name])
    {
      b := name in keyed && truthy(keyed[name]);
    }

    /** `forEach(iteratee)`: the (value, name) pairs the iteratee is called
        with, in the order of the `ordered` array. */
    method ForEach() returns (calls: seq<(V, string)>)
      requires Valid()
      ensures |calls| == |ordered|
      ensures forall i :: 0 <= i < |ordered| ==> calls[i] == (keyed[ordered[i]], ordered[i])
    {
      calls := [];
      var i := 0;
      while i < |ordered|
        invariant 0 <= i <= |ordered|
        invariant |calls| == i
        invariant forall j :: 0 <= j < i ==> calls[j] == (keyed[ordered[j]], ordered[j])
      {
        calls := calls + [(keyed[ordered[i]], ordered[i])];
        i := i + 1;
      }
    }
  }
}
