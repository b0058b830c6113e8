/**
 * The persistent path update and the function chaining of src/utils.js.
 *
 * `update(path, value)(container)` rebuilds only the containers on `path`:
 * each of them is replaced by a shallow copy that differs at the path key,
 * every other child is shared, and when the new leaf is identical (`===`)
 * to the old one the original container is returned as it is. To model
 * identity, every object or array carries a reference; a copy takes a
 * reference that has not been handed out yet (`next`), the way a JavaScript
 * allocation does.
 */
module Utils {
  import opened Results

  /** A value reachable in the state tree. Objects and arrays are
      `Container`s: `ref` is their identity and `entries` their own
      properties (for an array, its indices written in decimal). */
  datatype Json =
    | Undefined
    | Null
    | Bool(b: bool)
    | Num(n: int)
    | Str(s: string)
    | Container(ref: nat, isArray: bool, entries: map<string, Json>)

  /** `a === b`: the same object for containers, the same value otherwise. */
  predicate Same(a: Json, b: Json)
  {
    if a.Container? && b.Container? then a.ref == b.ref else a == b
  }

  /** Every reference in `j` was handed out before `next`. */
  predicate RefsBelow(j: Json, next: nat)
  {
    match j
    case Container(ref, _, entries) =>
      ref < next && forall k :: k in entries ==> RefsBelow(entries[k], next)
    case _ => true
  }

  /** `container[key]`: a missing property reads as `undefined`. */
  function Get(c: Json, key: string): Json
    requires c.Container?
  {
    if key in c.entries then c.entries[key] else Undefined
  }

  /** The value found by following `path` through containers from `j`. */
  function Lookup(j: Json, path: seq<string>): Json
    decreases |path|
  {
    if path == [] then j
    else if j.Container? then Lookup(Get(j, path[0]), path[1..])
    else Undefined
  }

  /** `deepFreeze`: `Object.freeze` has no effect on the value itself. */
  function DeepFreeze(j: Json): Json
  {
    j
  }

  /** Apart from `key`, `after` has the same properties as `before`, each
      holding the very same child. */
  ghost predicate SharedBesides(before: Json, after: Json, key: string)
    requires before.Container? && after.Container?
  {
    forall k :: k != key ==>
      (k in after.entries <==> k in before.entries) &&
      (k in before.entries ==> after.entries[k] == before.entries[k])
  }

  /** `cloneAndSet`: a shallow copy, with `ref` as its new identity, that
      stores `value` at `key`, or lacks `key` when `value` is `undefined`. */
  function CloneAndSet(c: Json, key: string, value: Json, ref: nat): (r: Json)
    requires c.Container?
    ensures r.Container? && r.ref == ref && r.isArray == c.isArray
    ensures SharedBesides(c, r, key)
    ensures Get(r, key) == value
    ensures value == Undefined ==> key !in r.entries
  {
    DeepFreeze(Container(ref, c.isArray,
                         if value == Undefined then c.entries - {key} else c.entries[key := value]))
  }

  // ---------------------------------------------------------------------
  // Paths and messages

  /** The path argument of `update`: a string, an array of keys, or anything
      else (`undefined`, a number, an object without `slice`, ...). */
  datatype PathArg = PathString(text: string) | PathArray(keys: seq<string>) | NotAPath

  /** The new leaf: a function of the old leaf (which may throw), or a value. */
  datatype NewValue = Compute(f: Json -> Result<Json>) | Fixed(v: Json)

  const PathError: string := "path should be a non-empty String or Array"

  /** `parts.join(sep)`. */
  function Join(parts: seq<string>, sep: char): string
    decreases |parts|
  {
    if parts == [] then ""
    else if |parts| == 1 then parts[0]
    else parts[0] + [sep] + Join(parts[1..], sep)
  }

  /** `text.split(sep)`: the maximal runs between separators, always at least one. */
  function Split(text: string, sep: char): (parts: seq<string>)
    ensures |parts| >= 1
    ensures forall i :: 0 <= i < |parts| ==> sep !in parts[i]
    ensures Join(parts, sep) == text
    decreases |text|
  {
    if text == [] then [""]
    else
      var rest := Split(text[1..], sep);
      if text[0] == sep then [""] + rest
      else
        assert Join(rest, sep) == text[1..];
        [[text[0]] + rest[0]] + rest[1..]
  }

  /** A separator-free part splits to itself. */
  lemma {:induction false} SplitWhole(part: string, sep: char)
    requires sep !in part
    ensures Split(part, sep) == [part]
    decreases |part|
  {
    if part != [] {
      SplitWhole(part[1..], sep);
      assert [part[0]] + part[1..] == part;
    }
  }

  /** Splitting a separator-free part followed by a separator peels that part off. */
  lemma {:induction false} SplitAfterPart(part: string, sep: char, rest: string)
    requires sep !in part
    ensures Split(part + [sep] + rest, sep) == [part] + Split(rest, sep)
    decreases |part|
  {
    var text := part + [sep] + rest;
    if part == [] {
      assert text[0] == sep && text[1..] == rest;
    } else {
      assert text[0] == part[0] != sep;
      assert text[1..] == part[1..] + [sep] + rest;
      SplitAfterPart(part[1..], sep, rest);
      var later := Split(text[1..], sep);
      assert later[0] == part[1..] && later[1..] == Split(rest, sep);
      assert Split(text, sep) == [[part[0]] + later[0]] + later[1..];
      assert [part[0]] + part[1..] == part;
    }
  }

  /** Splitting a join of separator-free parts gives the parts back. */
  lemma {:induction false} SplitJoin(parts: seq<string>, sep: char)
    requires |parts| >= 1
    requires forall i :: 0 <= i < |parts| ==> sep !in parts[i]
    ensures Split(Join(parts, sep), sep) == parts
    decreases |parts|
  {
    if |parts| == 1 {
      SplitWhole(parts[0], sep);
    } else {
      SplitJoin(parts[1..], sep);
      SplitAfterPart(parts[0], sep, Join(parts[1..], sep));
      assert [parts[0]] + parts[1..] == parts;
    }
  }

  /** The keys of the path, or the `TypeError` that `update` throws before it
      looks at any container. */
  function NormalisePath(path: PathArg): (r: Result<seq<string>>)
    ensures r.Ok? <==> (path.PathString? && path.text != []) || (path.PathArray? && path.keys != [])
    ensures r.Ok? ==> |r.value| >= 1
    ensures r.Ok? && path.PathString? ==>
              Join(r.value, '.') == path.text && forall i :: 0 <= i < |r.value| ==> '.' !in r.value[i]
    ensures r.Ok? && path.PathArray? ==> r.value == path.keys
    ensures r.Throw? ==> r.error == TypeError(PathError)
  {
    match path
    case PathString(text) => if text == [] then Throw(TypeError(PathError)) else Ok(Split(text, '.'))
    case PathArray(keys) => if keys == [] then Throw(TypeError(PathError)) else Ok(keys)
    case NotAPath => Throw(TypeError(PathError))
  }

  function Digit(d: nat): char
    requires d < 10
  {
    "0123456789"[d]
  }

  function NatText(n: nat): string
    decreases n
  {
    if n < 10 then [Digit(n)] else NatText(n / 10) + [Digit(n % 10)]
  }

  /** A primitive as a template literal shows it. */
  function Display(j: Json): string
  {
    match j
    case Undefined => "undefined"
    case Null => "null"
    case Bool(b) => if b then "true" else "false"
    case Num(n) => if n < 0 then "-" + NatText(-n) else NatText(n)
    case Str(s) => s
    case Container(_, isArray, _) => if isArray then "" else "[object Object]"
  }

  /** The message of the `TypeError` for a non-container found at `path[..idx]`;
      the prefix is shown the way an array converts to a string (comma-joined). */
  function UpdateFailure(path: seq<string>, idx: nat, got: Json): string
    requires idx <= |path|
  {
    "update of path '" + Join(path, '.') + "' failed, expecting an Object or Array at: '"
      + Join(path[..idx], ',') + "' got: " + Display(got)
  }

  // ---------------------------------------------------------------------
  // update

  /** `getValue(old)`: the function's result, or the fixed value. */
  function GetValue(value: NewValue, prev: Json): Result<Json>
  {
    match value
    case Compute(f) => f(prev)
    case Fixed(v) => Ok(v)
  }

  /** `doUpdate(container, idx)` with the next unused reference: the updated
      container and the next unused reference afterwards. The result is the
      container itself or a fresh copy. */
  function DoUpdate(path: seq<string>, idx: nat, value: NewValue, c: Json, next: nat): (r: Result<(Json, nat)>)
    requires idx < |path|
    ensures r.Ok? ==> next <= r.value.1
    ensures r.Ok? ==> r.value.0 == c || (r.value.0.Container? && next <= r.value.0.ref < r.value.1)
    decreases |path| - idx
  {
    if !c.Container? then Throw(TypeError(UpdateFailure(path, idx, c)))
    else
      var key := path[idx];
      var sub :=
        if idx + 1 < |path| then DoUpdate(path, idx + 1, value, Get(c, key), next)
        else match GetValue(value, Get(c, key))
          case Ok(v) => Ok((v, next))
          case Throw(e) => Throw(e);
      match sub
      case Throw(e) => Throw(e)
      case Ok((v, n)) =>
        if !Same(v, Get(c, key)) then Ok((CloneAndSet(c, key, v, n), n + 1)) else Ok((c, n))
  }

  /** `update(path, value)(container)`: the path is checked first, then the
      tree is rebuilt from the root. */
  function Update(path: PathArg, value: NewValue, container: Json, next: nat): (r: Result<(Json, nat)>)
    ensures NormalisePath(path).Throw? ==> r == Throw(TypeError(PathError))
    ensures r.Ok? ==> r.value.0 == container || (r.value.0.Container? && next <= r.value.0.ref < r.value.1)
  {
    match NormalisePath(path)
    case Throw(e) => Throw(e)
    case Ok(keys) => DoUpdate(keys, 0, value, container, next)
  }

  /** The leaf value the update computes from the prev leaf. */
  function NewLeaf(value: NewValue, c: Json, path: seq<string>, idx: nat): Result<Json>
    requires idx <= |path|
  {
    GetValue(value, Lookup(c, path[idx..]))
  }

  /** Every value met on `path` from `idx` on, before the leaf, is a container. */
  ghost predicate OpenTo(c: Json, path: seq<string>, idx: nat)
    requires idx <= |path|
  {
    forall m :: idx <= m < |path| ==> Lookup(c, path[idx..m]).Container?
  }

  /** Every container on the path is a fresh copy (reference in [lo, hi)) of the
      prev one, sharing all children off the path. */
  ghost predicate CopiedAlong(c: Json, r: Json, path: seq<string>, idx: nat, lo: nat, hi: nat)
    requires idx <= |path|
  {
    forall m :: idx <= m < |path| ==>
      && Lookup(c, path[idx..m]).Container?
      && Lookup(r, path[idx..m]).Container?
      && lo <= Lookup(r, path[idx..m]).ref < hi
      && Lookup(r, path[idx..m]).isArray == Lookup(c, path[idx..m]).isArray
      && SharedBesides(Lookup(c, path[idx..m]), Lookup(r, path[idx..m]), path[m])
  }

  lemma LookupStep(c: Json, path: seq<string>, idx: nat, j: nat)
    requires c.Container? && idx < j <= |path|
    ensures Lookup(c, path[idx..j]) == Lookup(Get(c, path[idx]), path[idx + 1..j])
  {
    assert path[idx..j][0] == path[idx];
    assert path[idx..j][1..] == path[idx + 1..j];
  }

  lemma OpenStep(c: Json, path: seq<string>, idx: nat)
    requires c.Container? && idx < |path|
    ensures OpenTo(c, path, idx) <==> OpenTo(Get(c, path[idx]), path, idx + 1)
  {
    assert Lookup(c, path[idx..idx]) == c;
    var child := Get(c, path[idx]);
    if OpenTo(child, path, idx + 1) {
      forall m | idx <= m < |path|
        ensures Lookup(c, path[idx..m]).Container?
      {
        if m > idx {
          LookupStep(c, path, idx, m);
          assert Lookup(child, path[idx + 1..m]).Container?;
        }
      }
    }
    if OpenTo(c, path, idx) {
      var below := idx + 1;
      forall m | below <= m < |path|
        ensures Lookup(child, path[below..m]).Container?
      {
        LookupStep(c, path, idx, m);
        assert Lookup(c, path[idx..m]).Container?;
      }
    }
  }

  /** The update succeeds exactly when every value on the path before the leaf
      is a container and computing the new leaf does not throw; an exception
      of the value function propagates unchanged. */
  lemma {:induction false} UpdateSucceedsIff(path: seq<string>, idx: nat, value: NewValue, c: Json, next: nat)
    requires idx < |path|
    ensures DoUpdate(path, idx, value, c, next).Ok? <==> OpenTo(c, path, idx) && NewLeaf(value, c, path, idx).Ok?
    ensures OpenTo(c, path, idx) && NewLeaf(value, c, path, idx).Throw? ==>
              DoUpdate(path, idx, value, c, next) == Throw(NewLeaf(value, c, path, idx).error)
    decreases |path| - idx
  {
    assert Lookup(c, path[idx..idx]) == c;
    if c.Container? {
      OpenStep(c, path, idx);
      LookupStep(c, path, idx, |path|);
      assert path[idx..|path|] == path[idx..];
      if idx + 1 < |path| {
        UpdateSucceedsIff(path, idx + 1, value, Get(c, path[idx]), next);
      } else {
        assert path[idx + 1..] == [];
      }
    }
  }

  /** The first value on the path that is not a container is the one the
      `TypeError` reports, with the keys that led to it. */
  lemma {:induction false} UpdateFailsAtFirstGap(path: seq<string>, idx: nat, value: NewValue, c: Json, next: nat, j: nat)
    requires idx <= j < |path|
    requires forall m :: idx <= m < j ==> Lookup(c, path[idx..m]).Container?
    requires !Lookup(c, path[idx..j]).Container?
    ensures DoUpdate(path, idx, value, c, next) == Throw(TypeError(UpdateFailure(path, j, Lookup(c, path[idx..j]))))
    decreases j - idx
  {
    assert Lookup(c, path[idx..idx]) == c;
    if j > idx {
      assert c.Container?;
      var child := Get(c, path[idx]);
      var below := idx + 1;
      forall m | below <= m < j
        ensures Lookup(child, path[below..m]).Container?
      {
        LookupStep(c, path, idx, m);
        assert Lookup(c, path[idx..m]).Container?;
      }
      LookupStep(c, path, idx, j);
      UpdateFailsAtFirstGap(path, idx + 1, value, child, next, j);
    }
  }

  /** When the new leaf is identical to the prev one, the container comes back
      by reference and no reference is used. */
  lemma {:induction false} UnchangedReturnsContainer(path: seq<string>, idx: nat, value: NewValue, c: Json, next: nat)
    requires idx < |path|
    requires DoUpdate(path, idx, value, c, next).Ok?
    requires NewLeaf(value, c, path, idx).Ok?
    requires Same(NewLeaf(value, c, path, idx).value, Lookup(c, path[idx..]))
    ensures DoUpdate(path, idx, value, c, next) == Ok((c, next))
    decreases |path| - idx
  {
    var key := path[idx];
    LookupStep(c, path, idx, |path|);
    assert path[idx..|path|] == path[idx..];
    if idx + 1 < |path| {
      UnchangedReturnsContainer(path, idx + 1, value, Get(c, key), next);
    } else {
      assert path[idx + 1..] == [];
    }
  }

  /** When the new leaf differs, every container on the path is replaced by a
      fresh shallow copy that shares every child off the path, and an
      `undefined` leaf removes the key instead of storing it. */
  lemma {:induction false} ChangedCopiesPath(path: seq<string>, idx: nat, value: NewValue, c: Json, next: nat)
    requires idx < |path|
    requires RefsBelow(c, next)
    requires DoUpdate(path, idx, value, c, next).Ok?
    requires NewLeaf(value, c, path, idx).Ok?
    requires !Same(NewLeaf(value, c, path, idx).value, Lookup(c, path[idx..]))
    ensures CopiedAlong(c, DoUpdate(path, idx, value, c, next).value.0, path, idx,
                        next, DoUpdate(path, idx, value, c, next).value.1)
    ensures NewLeaf(value, c, path, idx).value == Undefined ==>
              path[|path| - 1] !in Lookup(DoUpdate(path, idx, value, c, next).value.0, path[idx..|path| - 1]).entries
    decreases |path| - idx
  {
    var key := path[idx];
    var prev := Get(c, key);
    var (r, n) := DoUpdate(path, idx, value, c, next).value;
    LookupStep(c, path, idx, |path|);
    assert path[idx..|path|] == path[idx..];
    assert Lookup(c, path[idx..idx]) == c && Lookup(r, path[idx..idx]) == r;
    if idx + 1 < |path| {
      var (v, ns) := DoUpdate(path, idx + 1, value, prev, next).value;
      ChangedCopiesPath(path, idx + 1, value, prev, next);
      assert path[idx + 1..idx + 1] == [];
      assert v.Container? && next <= v.ref;
      assert !Same(v, prev);
      assert r == CloneAndSet(c, key, v, ns) && n == ns + 1;
      forall m | idx < m <= |path|
        ensures Lookup(r, path[idx..m]) == Lookup(v, path[idx + 1..m])
        ensures Lookup(c, path[idx..m]) == Lookup(prev, path[idx + 1..m])
      {
        LookupStep(c, path, idx, m);
        LookupStep(r, path, idx, m);
      }
    } else {
      assert path[idx + 1..] == [];
      assert path[idx..|path| - 1] == [];
    }
  }

  /** Reading the path back from the result gives the new leaf (the very same
      value, for an object). */
  lemma {:induction false} ReadBack(path: seq<string>, idx: nat, value: NewValue, c: Json, next: nat)
    requires idx < |path|
    requires RefsBelow(c, next)
    requires DoUpdate(path, idx, value, c, next).Ok?
    ensures NewLeaf(value, c, path, idx).Ok?
    ensures Same(Lookup(DoUpdate(path, idx, value, c, next).value.0, path[idx..]), NewLeaf(value, c, path, idx).value)
    decreases |path| - idx
  {
    var key := path[idx];
    var prev := Get(c, key);
    var (r, n) := DoUpdate(path, idx, value, c, next).value;
    LookupStep(c, path, idx, |path|);
    LookupStep(r, path, idx, |path|);
    assert path[idx..|path|] == path[idx..];
    if idx + 1 < |path| {
      var (v, ns) := DoUpdate(path, idx + 1, value, prev, next).value;
      ReadBack(path, idx + 1, value, prev, next);
      if Same(v, prev) {
        assert v == prev;
      }
    } else {
      assert path[idx + 1..] == [];
    }
  }

  /** Applying the same plain-value update to its own result changes nothing. */
  lemma {:induction false} RepeatIsNoOp(path: seq<string>, v: Json, c: Json, next: nat)
    requires |path| >= 1
    requires RefsBelow(c, next)
    requires DoUpdate(path, 0, Fixed(v), c, next).Ok?
    ensures var (r, n) := DoUpdate(path, 0, Fixed(v), c, next).value;
            DoUpdate(path, 0, Fixed(v), r, n) == Ok((r, n))
  {
    var (r, n) := DoUpdate(path, 0, Fixed(v), c, next).value;
    if !Same(v, Lookup(c, path[0..])) {
      ChangedCopiesPath(path, 0, Fixed(v), c, next);
      ReadBack(path, 0, Fixed(v), c, next);
      UpdateSucceedsIff(path, 0, Fixed(v), r, n);
      UnchangedReturnsContainer(path, 0, Fixed(v), r, n);
    } else {
      UnchangedReturnsContainer(path, 0, Fixed(v), c, next);
    }
  }

  /** A tree whose references lie below `lo` has them below any larger bound. */
  lemma {:induction false} RefsBelowGrows(j: Json, lo: nat, hi: nat)
    requires RefsBelow(j, lo) && lo <= hi
    ensures RefsBelow(j, hi)
    decreases j
  {
    if j.Container? {
      forall k | k in j.entries
        ensures RefsBelow(j.entries[k], hi)
      {
        RefsBelowGrows(j.entries[k], lo, hi);
      }
    }
  }

  /** When every reference in the tree and in the new leaf was handed out
      before `next`, so is every reference in the result before the returned
      `next`: a copy never takes the identity of an existing object. */
  lemma {:induction false} FreshCopiesDoNotCollide(path: seq<string>, idx: nat, value: NewValue, c: Json, next: nat)
    requires idx < |path|
    requires RefsBelow(c, next)
    requires NewLeaf(value, c, path, idx).Ok? ==> RefsBelow(NewLeaf(value, c, path, idx).value, next)
    ensures var r := DoUpdate(path, idx, value, c, next);
            r.Ok? ==> RefsBelow(r.value.0, r.value.1)
    decreases |path| - idx
  {
    var r := DoUpdate(path, idx, value, c, next);
    if c.Container? && r.Ok? {
      var key := path[idx];
      var child := Get(c, key);
      assert RefsBelow(child, next);
      assert Lookup(c, path[idx..]) == Lookup(child, path[idx + 1..]) by {
        assert path[idx..][0] == key && path[idx..][1..] == path[idx + 1..];
      }
      var sub :=
        if idx + 1 < |path| then DoUpdate(path, idx + 1, value, child, next)
        else match GetValue(value, child)
          case Ok(v) => Ok((v, next))
          case Throw(e) => Throw(e);
      if idx + 1 < |path| {
        FreshCopiesDoNotCollide(path, idx + 1, value, child, next);
      } else {
        assert path[idx + 1..] == [];
      }
      var (v, n) := sub.value;
      assert RefsBelow(v, n) && next <= n;
      if !Same(v, child) {
        var copy := CloneAndSet(c, key, v, n);
        forall k | k in copy.entries
          ensures RefsBelow(copy.entries[k], n + 1)
        {
          if k == key {
            RefsBelowGrows(v, n, n + 1);
          } else {
            RefsBelowGrows(c.entries[k], next, n + 1);
          }
        }
      } else {
        RefsBelowGrows(c, next, n);
      }
    }
  }

  // ---------------------------------------------------------------------
  // chain

  /** `chain(f1, ..., fn)(s)`: each function applied to the previous result. */
  function Chain<S>(fns: seq<S -> S>, s: S): S
    decreases |fns|
  {
    if fns == [] then s else Chain(fns[1..], fns[0](s))
  }

  /** Chaining two lists runs the first, then the second on its result. */
  lemma {:induction false} ChainConcat<S>(first: seq<S -> S>, second: seq<S -> S>, s: S)
    ensures Chain(first + second, s) == Chain(second, Chain(first, s))
    decreases |first|
  {
    if first == [] {
      assert first + second == second;
    } else {
      ChainConcat(first[1..], second, first[0](s));
      assert (first + second)[1..] == first[1..] + second;
    }
  }
}
