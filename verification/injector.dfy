/**
 * `ReflectiveInjector_` of posts/14/src/injection.ts (lines 84-126): the resolved providers,
 * the parallel arrays `keyIds` (each provider's key id) and `objs` (each provider's instance,
 * `undefined` until first needed), and the look-up `_getByKey`, which builds a missing
 * instance with `_new` after looking up its dependencies.
 *
 * The module also records `writes`, the slots assigned by `_getByKey` in order, so that the
 * "at most once per slot" promise can be stated.
 *
 * `_new` recurses through `_getByKey` with no check for cycles. When a provider's instance is
 * needed again while it is still being built, the source repeats the same calls forever and
 * the runtime stops it with a stack overflow; here that moment is detected from the set
 * `busy` of slots being built and reported as `StackOverflow` at once.
 */
module Injector {
  import opened Wrappers
  import opened Injection

  /** What `new cls(...args)` builds. */
  datatype Instance = Instance(cls: Class, args: seq<Instance>)

  /** How a look-up ends abnormally: a thrown message, a `TypeError`, or a stack overflow. */
  datatype Error = Thrown(message: string) | TypeError | StackOverflow

  /** `noProviderError(token)` (lines 176-178). */
  function NoProviderError(text: string): string {
    "No provider for " + text + "!"
  }

  /** The message quotes the token's text whole, so two different tokens never share a message. */
  lemma NoProviderErrorQuotes(text: string, other: string)
    ensures var m := NoProviderError(text);
            |m| == |text| + 17 && m[..16] == "No provider for " && m[16..|m| - 1] == text && m[|m| - 1] == '!'
    ensures NoProviderError(text) == NoProviderError(other) ==> text == other
  {
    var m := NoProviderError(text);
    assert m[16..|m| - 1] == text;
    if NoProviderError(text) == NoProviderError(other) {
      assert NoProviderError(other)[16..|m| - 1] == other;
    }
  }

  /** The first index at or after `i` whose provider key has id `id`. */
  function FirstIndexFrom(ps: seq<ResolvedProvider>, id: nat, i: nat): (r: Option<nat>)
    requires i <= |ps|
    ensures r.Some? ==> (i <= r.value < |ps| && ps[r.value].key.id == id &&
      forall j :: i <= j < r.value ==> ps[j].key.id != id)
    ensures r.None? ==> forall j :: i <= j < |ps| ==> ps[j].key.id != id
    decreases |ps| - i
  {
    if i == |ps| then None
    else if ps[i].key.id == id then Some(i)
    else FirstIndexFrom(ps, id, i + 1)
  }

  /** The slot `_getByKey` uses for `id`: the first provider with that key id. */
  function FirstIndex(ps: seq<ResolvedProvider>, id: nat): (r: Option<nat>)
    ensures r.Some? ==> (r.value < |ps| && ps[r.value].key.id == id &&
      forall j :: 0 <= j < r.value ==> ps[j].key.id != id)
    ensures r.None? ==> forall j :: 0 <= j < |ps| ==> ps[j].key.id != id
  {
    FirstIndexFrom(ps, id, 0)
  }

  /** The slot numbers below `n`. */
  function Slots(n: nat): (r: set<nat>)
    ensures forall i: nat :: i in r <==> i < n
  {
    if n == 0 then {} else Slots(n - 1) + {n - 1}
  }

  /** The mutable part of an injector: the instance slots and the log of slot assignments. */
  datatype Heap = Heap(objs: seq<Option<Instance>>, writes: seq<nat>)

  /** The heap after a look-up, and what the look-up returned or threw. */
  datatype Built<T> = Built(heap: Heap, r: Result<T, Error>)

  /** A slot holds an instance exactly when it has been assigned, and it was assigned once. */
  ghost predicate Inv(h: Heap) {
    (forall k :: 0 <= k < |h.writes| ==> h.writes[k] < |h.objs| && h.objs[h.writes[k]].Some?) &&
    (forall k, l :: 0 <= k < l < |h.writes| ==> h.writes[k] != h.writes[l]) &&
    (forall j :: 0 <= j < |h.objs| && h.objs[j].Some? ==> j in h.writes)
  }

  /**
   * What a look-up does to the heap: no slot appears or vanishes, the assignment log only
   * grows at its end, a filled slot keeps its instance, a slot still being built (in `busy`)
   * stays empty, and `Inv` is kept.
   */
  ghost predicate Kept(h: Heap, h': Heap, busy: set<nat>) {
    |h'.objs| == |h.objs| && h.writes <= h'.writes &&
    (forall j :: 0 <= j < |h.objs| && h.objs[j].Some? ==> h'.objs[j] == h.objs[j]) &&
    (forall j :: 0 <= j < |h.objs| && j in busy && h.objs[j].None? ==> h'.objs[j].None?) &&
    (Inv(h) ==> Inv(h'))
  }

  lemma KeptTrans(h1: Heap, h2: Heap, h3: Heap, busy: set<nat>)
    requires Kept(h1, h2, busy) && Kept(h2, h3, busy)
    ensures Kept(h1, h3, busy)
  {
  }

  /** Assigning the instance of a slot that was empty, after building it, keeps `Kept`. */
  lemma WriteKeeps(h: Heap, mid: Heap, i: nat, x: Instance, busy: set<nat>)
    requires i < |h.objs| && h.objs[i].None? && i !in busy
    requires Kept(h, mid, busy + {i})
    ensures Kept(h, Heap(mid.objs[i := Some(x)], mid.writes + [i]), busy)
  {
    var h' := Heap(mid.objs[i := Some(x)], mid.writes + [i]);
    if Inv(h) {
      assert Inv(mid);
      assert i !in mid.writes;
      forall j | 0 <= j < |h'.objs| && h'.objs[j].Some?
        ensures j in h'.writes
      {
        if j != i {
          assert j in mid.writes;
        }
      }
    }
  }

  /** The slot of `key` holds `x`. */
  ghost predicate Holds(ps: seq<ResolvedProvider>, h: Heap, key: Key, x: Instance) {
    FirstIndex(ps, key.id).Some? && FirstIndex(ps, key.id).value < |h.objs| &&
    h.objs[FirstIndex(ps, key.id).value] == Some(x)
  }

  /** `x` is what factory `f` builds from the instances the heap holds for its dependencies. */
  ghost predicate Assembled(ps: seq<ResolvedProvider>, h: Heap, f: ResolvedFactory, x: Instance) {
    x.cls == f.cls && |x.args| == |f.deps| &&
    forall k :: 0 <= k < |f.deps| ==> Holds(ps, h, f.deps[k], x.args[k])
  }

  /** The instances built for earlier dependencies in front of what the rest yields. */
  function PrependArgs(done: seq<Instance>, s: Built<seq<Instance>>): Built<seq<Instance>> {
    Built(s.heap, if s.r.Ok? then Ok(done + s.r.value) else s.r)
  }

  /**
   * `_getByKey(key, isDeps)` (lines 104-117): the first slot with the key's id; an empty slot is
   * filled with `_new` of its provider first. No slot: "No provider for ...!", naming the
   * class by its `name` for a dependency and by its source text otherwise.
   */
  function GetByKeyF(ps: seq<ResolvedProvider>, h: Heap, key: Key, isDeps: bool, busy: set<nat>): (s: Built<Instance>)
    requires |h.objs| == |ps|
    ensures Kept(h, s.heap, busy)
    ensures s.r.Ok? ==> Holds(ps, s.heap, key, s.r.value)
    ensures var i := FirstIndex(ps, key.id);
            s.r.Ok? && i.Some? && h.objs[i.value].None? ==>
              |ps[i.value].factories| > 0 && Assembled(ps, s.heap, ps[i.value].factories[0], s.r.value)
    ensures FirstIndex(ps, key.id).None? ==> s == Built(h, Err(Thrown(NoProviderError(if isDeps then key.token.name else key.token.source))))
    decreases Slots(|ps|) - busy, 1, 0
  {
    match FirstIndex(ps, key.id)
    case None => Built(h, Err(Thrown(NoProviderError(if isDeps then key.token.name else key.token.source))))
    case Some(i) =>
      if h.objs[i].Some? then Built(h, Ok(h.objs[i].value))
      else if i in busy then Built(h, Err(StackOverflow))
      else
        var s := NewF(ps, h, i, busy + {i});
        if s.r.Err? then s
        else
          WriteKeeps(h, s.heap, i, s.r.value, busy);
          var h' := Heap(s.heap.objs[i := Some(s.r.value)], s.heap.writes + [i]);
          var f := ps[i].factories[0];
          assert Assembled(ps, h', f, s.r.value) by {
            forall k | 0 <= k < |f.deps|
              ensures Holds(ps, h', f.deps[k], s.r.value.args[k])
            {
              assert FirstIndex(ps, f.deps[k].id).value != i;
            }
          }
          Built(h', s.r)
  }

  /**
   * `_new(provider)` (lines 118-125) for slot `i`: the dependencies of the first factory, in
   * order, then the factory. A provider without factories fails reading `.factory`.
   */
  function NewF(ps: seq<ResolvedProvider>, h: Heap, i: nat, busy: set<nat>): (s: Built<Instance>)
    requires |h.objs| == |ps| && i < |ps|
    ensures Kept(h, s.heap, busy)
    ensures s.r.Ok? ==> |ps[i].factories| > 0 && Assembled(ps, s.heap, ps[i].factories[0], s.r.value)
    ensures |ps[i].factories| == 0 ==> s == Built(h, Err(TypeError))
    decreases Slots(|ps|) - busy, 3, 0
  {
    if |ps[i].factories| == 0 then Built(h, Err(TypeError))
    else
      var f := ps[i].factories[0];
      var d := DepsF(ps, h, f.deps, 0, busy);
      if d.r.Err? then Built(d.heap, Err(d.r.error))
      else Built(d.heap, Ok(Instance(f.cls, d.r.value)))
  }

  /** `dependencies.map(dep => this._getByKey(dep.key, true))` (line 122) from the `k`-th dependency on. */
  function DepsF(ps: seq<ResolvedProvider>, h: Heap, deps: seq<Key>, k: nat, busy: set<nat>): (s: Built<seq<Instance>>)
    requires |h.objs| == |ps| && k <= |deps|
    ensures Kept(h, s.heap, busy)
    ensures s.r.Ok? ==> (|s.r.value| == |deps| - k &&
      forall m :: 0 <= m < |s.r.value| ==> Holds(ps, s.heap, deps[k + m], s.r.value[m]))
    decreases Slots(|ps|) - busy, 2, |deps| - k
  {
    if k == |deps| then Built(h, Ok([]))
    else
      var a := GetByKeyF(ps, h, deps[k], true, busy);
      if a.r.Err? then Built(a.heap, Err(a.r.error))
      else
        var b := DepsF(ps, a.heap, deps, k + 1, busy);
        KeptTrans(h, a.heap, b.heap, busy);
        HeldArgs(ps, a.heap, b, deps, k, a.r.value, busy);
        PrependArgs([a.r.value], b)
  }

  /** The step of `DepsF`: an instance held before the later look-ups is still held after them, in front of theirs. */
  lemma HeldArgs(ps: seq<ResolvedProvider>, h: Heap, b: Built<seq<Instance>>, deps: seq<Key>, k: nat, x: Instance, busy: set<nat>)
    requires k < |deps| && Holds(ps, h, deps[k], x) && Kept(h, b.heap, busy)
    requires b.r.Ok? ==> (|b.r.value| == |deps| - (k + 1) &&
      forall m :: 0 <= m < |b.r.value| ==> Holds(ps, b.heap, deps[k + 1 + m], b.r.value[m]))
    ensures var s := PrependArgs([x], b);
            s.r.Ok? ==> (|s.r.value| == |deps| - k &&
              forall m :: 0 <= m < |s.r.value| ==> Holds(ps, s.heap, deps[k + m], s.r.value[m]))
  {
    if b.r.Ok? {
      var r := [x] + b.r.value;
      forall m | 0 <= m < |r|
        ensures Holds(ps, b.heap, deps[k + m], r[m])
      {
        if m > 0 {
          assert r[m] == b.r.value[m - 1] && k + m == k + 1 + (m - 1);
        }
      }
    }
  }

  /** A successful look-up leaves the instance in its slot: looking the key up again returns it and changes nothing. */
  lemma LookupTwice(ps: seq<ResolvedProvider>, h: Heap, key: Key, isDeps: bool, isDeps': bool, busy: set<nat>, busy': set<nat>)
    requires |h.objs| == |ps| && GetByKeyF(ps, h, key, isDeps, busy).r.Ok?
    ensures var s := GetByKeyF(ps, h, key, isDeps, busy);
      GetByKeyF(ps, s.heap, key, isDeps', busy') == Built(s.heap, s.r)
  {
  }

  /** A new injector's heap: every slot empty, nothing assigned yet. */
  lemma FreshHeapInv(n: nat)
    ensures Inv(Heap(seq(n, _ => None), []))
  {
  }

  /** The object `ReflectiveInjector_`. */
  class ReflectiveInjector {
    const providers: seq<ResolvedProvider>
    const keyIds: array<nat>
    const objs: array<Option<Instance>>
    var writes: seq<nat>

    ghost predicate Valid()
      reads this, keyIds, objs
    {
      keyIds.Length == |providers| && objs.Length == |providers| &&
      (forall i :: 0 <= i < |providers| ==> keyIds[i] == providers[i].key.id) &&
      Inv(Heap(objs[..], writes))
    }

    /** The slots and the assignment log, as the look-up functions see them. */
    function Snapshot(): Heap
      reads this, objs
    {
      Heap(objs[..], writes)
    }

    /** The constructor (lines 88-100): copy the key ids, leave every instance slot empty. */
    constructor (ps: seq<ResolvedProvider>)
      ensures Valid() && providers == ps && fresh(keyIds) && fresh(objs)
      ensures Snapshot() == Heap(seq(|ps|, _ => None), [])
    {
      var len := |ps|;
      var ids := new nat[len];
      var slots := new Option<Instance>[len];
      var i := 0;
      while i < len
        invariant i <= len
        invariant forall j :: 0 <= j < i ==> ids[j] == ps[j].key.id && slots[j].None?
      {
        ids[i] := ps[i].key.id;
        slots[i] := None;
        i := i + 1;
      }
      providers := ps;
      keyIds := ids;
      objs := slots;
      writes := [];
      new;
      assert objs[..] == seq(|ps|, _ => None);
      FreshHeapInv(|ps|);
    }

    /** `_getByKey(key, isDeps)` (lines 104-117); `busy` holds the slots whose `_new` is under way. */
    method GetByKey(key: Key, isDeps: bool, busy: set<nat>) returns (r: Result<Instance, Error>)
      requires Valid()
      modifies this, objs
      ensures Valid()
      ensures Built(Snapshot(), r) == GetByKeyF(providers, old(Snapshot()), key, isDeps, busy)
      decreases Slots(|providers|) - busy, 1
    {
      var i := 0;
      while i < keyIds.Length
        invariant 0 <= i <= keyIds.Length
        invariant forall j :: 0 <= j < i ==> providers[j].key.id != key.id
      {
        if keyIds[i] == key.id {
          assert FirstIndex(providers, key.id) == Some(i);
          if objs[i].None? {
            if i in busy {
              return Err(StackOverflow);
            }
            var x := New(i, busy + {i});
            if x.Err? {
              return x;
            }
            ghost var mid := Snapshot();
            objs[i] := Some(x.value);
            writes := writes + [i];
            assert objs[..] == mid.objs[i := Some(x.value)];
            WriteKeeps(old(Snapshot()), mid, i, x.value, busy);
          }
          return Ok(objs[i].value);
        }
        i := i + 1;
      }
      r := Err(Thrown(NoProviderError(if isDeps then key.token.name else key.token.source)));
    }

    /** `_new(provider)` (lines 118-125) for the provider in slot `i`. */
    method New(i: nat, busy: set<nat>) returns (r: Result<Instance, Error>)
      requires Valid() && i < |providers|
      modifies this, objs
      ensures Valid()
      ensures Built(Snapshot(), r) == NewF(providers, old(Snapshot()), i, busy)
      decreases Slots(|providers|) - busy, 3
    {
      if |providers[i].factories| == 0 {
        return Err(TypeError);
      }
      var f := providers[i].factories[0];
      var args := Dependencies(f.deps, busy);
      if args.Err? {
        return Err(args.error);
      }
      r := Ok(Instance(f.cls, args.value));
    }

    /** `dependencies.map(dep => this._getByKey(dep.key, true))` (line 122): one look-up per dependency, in order. */
    method Dependencies(deps: seq<Key>, busy: set<nat>) returns (r: Result<seq<Instance>, Error>)
      requires Valid()
      modifies this, objs
      ensures Valid()
      ensures Built(Snapshot(), r) == DepsF(providers, old(Snapshot()), deps, 0, busy)
      decreases Slots(|providers|) - busy, 2
    {
      var args: seq<Instance> := [];
      var k := 0;
      PrependArgsTwice([], [], DepsF(providers, Snapshot(), deps, 0, busy));
      while k < |deps|
        invariant k <= |deps| && Valid()
        invariant PrependArgs(args, DepsF(providers, Snapshot(), deps, k, busy)) == DepsF(providers, old(Snapshot()), deps, 0, busy)
        decreases |deps| - k
      {
        ghost var before := Snapshot();
        var a := GetByKey(deps[k], true, busy);
        DepsStep(providers, before, deps, k, busy);
        if a.Err? {
          return Err(a.error);
        }
        PrependArgsTwice(args, [a.value], DepsF(providers, Snapshot(), deps, k + 1, busy));
        args := args + [a.value];
        k := k + 1;
      }
      assert args + [] == args;
      r := Ok(args);
    }

    /**
     * `get(token)` (lines 101-103): the token's key from the registry (registering it if new),
     * then the look-up as a top-level request.
     */
    method Get(reg: KeyRegistry, token: Token) returns (r: Result<Instance, Error>)
      requires Valid() && reg.Valid()
      modifies this, objs, reg
      ensures Valid() && reg.Valid()
      ensures reg.allKeys == Intern(old(reg.allKeys), token).keys
      ensures Intern(old(reg.allKeys), token).r.Err? ==>
        r == Err(Thrown(TokenMustBeDefined)) && Snapshot() == old(Snapshot())
      ensures Intern(old(reg.allKeys), token).r.Ok? ==>
        Built(Snapshot(), r) == GetByKeyF(providers, old(Snapshot()), Intern(old(reg.allKeys), token).r.value, false, {})
    {
      var key := reg.Get(token);
      if key.Err? {
        return Err(Thrown(key.error));
      }
      r := GetByKey(key.value, false, {});
    }
  }

  /** One dependency look-up, then the rest. */
  lemma DepsStep(ps: seq<ResolvedProvider>, h: Heap, deps: seq<Key>, k: nat, busy: set<nat>)
    requires |h.objs| == |ps| && k < |deps|
    ensures var a := GetByKeyF(ps, h, deps[k], true, busy);
      DepsF(ps, h, deps, k, busy) ==
        if a.r.Err? then Built(a.heap, Err(a.r.error))
        else PrependArgs([a.r.value], DepsF(ps, a.heap, deps, k + 1, busy))
  {
  }

  /** Prepending twice is prepending the concatenation, and prepending nothing changes nothing. */
  lemma PrependArgsTwice(xs: seq<Instance>, ys: seq<Instance>, s: Built<seq<Instance>>)
    ensures PrependArgs(xs, PrependArgs(ys, s)) == PrependArgs(xs + ys, s)
    ensures PrependArgs([], s) == s
  {
    if s.r.Ok? {
      assert xs + (ys + s.r.value) == (xs + ys) + s.r.value;
      assert [] + s.r.value == s.r.value;
    }
  }

  /**
   * `createInjector(providers)` (lines 188-190), through `resolveAndCreate` and
   * `fromResolvedProviders` (lines 75-81): resolve, then build an injector with empty slots.
   */
  method CreateInjector(reg: KeyRegistry, ps: seq<Provider>) returns (r: Result<ReflectiveInjector, string>)
    requires reg.Valid()
    modifies reg
    ensures reg.Valid() && reg.allKeys == ResolveAll(old(reg.allKeys), ps).keys
    ensures r.Ok? <==> ResolveAll(old(reg.allKeys), ps).r.Ok?
    ensures r.Err? ==> r.error == ResolveAll(old(reg.allKeys), ps).r.error
    ensures r.Ok? ==> (fresh(r.value) && r.value.Valid() &&
      r.value.providers == ResolveAll(old(reg.allKeys), ps).r.value &&
      r.value.Snapshot() == Heap(seq(|ps|, _ => None), []))
  {
    var resolved := Resolve(reg, ps);
    if resolved.Err? {
      return Err(resolved.error);
    }
    ResolveAllMeets(old(reg.allKeys), ps);
    var injector := new ReflectiveInjector(resolved.value);
    r := Ok(injector);
  }
}
