/**
 * The event registry `Listener` of space/11/listener.js: a plain object `eventList` from
 * event names to arrays of stored handlers. A named function is stored wrapped in a one-key
 * object `{[fn.name]: fn}`, an anonymous one as it is. `remove` splices the array while
 * `map` walks it, so the entry right after a removed one is never looked at.
 *
 * `eventList` starts as `{}`, which inherits the properties of `Object.prototype`. Looking up
 * an event or a key with one of those names yields the inherited value, which is truthy; the
 * model keeps that, because it decides what `on`, `remove` and `emit` do with such names.
 */
module Listener {
  import opened Wrappers

  /** A function object: its `name` property ("" for an anonymous function) and its identity. */
  datatype Function = Function(name: string, id: nat)

  /** An element of an event's array: the object `{[key]: fn}`, or a bare function. */
  datatype Entry = Wrapped(key: string, fn: Function) | Bare(fn: Function)

  /** One call `fn.call(null, data)` made by `emit`. */
  datatype Call<D> = Call(fn: Function, data: D)

  /** How `on`, `remove` and `emit` end: normally, after logging with `console.error`, or by a `TypeError`. */
  datatype Outcome = Returned | ConsoleError(message: string) | TypeError

  /** The properties every plain object inherits from `Object.prototype`; all of them are truthy. */
  const ObjectPrototypeNames: set<string> :=
    {"constructor", "hasOwnProperty", "isPrototypeOf", "propertyIsEnumerable", "toLocaleString",
     "toString", "valueOf", "__defineGetter__", "__defineSetter__", "__lookupGetter__",
     "__lookupSetter__", "__proto__"}

  const RemoveWithoutFunction := "Choose a named function to remove!"

  /** What `on` pushes for `fn` (lines 8-12). */
  function Stored(fn: Function): (e: Entry)
    ensures e.fn == fn
    ensures fn.name != "" <==> e.Wrapped?
    ensures e.Wrapped? ==> e.key == fn.name
  {
    if fn.name != "" then Wrapped(fn.name, fn) else Bare(fn)
  }

  /**
   * The test of line 18 for an element: `typeof item === 'object' && item[name]`. A wrapped
   * entry answers with its own key, or with an inherited `Object.prototype` property.
   */
  predicate Matches(e: Entry, name: string) {
    e.Wrapped? && (e.key == name || name in ObjectPrototypeNames)
  }

  /**
   * Which stored entries `remove(event, fn)` hits: never an anonymous function's; a named
   * function's when `fn` has the same name, and for every name inherited from
   * `Object.prototype`, whatever the entry's own key.
   */
  lemma StoredMatches(f: Function, name: string)
    ensures Matches(Stored(f), name) <==> f.name != "" && (f.name == name || name in ObjectPrototypeNames)
  {
  }

  /**
   * What `remove` leaves of an event's array, read as a scan from the front: a matching entry
   * is dropped and the entry after it is kept without being tested.
   */
  function Sweep(s: seq<Entry>, name: string): (r: seq<Entry>)
    ensures |r| <= |s| && multiset(r) <= multiset(s)
  {
    if |s| == 0 then []
    else if Matches(s[0], name) then
      if |s| == 1 then []
      else
        assert s == [s[0], s[1]] + s[2..];
        [s[1]] + Sweep(s[2..], name)
    else
      assert s == [s[0]] + s[1..];
      [s[0]] + Sweep(s[1..], name)
  }

  /** The entries of `s` that do not match `name`, in their order. */
  function Unmatched(s: seq<Entry>, name: string): seq<Entry> {
    if |s| == 0 then []
    else if Matches(s[0], name) then Unmatched(s[1..], name)
    else [s[0]] + Unmatched(s[1..], name)
  }

  /** `remove` keeps every entry that does not match, in the same relative order. */
  lemma {:induction false} SweepKeepsUnmatched(s: seq<Entry>, name: string)
    ensures Unmatched(Sweep(s, name), name) == Unmatched(s, name)
  {
    if |s| == 0 {
    } else if Matches(s[0], name) {
      if |s| > 1 {
        SweepKeepsUnmatched(s[2..], name);
        assert s[1..][1..] == s[2..];
        assert ([s[1]] + Sweep(s[2..], name))[1..] == Sweep(s[2..], name);
      }
    } else {
      SweepKeepsUnmatched(s[1..], name);
      assert ([s[0]] + Sweep(s[1..], name))[1..] == Sweep(s[1..], name);
    }
  }

  /** When no two matching entries are adjacent, `remove` removes every matching entry. */
  lemma {:induction false} SweepRemovesIsolatedMatches(s: seq<Entry>, name: string)
    requires forall i :: 0 < i < |s| ==> !(Matches(s[i - 1], name) && Matches(s[i], name))
    ensures forall e :: e in Sweep(s, name) ==> !Matches(e, name)
  {
    if |s| == 0 {
    } else if Matches(s[0], name) {
      if |s| > 1 {
        assert !Matches(s[1], name);
        SweepRemovesIsolatedMatches(s[2..], name);
      }
    } else {
      SweepRemovesIsolatedMatches(s[1..], name);
    }
  }

  /** Of two adjacent entries stored under the same name, `remove` deletes only the first. */
  lemma AdjacentSameNameSurvives(f: Function, g: Function)
    requires f.name != "" && g.name == f.name
    ensures Sweep([Stored(f), Stored(g)], f.name) == [Stored(g)]
  {
  }

  /**
   * The `map` of `remove` from index `k` on: every index below the starting length `len` is
   * visited, an index past the end of the live array is skipped, and a matching entry is
   * spliced out, which moves the next one onto the index just visited.
   */
  function SpliceFrom(arr: seq<Entry>, k: nat, len: nat, name: string): seq<Entry>
    decreases len - k
  {
    if k >= len then arr
    else if k < |arr| && Matches(arr[k], name) then SpliceFrom(arr[..k] + arr[k + 1..], k + 1, len, name)
    else SpliceFrom(arr, k + 1, len, name)
  }

  /** The splicing only ever removes entries: nothing is added or duplicated. */
  lemma {:induction false} SpliceOnlyRemoves(arr: seq<Entry>, k: nat, len: nat, name: string)
    ensures |SpliceFrom(arr, k, len, name)| <= |arr|
    ensures multiset(SpliceFrom(arr, k, len, name)) <= multiset(arr)
    decreases len - k
  {
    if k < len {
      if k < |arr| && Matches(arr[k], name) {
        var rest := arr[..k] + arr[k + 1..];
        assert arr == arr[..k] + [arr[k]] + arr[k + 1..];
        SpliceOnlyRemoves(rest, k + 1, len, name);
      } else {
        SpliceOnlyRemoves(arr, k + 1, len, name);
      }
    }
  }

  /** Once the visits have passed the end of the live array, nothing more changes. */
  lemma {:induction false} SplicePastEnd(arr: seq<Entry>, k: nat, len: nat, name: string)
    requires k >= |arr|
    ensures SpliceFrom(arr, k, len, name) == arr
    decreases len - k
  {
    if k < len {
      SplicePastEnd(arr, k + 1, len, name);
    }
  }

  /** One visit of the splicing loop, at the first index not yet settled. */
  lemma SpliceStep(done: seq<Entry>, t: seq<Entry>, len: nat, name: string)
    requires |t| > 0 && |done| + |t| <= len
    ensures Matches(t[0], name) ==>
              SpliceFrom(done + t, |done|, len, name) == SpliceFrom(done + t[1..], |done| + 1, len, name)
    ensures !Matches(t[0], name) ==>
              SpliceFrom(done + t, |done|, len, name) == SpliceFrom((done + [t[0]]) + t[1..], |done + [t[0]]|, len, name)
  {
    var arr := done + t;
    assert arr[|done|] == t[0];
    if Matches(t[0], name) {
      assert arr[..|done|] + arr[|done| + 1..] == done + t[1..];
    } else {
      assert arr == (done + [t[0]]) + t[1..];
    }
  }

  /**
   * The live splicing is the front-to-back scan `Sweep`: with the entries before the visited
   * index already settled as `done`, the rest `t` ends up as `Sweep(t, name)`.
   */
  lemma {:induction false} SpliceIsSweep(done: seq<Entry>, t: seq<Entry>, len: nat, name: string)
    requires |done| + |t| <= len
    ensures SpliceFrom(done + t, |done|, len, name) == done + Sweep(t, name)
    decreases |t|, 1
  {
    if |t| == 0 {
      assert done + t == done;
      SplicePastEnd(done, |done|, len, name);
    } else if Matches(t[0], name) {
      SpliceDropsFirst(done, t, len, name);
    } else {
      SpliceKeepsFirst(done, t, len, name);
    }
  }

  /** `SpliceIsSweep` when the visited entry matches: it is spliced out and its successor is skipped. */
  lemma {:induction false} SpliceDropsFirst(done: seq<Entry>, t: seq<Entry>, len: nat, name: string)
    requires |done| + |t| <= len && |t| > 0 && Matches(t[0], name)
    ensures SpliceFrom(done + t, |done|, len, name) == done + Sweep(t, name)
    decreases |t|, 0
  {
    if |t| == 1 {
      calc {
        SpliceFrom(done + t, |done|, len, name);
        { SpliceStep(done, t, len, name); }
        SpliceFrom(done + t[1..], |done| + 1, len, name);
        { assert done + t[1..] == done; }
        SpliceFrom(done, |done| + 1, len, name);
        { SplicePastEnd(done, |done| + 1, len, name); }
        done;
        { assert Sweep(t, name) == []; }
        done + Sweep(t, name);
      }
    } else {
      calc {
        SpliceFrom(done + t, |done|, len, name);
        { SpliceStep(done, t, len, name); }
        SpliceFrom(done + t[1..], |done| + 1, len, name);
        { assert done + t[1..] == (done + [t[1]]) + t[2..]; }
        SpliceFrom((done + [t[1]]) + t[2..], |done + [t[1]]|, len, name);
        { SpliceIsSweep(done + [t[1]], t[2..], len, name); }
        (done + [t[1]]) + Sweep(t[2..], name);
        done + ([t[1]] + Sweep(t[2..], name));
        { assert Sweep(t, name) == [t[1]] + Sweep(t[2..], name); }
        done + Sweep(t, name);
      }
    }
  }

  /** `SpliceIsSweep` when the visited entry does not match: it stays, and the visit moves on. */
  lemma {:induction false} SpliceKeepsFirst(done: seq<Entry>, t: seq<Entry>, len: nat, name: string)
    requires |done| + |t| <= len && |t| > 0 && !Matches(t[0], name)
    ensures SpliceFrom(done + t, |done|, len, name) == done + Sweep(t, name)
    decreases |t|, 0
  {
    calc {
      SpliceFrom(done + t, |done|, len, name);
      { SpliceStep(done, t, len, name); }
      SpliceFrom((done + [t[0]]) + t[1..], |done + [t[0]]|, len, name);
      { SpliceIsSweep(done + [t[0]], t[1..], len, name); }
      (done + [t[0]]) + Sweep(t[1..], name);
      done + ([t[0]] + Sweep(t[1..], name));
      { assert Sweep(t, name) == [t[0]] + Sweep(t[1..], name); }
      done + Sweep(t, name);
    }
  }

  /**
   * The `map` of `remove` (lines 17-21) over an event's array `s`: it visits the indices below
   * the starting length and reads the live array, which shrinks at every `splice`.
   */
  method SpliceMatching(s: seq<Entry>, name: string) returns (arr: seq<Entry>)
    ensures arr == Sweep(s, name)
  {
    arr := s;
    var len := |arr|;
    var k := 0;
    while k < len
      invariant k <= len
      invariant SpliceFrom(s, 0, len, name) == SpliceFrom(arr, k, len, name)
    {
      if k < |arr| && Matches(arr[k], name) {
        arr := arr[..k] + arr[k + 1..];
      }
      k := k + 1;
    }
    assert [] + s == s;
    SpliceIsSweep([], s, len, name);
  }

  /** `remove` only drops entries, so whatever holds of every entry before holds after. */
  lemma SweepKeepsShape(s: seq<Entry>, name: string)
    requires forall i :: 0 <= i < |s| ==> WellStored(s[i])
    ensures forall i :: 0 <= i < |Sweep(s, name)| ==> WellStored(Sweep(s, name)[i])
  {
    var r := Sweep(s, name);
    forall i | 0 <= i < |r|
      ensures WellStored(r[i])
    {
      assert r[i] in multiset(r);
      assert r[i] in multiset(s);
      assert r[i] in s;
    }
  }

  /** The shape `on` gives every stored entry: wrapped under its function's own name, or bare and anonymous. */
  predicate WellStored(e: Entry) {
    match e
    case Wrapped(key, fn) => key == fn.name && key != ""
    case Bare(fn) => fn.name == ""
  }

  class Listener {
    var eventList: map<string, seq<Entry>>

    /** Every array was created by `on` under an own event name and holds only what `on` stores. */
    ghost predicate Valid()
      reads this
    {
      forall event :: event in eventList ==>
        event !in ObjectPrototypeNames &&
        forall i :: 0 <= i < |eventList[event]| ==> WellStored(eventList[event][i])
    }

    constructor ()
      ensures Valid() && eventList == map[]
    {
      eventList := map[];
    }

    /**
     * `on(event, fn)` (lines 6-14): create an empty array for an unseen event, then push the
     * stored form of `fn` at its end. For an inherited name, the truthy inherited value is
     * taken for the array and `push` on it throws. Without a handler (`fn` undefined or
     * null), the array is created first and reading `fn.name` then throws.
     */
    method On(event: string, fn: Option<Function>) returns (r: Outcome)
      requires Valid()
      modifies this
      ensures Valid()
      ensures event in ObjectPrototypeNames ==> r == TypeError && eventList == old(eventList)
      ensures event !in ObjectPrototypeNames && fn.None? ==>
        r == TypeError &&
        eventList == old(eventList)[event := if event in old(eventList) then old(eventList)[event] else []]
      ensures event !in ObjectPrototypeNames && fn.Some? ==>
        r == Returned &&
        eventList == old(eventList)[event := (if event in old(eventList) then old(eventList)[event] else []) + [Stored(fn.value)]]
    {
      if event in ObjectPrototypeNames {
        return TypeError;
      }
      if event !in eventList {
        eventList := eventList[event := []];
      }
      if fn.None? {
        return TypeError;
      }
      eventList := eventList[event := eventList[event] + [Stored(fn.value)]];
      r := Returned;
    }

    /**
     * `remove(event, fn)` (lines 15-22). Without `fn`: log and stop. An event with no array:
     * `undefined.map` throws. Otherwise `map` visits the indices below the array's starting
     * length, reading the live array, and `splice`s out each element that matches.
     */
    method Remove(event: string, fn: Option<Function>) returns (r: Outcome)
      requires Valid()
      modifies this
      ensures Valid()
      ensures fn.None? ==> r == ConsoleError(RemoveWithoutFunction) && eventList == old(eventList)
      ensures fn.Some? && event !in old(eventList) ==> r == TypeError && eventList == old(eventList)
      ensures fn.Some? && event in old(eventList) ==>
        r == Returned && eventList == old(eventList)[event := Sweep(old(eventList)[event], fn.value.name)]
    {
      if fn.None? {
        return ConsoleError(RemoveWithoutFunction);
      }
      if event !in eventList {
        return TypeError;
      }
      var arr := SpliceMatching(eventList[event], fn.value.name);
      SweepKeepsShape(eventList[event], fn.value.name);
      eventList := eventList[event := arr];
      r := Returned;
    }

    /**
     * `emit(event, data)` (lines 23-31): call every stored function once, in registration
     * order, with `data` (a wrapped entry's only value is its function). An event with no
     * array: `undefined.map` throws.
     */
    method Emit<D>(event: string, data: D) returns (r: Result<seq<Call<D>>, Outcome>)
      ensures event !in eventList ==> r == Err(TypeError)
      ensures event in eventList ==>
        r.Ok? && |r.value| == |eventList[event]| &&
        forall i :: 0 <= i < |r.value| ==> r.value[i] == Call(eventList[event][i].fn, data)
    {
      if event !in eventList {
        return Err(TypeError);
      }
      var entries := eventList[event];
      var calls: seq<Call<D>> := [];
      var k := 0;
      while k < |entries|
        invariant k <= |entries| && |calls| == k
        invariant forall i :: 0 <= i < k ==> calls[i] == Call(entries[i].fn, data)
      {
        match entries[k] {
          case Wrapped(_, f) => calls := calls + [Call(f, data)];
          case Bare(f) => calls := calls + [Call(f, data)];
        }
        k := k + 1;
      }
      r := Ok(calls);
    }
  }
}
