/**
 * The imperative form of space/11/promise.js: one object holds the closure variables of
 * every `iPromise` (`cells`) and the record of user-function calls (`log`); each closure of
 * the source is a method that updates them in place. Every method is proved to leave exactly
 * the world that the matching function of module `Promise` describes.
 */
module PromiseRuntime {
  import opened Wrappers
  import opened Promise

  class Runtime {
    var cells: seq<Cell>
    var log: seq<Invocation>

    /** The state of all promises, as the semantic functions see it. */
    function Snapshot(): World
      reads this
    {
      World(cells, log)
    }

    ghost predicate Valid()
      reads this
    {
      WF(Snapshot())
    }

    /** No promise exists yet and no handler has run. */
    constructor ()
      ensures Valid() && cells == [] && log == []
    {
      cells := [];
      log := [];
    }

    /**
     * `new iPromise(fn)` whose executor keeps `resolve` and `reject` for later (a timer, an
     * I/O callback) and returns: the new promise is pending with an empty queue.
     */
    method Create() returns (p: nat)
      requires Valid()
      modifies this
      ensures Valid() && p == old(|cells|)
      ensures cells == old(cells) + [Unsettled] && log == old(log)
    {
      p := |cells|;
      cells := cells + [Unsettled];
    }

    /**
     * `p.then(onFulfilled, onRejected)`: on a normal end the completion carries the new
     * downstream promise.
     */
    method Then(p: nat, onFulfilled: Option<Handler>, onRejected: Option<Handler>, fuel: nat) returns (c: Completion)
      requires Valid() && p < |cells|
      requires OptHandlerIn(onFulfilled, |cells|) && OptHandlerIn(onRejected, |cells|)
      modifies this
      ensures Valid()
      ensures Step(Snapshot(), c) == Promise.Then(old(Snapshot()), p, onFulfilled, onRejected, fuel)
      decreases fuel, 1, 0
    {
      var d := |cells|;
      cells := cells + [Unsettled];
      c := Transition(p, Reaction(onFulfilled, onRejected, d), fuel);
      if c.Normal? {
        c := Normal(APromise(d));
      }
    }

    /** `transition(callback)` of promise `p`. */
    method Transition(p: nat, cb: Reaction, fuel: nat) returns (c: Completion)
      requires Valid() && p < |cells| && ReactionIn(cb, |cells|)
      modifies this
      ensures Valid()
      ensures Step(Snapshot(), c) == Promise.Transition(old(Snapshot()), p, cb, fuel)
      decreases fuel, 0, 1
    {
      if fuel == 0 {
        return Exhausted;
      }
      var cell := cells[p];
      match cell.state {
        case Pending =>
          cells := cells[p := cell.(callbacks := cell.callbacks + [cb])];
          return Done;
        case Resolved =>
          c := TransitionResolved(p, cb, fuel);
        case Rejected =>
          c := TransitionRejected(p, cb, fuel);
      }
    }

    /** `transition` of a resolved promise: `onFulfilled`, then `onRejected` if that threw, then the tail. */
    method TransitionResolved(p: nat, cb: Reaction, fuel: nat) returns (c: Completion)
      requires Valid() && p < |cells| && ReactionIn(cb, |cells|) && cells[p].state == Resolved && fuel > 0
      modifies this
      ensures Valid()
      ensures Step(Snapshot(), c) == Promise.Transition(old(Snapshot()), p, cb, fuel)
      decreases fuel, 0, 0
    {
      c := Invoke(cb.onFulfilled, cells[p].value, fuel - 1);
      if c.Threw? {
        c := Invoke(cb.onRejected, c.e, fuel - 1);
      }
      c := Forward(c, p, cb, fuel - 1);
    }

    /** `transition` of a rejected promise: `onRejected`, then the tail. */
    method TransitionRejected(p: nat, cb: Reaction, fuel: nat) returns (c: Completion)
      requires Valid() && p < |cells| && ReactionIn(cb, |cells|) && cells[p].state == Rejected && fuel > 0
      modifies this
      ensures Valid()
      ensures Step(Snapshot(), c) == Promise.Transition(old(Snapshot()), p, cb, fuel)
      decreases fuel, 0, 0
    {
      c := Invoke(cb.onRejected, cells[p].error, fuel - 1);
      c := Forward(c, p, cb, fuel - 1);
    }

    /** The tail of `transition`: chain a promise result, settle the downstream with a plain one. */
    method Forward(result: Completion, p: nat, cb: Reaction, fuel: nat) returns (c: Completion)
      requires Valid() && p < |cells| && ReactionIn(cb, |cells|) && CompletionIn(result, |cells|)
      modifies this
      ensures Valid()
      ensures Step(Snapshot(), c) == Promise.Forward(old(Snapshot()), result, p, cb, fuel)
      decreases fuel, 3, 0
    {
      match result {
        case Threw(_) =>
          c := result;
        case Exhausted =>
          c := result;
        case Normal(Plain(v)) =>
          if cells[p].state == Resolved {
            c := Resolve(cb.downstream, v, fuel);
          } else {
            c := Reject(cb.downstream, v, fuel);
          }
        case Normal(APromise(q)) =>
          c := Then(q, Some(ResolveOf(cb.downstream)), Some(RejectOf(cb.downstream)), fuel);
          if c.Normal? {
            c := Done;
          }
      }
    }

    /** The `resolve(newValue)` closure of promise `p`. */
    method Resolve(p: nat, v: Value, fuel: nat) returns (c: Completion)
      requires Valid() && p < |cells|
      modifies this
      ensures Valid()
      ensures Step(Snapshot(), c) == Settle(old(Snapshot()), p, Resolved, v, fuel)
      decreases fuel, 2, 0
    {
      cells := cells[p := cells[p].(state := Resolved, value := v)];
      c := Execute(p, fuel);
    }

    /** The `reject(err)` closure of promise `p`. */
    method Reject(p: nat, e: Value, fuel: nat) returns (c: Completion)
      requires Valid() && p < |cells|
      modifies this
      ensures Valid()
      ensures Step(Snapshot(), c) == Settle(old(Snapshot()), p, Rejected, e, fuel)
      decreases fuel, 2, 0
    {
      cells := cells[p := cells[p].(state := Rejected, error := e)];
      c := Execute(p, fuel);
    }

    /** `execute()` of promise `p`: run `transition` on every queued reaction, in order. */
    method Execute(p: nat, fuel: nat) returns (c: Completion)
      requires Valid() && p < |cells|
      modifies this
      ensures Valid()
      ensures Step(Snapshot(), c) == ExecuteFrom(old(Snapshot()), p, 0, old(|cells[p].callbacks|), fuel)
      decreases fuel, 1, 0
    {
      var len := |cells[p].callbacks|;
      var k := 0;
      while k < len
        invariant k <= len && Valid() && p < |cells|
        invariant ExecuteFrom(old(Snapshot()), p, 0, len, fuel) == ExecuteFrom(Snapshot(), p, k, len, fuel)
        decreases len - k
      {
        if k < |cells[p].callbacks| {
          c := Transition(p, cells[p].callbacks[k], fuel);
          if !c.Normal? {
            return;
          }
        }
        k := k + 1;
      }
      c := Done;
    }

    /** Call an optional handler with `arg`; see `Promise.Invoke`. */
    method Invoke(h: Option<Handler>, arg: Value, fuel: nat) returns (c: Completion)
      requires Valid() && OptHandlerIn(h, |cells|)
      modifies this
      ensures Valid() && CompletionIn(c, |cells|)
      ensures Step(Snapshot(), c) == Promise.Invoke(old(Snapshot()), h, arg, fuel)
      decreases fuel, 3, 0
    {
      match h {
        case None =>
          c := Done;
        case Some(Fn(name, body)) =>
          log := log + [Invoked(name, arg)];
          match body(arg) {
            case Returns(v) => c := Normal(Plain(v));
            case Throws(e) => c := Threw(e);
          }
        case Some(Chain(name, q)) =>
          log := log + [Invoked(name, arg)];
          c := Normal(APromise(q));
        case Some(ResolveOf(q)) =>
          c := Resolve(q, arg, fuel);
        case Some(RejectOf(q)) =>
          c := Reject(q, arg, fuel);
      }
    }
  }
}
