/**
 * What space/11/promise.js does, stated as properties of the semantics in module `Promise`.
 *
 * The centre is a reference table, `Expected`, that says outright what `transition` does with
 * a reaction whose handlers are plain user functions (or absent) once its promise has settled,
 * and `Drain`, which applies that table to a whole queue in registration order. The lemmas
 * prove that `transition`, `resolve`/`reject` and `then` agree with them, and state the
 * quirks of this implementation: no one-shot guard, an absent handler yields `undefined`,
 * a throw from `onFulfilled` goes to the same reaction's `onRejected`, and a rejected promise
 * always rejects its downstream.
 */
module PromiseProperties {
  import opened Wrappers
  import opened Promise

  /** A handler that is absent or a user function without side effects. */
  predicate PlainHandler(h: Option<Handler>) {
    h.None? || h.value.Fn?
  }

  /** A reaction whose handlers are plain: it neither chains nor calls a settle closure. */
  predicate Leaf(cb: Reaction) {
    PlainHandler(cb.onFulfilled) && PlainHandler(cb.onRejected)
  }

  /** Where a reaction leaves its downstream promise: settled with `st` and `v`, or untouched because a throw escaped. */
  datatype Outcome = SettleWith(st: State, v: Value) | Escape(e: Value)

  /** The user-function calls a reaction makes, in order, and its outcome. */
  datatype Effect = Effect(calls: seq<Invocation>, outcome: Outcome)

  /**
   * The reference table for a plain reaction on a settled promise, read off lines 24-39.
   * Resolved: `onFulfilled(value)`; if that throws `x`, `onRejected(x)`. Rejected:
   * `onRejected(error)`. An absent handler leaves the result `undefined`. The downstream is
   * settled with the result, with the disposition of the source promise; a throw from
   * `onRejected` escapes instead.
   */
  function Expected(cell: Cell, cb: Reaction): (e: Effect)
    requires cell.state != Pending && Leaf(cb)
    ensures e.outcome.SettleWith? ==> e.outcome.st == cell.state
    ensures e.outcome.Escape? ==> cb.onRejected.Some? && |e.calls| >= 1
    ensures |e.calls| <= 2
  {
    if cell.state.Resolved? then
      match cb.onFulfilled
      case None => Effect([], SettleWith(Resolved, Undefined))
      case Some(f) =>
        var first := Invoked(f.name, cell.value);
        match f.body(cell.value)
        case Returns(r) => Effect([first], SettleWith(Resolved, r))
        case Throws(x) =>
          match cb.onRejected
          case None => Effect([first], SettleWith(Resolved, Undefined))
          case Some(g) =>
            var second := Invoked(g.name, x);
            match g.body(x)
            case Returns(r) => Effect([first, second], SettleWith(Resolved, r))
            case Throws(y) => Effect([first, second], Escape(y))
    else
      match cb.onRejected
      case None => Effect([], SettleWith(Rejected, Undefined))
      case Some(g) =>
        var only := Invoked(g.name, cell.error);
        match g.body(cell.error)
        case Returns(r) => Effect([only], SettleWith(Rejected, r))
        case Throws(y) => Effect([only], Escape(y))
  }

  /** The world after an effect: the calls are logged, then the downstream `d` is settled (or a throw escapes). */
  function ApplyEffect(w: World, d: nat, e: Effect): (s: Step)
    requires d < |w.cells|
    requires e.outcome.SettleWith? ==> e.outcome.st != Pending
    ensures |s.world.cells| == |w.cells| && s.world.log == w.log + e.calls
    ensures forall i :: 0 <= i < |w.cells| && i != d ==> s.world.cells[i] == w.cells[i]
    ensures s.world.cells[d].callbacks == w.cells[d].callbacks
  {
    var w1 := w.(log := w.log + e.calls);
    match e.outcome
    case SettleWith(st, v) => Step(w1.(cells := w1.cells[d := Store(w1.cells[d], st, v)]), Done)
    case Escape(x) => Step(w1, Threw(x))
  }

  /** The queue `cbs` of promise `p` holds plain reactions whose downstreams are other promises with empty queues. */
  ghost predicate LeafQueue(w: World, p: nat, cbs: seq<Reaction>) {
    p < |w.cells| &&
    forall j :: 0 <= j < |cbs| ==>
      Leaf(cbs[j]) && cbs[j].downstream != p && cbs[j].downstream < |w.cells| &&
      |w.cells[cbs[j].downstream].callbacks| == 0
  }

  /**
   * Reference semantics of draining a queue of plain reactions: apply `Expected` to the
   * reactions from index `k` on, one after the other in registration order, stopping at the
   * first throw.
   */
  function Drain(w: World, p: nat, cbs: seq<Reaction>, k: nat): (s: Step)
    requires p < |w.cells| && w.cells[p].state != Pending
    requires forall j :: k <= j < |cbs| ==> Leaf(cbs[j]) && cbs[j].downstream < |w.cells|
    ensures |s.world.cells| == |w.cells| && w.log <= s.world.log
    ensures forall i :: 0 <= i < |w.cells| ==> s.world.cells[i].callbacks == w.cells[i].callbacks
    ensures (forall j :: k <= j < |cbs| ==> cbs[j].downstream != p) ==> s.world.cells[p] == w.cells[p]
    decreases |cbs| - k
  {
    if k >= |cbs| then Step(w, Done)
    else
      var s := ApplyEffect(w, cbs[k].downstream, Expected(w.cells[p], cbs[k]));
      if s.c.Normal? then Drain(s.world, p, cbs, k + 1) else s
  }

  /**
   * What a plain reaction does in general: its calls are logged, then its downstream `d` is
   * settled through its own `resolve`/`reject` closure, which runs `d`'s queue in turn; or
   * the throw escapes.
   */
  function Follow(w: World, d: nat, e: Effect, fuel: nat): (s: Step)
    requires WF(w) && d < |w.cells|
    requires e.outcome.SettleWith? ==> e.outcome.st != Pending
    ensures WF(s.world) && Evolves(w, s.world) && w.log + e.calls <= s.world.log
    ensures s.c.Normal? ==> s.c == Done
  {
    var w1 := w.(log := w.log + e.calls);
    assert Evolves(w, w1);
    match e.outcome
    case SettleWith(st, v) =>
      var s := Settle(w1, d, st, v, fuel);
      EvolvesTrans(w, w1, s.world);
      s
    case Escape(x) => Step(w1, Threw(x))
  }

  /** `callbacks.push(callback)` appends the reaction at the end of `p`'s queue and changes nothing else. */
  lemma PushQueuesLast(w: World, p: nat, cb: Reaction)
    requires p < |w.cells|
    ensures var r := Push(w, p, cb);
            |r.cells| == |w.cells| && r.log == w.log &&
            r.cells[p].callbacks == w.cells[p].callbacks + [cb] && |r.cells[p].callbacks| == |w.cells[p].callbacks| + 1 &&
            r.cells[p].state == w.cells[p].state && r.cells[p].value == w.cells[p].value && r.cells[p].error == w.cells[p].error &&
            forall i :: 0 <= i < |w.cells| && i != p ==> r.cells[i] == w.cells[i]
  {
  }

  /**
   * Resolution engine: `transition` on a settled promise with a plain reaction makes the
   * calls `Expected` lists, in that order, then settles the downstream with the outcome the
   * table gives, whatever reactions the downstream already carries.
   */
  lemma TransitionMatchesExpected(w: World, p: nat, cb: Reaction, fuel: nat)
    requires WF(w) && p < |w.cells| && ReactionIn(cb, |w.cells|)
    requires w.cells[p].state != Pending && Leaf(cb) && fuel > 0
    ensures Transition(w, p, cb, fuel) == Follow(w, cb.downstream, Expected(w.cells[p], cb), fuel - 1)
  {
    var d := cb.downstream;
    var cell := w.cells[p];
    var e := Expected(cell, cb);
    var s1 := Invoke(w, if cell.state == Resolved then cb.onFulfilled else cb.onRejected,
                     if cell.state == Resolved then cell.value else cell.error, fuel - 1);
    assert s1.world.cells == w.cells;
    if cell.state == Resolved && s1.c.Threw? {
      assert s1 == Invoke(w, cb.onFulfilled, cell.value, fuel - 1);
      var s2 := Invoke(s1.world, cb.onRejected, s1.c.e, fuel - 1);
      assert s2.world.cells == w.cells;
      assert s2.world == w.(log := w.log + e.calls);
      if s2.c.Normal? {
        assert s2.c == Normal(Plain(e.outcome.v));
        assert Forward(s2.world, s2.c, p, cb, fuel - 1) == Settle(s2.world, d, e.outcome.st, e.outcome.v, fuel - 1);
      }
    } else {
      assert s1.world == w.(log := w.log + e.calls);
      if s1.c.Normal? {
        assert s1.c == Normal(Plain(e.outcome.v));
        assert Forward(s1.world, s1.c, p, cb, fuel - 1) == Settle(s1.world, d, e.outcome.st, e.outcome.v, fuel - 1);
      }
    }
  }

  /** A downstream with an empty queue is settled at once: `Follow` is then the effect itself. */
  lemma SettleUnqueued(w: World, d: nat, e: Effect, fuel: nat)
    requires WF(w) && d < |w.cells| && |w.cells[d].callbacks| == 0
    requires e.outcome.SettleWith? ==> e.outcome.st != Pending
    ensures Follow(w, d, e, fuel) == ApplyEffect(w, d, e)
  {
    if e.outcome.SettleWith? {
      var w1 := w.(log := w.log + e.calls);
      var w2 := w1.(cells := w1.cells[d := Store(w1.cells[d], e.outcome.st, e.outcome.v)]);
      assert ExecuteFrom(w2, d, 0, 0, fuel) == Step(w2, Done);
    }
  }

  /** One reaction of a queue whose downstreams have empty queues: `transition` is the effect itself. */
  lemma TransitionOnLeafQueue(w: World, p: nat, cb: Reaction, fuel: nat)
    requires WF(w) && p < |w.cells| && ReactionIn(cb, |w.cells|)
    requires w.cells[p].state != Pending && Leaf(cb) && fuel > 0 && |w.cells[cb.downstream].callbacks| == 0
    ensures Transition(w, p, cb, fuel) == ApplyEffect(w, cb.downstream, Expected(w.cells[p], cb))
  {
    TransitionMatchesExpected(w, p, cb, fuel);
    SettleUnqueued(w, cb.downstream, Expected(w.cells[p], cb), fuel - 1);
  }

  /** Preservation of the queue shape across one applied effect. */
  lemma LeafQueueKept(w: World, p: nat, cbs: seq<Reaction>, d: nat, e: Effect)
    requires LeafQueue(w, p, cbs) && d < |w.cells| && d != p
    requires e.outcome.SettleWith? ==> e.outcome.st != Pending
    ensures var s := ApplyEffect(w, d, e); LeafQueue(s.world, p, cbs) && s.world.cells[p] == w.cells[p]
  {
    var s := ApplyEffect(w, d, e);
    forall j | 0 <= j < |cbs|
      ensures |s.world.cells[cbs[j].downstream].callbacks| == 0
    {
      if cbs[j].downstream != d {
        assert s.world.cells[cbs[j].downstream] == w.cells[cbs[j].downstream];
      }
    }
  }

  /** `execute()` and `Drain` take the same step `s` over a reaction of a leaf queue. */
  lemma DrainStepsAgree(w: World, p: nat, k: nat, fuel: nat) returns (s: Step)
    requires WF(w) && p < |w.cells| && LeafQueue(w, p, w.cells[p].callbacks)
    requires w.cells[p].state != Pending && fuel > 0 && k < |w.cells[p].callbacks|
    ensures WF(s.world) && p < |s.world.cells| && s.world.cells[p] == w.cells[p]
    ensures LeafQueue(s.world, p, w.cells[p].callbacks)
    ensures var cbs := w.cells[p].callbacks;
            (s.c.Normal? ==>
              ExecuteFrom(w, p, k, |cbs|, fuel) == ExecuteFrom(s.world, p, k + 1, |cbs|, fuel) &&
              Drain(w, p, cbs, k) == Drain(s.world, p, cbs, k + 1)) &&
            (!s.c.Normal? ==> ExecuteFrom(w, p, k, |cbs|, fuel) == s == Drain(w, p, cbs, k))
  {
    var cbs := w.cells[p].callbacks;
    assert ReactionIn(cbs[k], |w.cells|);
    TransitionOnLeafQueue(w, p, cbs[k], fuel);
    s := Transition(w, p, cbs[k], fuel);
    LeafQueueKept(w, p, cbs, cbs[k].downstream, Expected(w.cells[p], cbs[k]));
  }

  /** `execute()` over a queue of plain reactions is the reference drain, from any index on. */
  lemma {:induction false} ExecuteMatchesDrain(w: World, p: nat, k: nat, fuel: nat)
    requires WF(w) && p < |w.cells| && LeafQueue(w, p, w.cells[p].callbacks)
    requires w.cells[p].state != Pending && fuel > 0 && k <= |w.cells[p].callbacks|
    ensures ExecuteFrom(w, p, k, |w.cells[p].callbacks|, fuel) == Drain(w, p, w.cells[p].callbacks, k)
    decreases |w.cells[p].callbacks| - k
  {
    var cbs := w.cells[p].callbacks;
    if k < |cbs| {
      var s := DrainStepsAgree(w, p, k, fuel);
      if s.c.Normal? {
        ExecuteMatchesDrain(s.world, p, k + 1, fuel);
      }
    } else {
      assert ExecuteFrom(w, p, k, |cbs|, fuel) == Step(w, Done) == Drain(w, p, cbs, k);
    }
  }

  /**
   * `resolve(v)` / `reject(v)` on a promise with a queue of plain reactions: the state and
   * the stored value are overwritten, then every queued reaction is processed once, in
   * registration order, as `Expected` says.
   */
  lemma SettleDrainsQueueInOrder(w: World, p: nat, st: State, v: Value, fuel: nat)
    requires WF(w) && p < |w.cells| && LeafQueue(w, p, w.cells[p].callbacks)
    requires st != Pending && fuel > 0
    ensures Settle(w, p, st, v, fuel) ==
            Drain(w.(cells := w.cells[p := Store(w.cells[p], st, v)]), p, w.cells[p].callbacks, 0)
  {
    var w1 := w.(cells := w.cells[p := Store(w.cells[p], st, v)]);
    var cbs := w.cells[p].callbacks;
    assert LeafQueue(w1, p, cbs) by {
      forall j | 0 <= j < |cbs|
        ensures |w1.cells[cbs[j].downstream].callbacks| == 0
      {
        assert w1.cells[cbs[j].downstream] == w.cells[cbs[j].downstream];
      }
    }
    ExecuteMatchesDrain(w1, p, 0, fuel);
  }

  /** Every user-function call the plain reactions `cbs[k..]` make against a settled `cell`, in registration order. */
  function AllCalls(cell: Cell, cbs: seq<Reaction>, k: nat): seq<Invocation>
    requires cell.state != Pending && forall j :: k <= j < |cbs| ==> Leaf(cbs[j])
    decreases |cbs| - k
  {
    if k >= |cbs| then [] else Expected(cell, cbs[k]).calls + AllCalls(cell, cbs, k + 1)
  }

  /** The reactions `cbs[k..]` feed other promises than `p`, no two the same, and none of them lets a throw escape. */
  predicate QuietQueue(cell: Cell, p: nat, cbs: seq<Reaction>, k: nat)
    requires cell.state != Pending
  {
    (forall j :: k <= j < |cbs| ==> Leaf(cbs[j])) &&
    (forall j :: k <= j < |cbs| ==> cbs[j].downstream != p && Expected(cell, cbs[j]).outcome.SettleWith?) &&
    (forall a, b :: k <= a < b < |cbs| ==> cbs[a].downstream != cbs[b].downstream)
  }

  /** One reaction of a quiet drain: its calls are logged, its downstream is settled, and the drain goes on. */
  lemma QuietDrainStep(w: World, p: nat, cbs: seq<Reaction>, k: nat) returns (s: Step)
    requires p < |w.cells| && w.cells[p].state != Pending && QuietQueue(w.cells[p], p, cbs, k) && k < |cbs|
    requires forall j :: k <= j < |cbs| ==> cbs[j].downstream < |w.cells|
    ensures |s.world.cells| == |w.cells| && s.world.cells[p] == w.cells[p]
    ensures QuietQueue(s.world.cells[p], p, cbs, k + 1)
    ensures Drain(w, p, cbs, k) == Drain(s.world, p, cbs, k + 1)
    ensures s.world.log + AllCalls(w.cells[p], cbs, k + 1) == w.log + AllCalls(w.cells[p], cbs, k)
  {
    var e := Expected(w.cells[p], cbs[k]);
    s := ApplyEffect(w, cbs[k].downstream, e);
    assert e.outcome.SettleWith? && cbs[k].downstream != p;
    assert s.c == Done;
    assert AllCalls(w.cells[p], cbs, k) == e.calls + AllCalls(w.cells[p], cbs, k + 1);
  }

  /** Draining a queue without escaping throws logs every call of every reaction, reaction by reaction in registration order. */
  lemma {:induction false} DrainLogsInOrder(w: World, p: nat, cbs: seq<Reaction>, k: nat)
    requires p < |w.cells| && w.cells[p].state != Pending && QuietQueue(w.cells[p], p, cbs, k)
    requires forall j :: k <= j < |cbs| ==> cbs[j].downstream < |w.cells|
    ensures Drain(w, p, cbs, k).c == Done
    ensures Drain(w, p, cbs, k).world.log == w.log + AllCalls(w.cells[p], cbs, k)
    decreases |cbs| - k
  {
    if k < |cbs| {
      var s := QuietDrainStep(w, p, cbs, k);
      DrainLogsInOrder(s.world, p, cbs, k + 1);
    }
  }

  /** A promise that no reaction of `cbs[k..]` feeds is left as it was by the drain. */
  lemma {:induction false} DrainLeavesOthers(w: World, p: nat, cbs: seq<Reaction>, k: nat, i: nat)
    requires p < |w.cells| && w.cells[p].state != Pending
    requires forall j :: k <= j < |cbs| ==> Leaf(cbs[j]) && cbs[j].downstream < |w.cells| && cbs[j].downstream != p
    requires i < |w.cells| && forall j :: k <= j < |cbs| ==> cbs[j].downstream != i
    ensures Drain(w, p, cbs, k).world.cells[i] == w.cells[i]
    decreases |cbs| - k
  {
    if k < |cbs| {
      var s := ApplyEffect(w, cbs[k].downstream, Expected(w.cells[p], cbs[k]));
      if s.c.Normal? {
        DrainLeavesOthers(s.world, p, cbs, k + 1, i);
      }
    }
  }

  /** Draining a quiet queue settles the downstream of every reaction as `Expected` says. */
  lemma {:induction false} DrainSettlesEach(w: World, p: nat, cbs: seq<Reaction>, k: nat, j: nat)
    requires p < |w.cells| && w.cells[p].state != Pending && QuietQueue(w.cells[p], p, cbs, k)
    requires forall i :: k <= i < |cbs| ==> cbs[i].downstream < |w.cells|
    requires k <= j < |cbs|
    ensures var o := Expected(w.cells[p], cbs[j]).outcome;
            Drain(w, p, cbs, k).world.cells[cbs[j].downstream] == Store(w.cells[cbs[j].downstream], o.st, o.v)
    decreases |cbs| - k
  {
    var s := ApplyEffect(w, cbs[k].downstream, Expected(w.cells[p], cbs[k]));
    assert s.world.cells[p] == w.cells[p];
    if j == k {
      DrainLeavesOthers(s.world, p, cbs, k + 1, cbs[j].downstream);
    } else {
      assert s.world.cells[cbs[j].downstream] == w.cells[cbs[j].downstream];
      DrainSettlesEach(s.world, p, cbs, k + 1, j);
    }
  }

  /**
   * `resolve(v)` / `reject(v)` on a promise whose queue is plain and quiet: the call ends
   * normally; every queued reaction ran once, in registration order (the log grows by exactly
   * their calls, in that order); and the downstream of each is settled as `Expected` says.
   */
  lemma SettleRunsEachReactionOnce(w: World, p: nat, st: State, v: Value, fuel: nat, j: nat)
    requires WF(w) && p < |w.cells| && LeafQueue(w, p, w.cells[p].callbacks)
    requires st != Pending && fuel > 0
    requires QuietQueue(Store(w.cells[p], st, v), p, w.cells[p].callbacks, 0)
    requires j < |w.cells[p].callbacks|
    ensures var s := Settle(w, p, st, v, fuel);
            var cell := Store(w.cells[p], st, v);
            var cb := w.cells[p].callbacks[j];
            var o := Expected(cell, cb).outcome;
            s.c == Done && s.world.cells[p] == cell &&
            s.world.log == w.log + AllCalls(cell, w.cells[p].callbacks, 0) &&
            s.world.cells[cb.downstream] == Store(w.cells[cb.downstream], o.st, o.v)
  {
    var cbs := w.cells[p].callbacks;
    var w1 := w.(cells := w.cells[p := Store(w.cells[p], st, v)]);
    SettleDrainsQueueInOrder(w, p, st, v, fuel);
    DrainLogsInOrder(w1, p, cbs, 0);
    DrainSettlesEach(w1, p, cbs, 0, j);
    assert w1.cells[cbs[j].downstream] == w.cells[cbs[j].downstream];
  }

  /**
   * Settling is not one-shot. A second `resolve`/`reject` overwrites the state and the stored
   * value, and, because `callbacks` is never cleared, drains the whole original queue again.
   */
  lemma SecondSettleRerunsQueue(w: World, p: nat, st1: State, v1: Value, st2: State, v2: Value, fuel: nat)
    requires WF(w) && p < |w.cells| && LeafQueue(w, p, w.cells[p].callbacks)
    requires st1 != Pending && st2 != Pending && fuel > 0
    requires Settle(w, p, st1, v1, fuel).c == Done
    ensures var w1 := Settle(w, p, st1, v1, fuel).world;
            w1.cells[p] == Store(w.cells[p], st1, v1) &&
            Settle(w1, p, st2, v2, fuel) ==
              Drain(w1.(cells := w1.cells[p := Store(w1.cells[p], st2, v2)]), p, w.cells[p].callbacks, 0) &&
            Settle(w1, p, st2, v2, fuel).world.cells[p] == Store(Store(w.cells[p], st1, v1), st2, v2)
  {
    var cbs := w.cells[p].callbacks;
    var w0 := w.(cells := w.cells[p := Store(w.cells[p], st1, v1)]);
    SettleDrainsQueueInOrder(w, p, st1, v1, fuel);
    var w1 := Settle(w, p, st1, v1, fuel).world;
    assert WF(w1);
    assert w1.cells[p] == w0.cells[p];
    assert LeafQueue(w1, p, w1.cells[p].callbacks) by {
      forall j | 0 <= j < |cbs|
        ensures |w1.cells[cbs[j].downstream].callbacks| == 0
      {
        assert w1.cells[cbs[j].downstream].callbacks == w0.cells[cbs[j].downstream].callbacks;
        assert w0.cells[cbs[j].downstream] == w.cells[cbs[j].downstream];
      }
    }
    SettleDrainsQueueInOrder(w1, p, st2, v2, fuel);
  }

  /** Every reaction of `cbs` is plain. */
  predicate LeafReactions(cbs: seq<Reaction>) {
    forall j :: 0 <= j < |cbs| ==> Leaf(cbs[j])
  }

  /**
   * Reference semantics of `execute()` for plain reactions whose downstreams may carry
   * reactions of their own: from index `k` on, each reaction is looked up in `Expected`
   * against the current state of `p`, its calls are logged and its downstream is settled,
   * running that promise's queue, before the next reaction is taken; a throw stops the walk.
   */
  function Walk(w: World, p: nat, k: nat, len: nat, fuel: nat): (s: Step)
    requires WF(w) && p < |w.cells| && w.cells[p].state != Pending && fuel > 0
    requires len <= |w.cells[p].callbacks| && LeafReactions(w.cells[p].callbacks)
    ensures WF(s.world) && Evolves(w, s.world) && w.log <= s.world.log
    ensures s.c.Normal? ==> s.c == Done
    decreases len - k
  {
    if k >= len then Step(w, Done)
    else
      var cb := w.cells[p].callbacks[k];
      assert ReactionIn(cb, |w.cells|);
      var s := Follow(w, cb.downstream, Expected(w.cells[p], cb), fuel - 1);
      assert CellEvolves(w.cells[p], s.world.cells[p]);
      if s.c.Normal? then
        var r := Walk(s.world, p, k + 1, len, fuel);
        EvolvesTrans(w, s.world, r.world);
        r
      else s
  }

  /** One step of `execute()` over a plain reaction: process it as `Follow` says, then go on if that returned normally. */
  lemma ExecuteStep(w: World, p: nat, k: nat, len: nat, fuel: nat)
    requires WF(w) && p < |w.cells| && w.cells[p].state != Pending && fuel > 0
    requires k < len <= |w.cells[p].callbacks| && LeafReactions(w.cells[p].callbacks)
    ensures var cb := w.cells[p].callbacks[k];
            var s := Follow(w, cb.downstream, Expected(w.cells[p], cb), fuel - 1);
            s.world.cells[p].state != Pending && s.world.cells[p].callbacks == w.cells[p].callbacks &&
            ExecuteFrom(w, p, k, len, fuel) == if s.c.Normal? then ExecuteFrom(s.world, p, k + 1, len, fuel) else s
  {
    var cb := w.cells[p].callbacks[k];
    assert ReactionIn(cb, |w.cells|);
    TransitionMatchesExpected(w, p, cb, fuel);
    var s := Transition(w, p, cb, fuel);
    assert CellEvolves(w.cells[p], s.world.cells[p]);
  }

  /** One step of `Walk`, unfolded. */
  lemma WalkStep(w: World, p: nat, k: nat, len: nat, fuel: nat)
    requires WF(w) && p < |w.cells| && w.cells[p].state != Pending && fuel > 0
    requires k < len <= |w.cells[p].callbacks| && LeafReactions(w.cells[p].callbacks)
    ensures var cb := w.cells[p].callbacks[k];
            var s := Follow(w, cb.downstream, Expected(w.cells[p], cb), fuel - 1);
            s.world.cells[p].state != Pending && s.world.cells[p].callbacks == w.cells[p].callbacks &&
            Walk(w, p, k, len, fuel) == if s.c.Normal? then Walk(s.world, p, k + 1, len, fuel) else s
  {
    var cb := w.cells[p].callbacks[k];
    assert ReactionIn(cb, |w.cells|);
    var s := Follow(w, cb.downstream, Expected(w.cells[p], cb), fuel - 1);
    assert CellEvolves(w.cells[p], s.world.cells[p]);
  }

  /**
   * `execute()` and `Walk` take the same step `s` over a plain reaction (the one `Follow`
   * describes): both stop with `s` on a throw, both go on from `s`'s world otherwise.
   */
  lemma StepsAgree(w: World, p: nat, k: nat, len: nat, fuel: nat) returns (s: Step)
    requires WF(w) && p < |w.cells| && w.cells[p].state != Pending && fuel > 0
    requires k < len <= |w.cells[p].callbacks| && LeafReactions(w.cells[p].callbacks)
    ensures WF(s.world) && p < |s.world.cells| && s.world.cells[p].state != Pending &&
            s.world.cells[p].callbacks == w.cells[p].callbacks
    ensures s.c.Normal? ==>
              ExecuteFrom(w, p, k, len, fuel) == ExecuteFrom(s.world, p, k + 1, len, fuel) &&
              Walk(w, p, k, len, fuel) == Walk(s.world, p, k + 1, len, fuel)
    ensures !s.c.Normal? ==> ExecuteFrom(w, p, k, len, fuel) == s == Walk(w, p, k, len, fuel)
  {
    var cb := w.cells[p].callbacks[k];
    assert ReactionIn(cb, |w.cells|);
    s := Follow(w, cb.downstream, Expected(w.cells[p], cb), fuel - 1);
    ExecuteStep(w, p, k, len, fuel);
    WalkStep(w, p, k, len, fuel);
  }

  /** `execute()` over plain reactions is the walk, whatever queues their downstreams carry. */
  lemma {:induction false} ExecuteFollowsQueue(w: World, p: nat, k: nat, len: nat, fuel: nat)
    requires WF(w) && p < |w.cells| && w.cells[p].state != Pending && fuel > 0
    requires len <= |w.cells[p].callbacks| && LeafReactions(w.cells[p].callbacks)
    ensures ExecuteFrom(w, p, k, len, fuel) == Walk(w, p, k, len, fuel)
    decreases len - k
  {
    if k < len {
      var s := StepsAgree(w, p, k, len, fuel);
      if s.c.Normal? {
        ExecuteFollowsQueue(s.world, p, k + 1, len, fuel);
      }
    } else {
      assert ExecuteFrom(w, p, k, len, fuel) == Step(w, Done) == Walk(w, p, k, len, fuel);
    }
  }

  /**
   * `resolve(v)` / `reject(v)` on a promise whose queue holds plain reactions, feeding any
   * promises: the state and stored value are overwritten, then the whole queue is walked in
   * registration order, each downstream settled (with its own queue run) before the next
   * reaction starts.
   */
  lemma SettleFollowsQueue(w: World, p: nat, st: State, v: Value, fuel: nat)
    requires WF(w) && p < |w.cells| && st != Pending && fuel > 0
    requires LeafReactions(w.cells[p].callbacks)
    ensures Settle(w, p, st, v, fuel) ==
            Walk(w.(cells := w.cells[p := Store(w.cells[p], st, v)]), p, 0, |w.cells[p].callbacks|, fuel)
  {
    var w1 := w.(cells := w.cells[p := Store(w.cells[p], st, v)]);
    assert WF(w1);
    ExecuteFollowsQueue(w1, p, 0, |w.cells[p].callbacks|, fuel);
  }

  /**
   * Settling twice, in general: after a first `resolve`/`reject` ends normally the promise
   * still holds its whole original queue, and a second one walks all of it again.
   */
  lemma SettleAgainRerunsQueue(w: World, p: nat, st1: State, v1: Value, st2: State, v2: Value, fuel: nat)
    requires WF(w) && p < |w.cells| && LeafReactions(w.cells[p].callbacks)
    requires st1 != Pending && st2 != Pending && fuel > 0
    requires Settle(w, p, st1, v1, fuel).c == Done
    ensures var w1 := Settle(w, p, st1, v1, fuel).world;
            w1.cells[p].state != Pending && w1.cells[p].callbacks == w.cells[p].callbacks &&
            Settle(w1, p, st2, v2, fuel) ==
              Walk(w1.(cells := w1.cells[p := Store(w1.cells[p], st2, v2)]), p, 0, |w.cells[p].callbacks|, fuel)
  {
    var w0 := w.(cells := w.cells[p := Store(w.cells[p], st1, v1)]);
    var w1 := Settle(w, p, st1, v1, fuel).world;
    assert Settle(w, p, st1, v1, fuel) == ExecuteFrom(w0, p, 0, |w.cells[p].callbacks|, fuel);
    assert CellEvolves(w0.cells[p], w1.cells[p]);
    SettleFollowsQueue(w1, p, st2, v2, fuel);
  }

  /**
   * Reference semantics of a chain `p.then(..).then(..)...` of plain reactions: the outcome
   * of one link (`st`, `v`) is what the next link's table entry sees. The result lists every
   * call, in order, and the outcome that reaches the end of the chain. A chain never changes
   * the disposition: in this implementation resolved stays resolved and rejected stays
   * rejected all along.
   */
  function Pipeline(st: State, v: Value, cbs: seq<Reaction>): (e: Effect)
    requires st != Pending && LeafReactions(cbs)
    ensures e.outcome.SettleWith? ==> e.outcome.st == st
    ensures |e.calls| <= 2 * |cbs|
    decreases |cbs|
  {
    if |cbs| == 0 then Effect([], SettleWith(st, v))
    else
      var first := Expected(Cell(st, v, v, []), cbs[0]);
      match first.outcome
      case Escape(_) => first
      case SettleWith(st', v') =>
        assert LeafReactions(cbs[1..]) by {
          forall j | 0 <= j < |cbs[1..]|
            ensures Leaf(cbs[1..][j])
          {
            assert cbs[1..][j] == cbs[j + 1];
          }
        }
        var rest := Pipeline(st', v', cbs[1..]);
        Effect(first.calls + rest.calls, rest.outcome)
  }

  /** The table only looks at a settled cell's state and the value it stores for that state. */
  lemma ExpectedSeesOnlyOutcome(c: Cell, st: State, v: Value, cb: Reaction)
    requires st != Pending && Leaf(cb)
    ensures Expected(Store(c, st, v), cb) == Expected(Cell(st, v, v, []), cb)
  {
  }

  /**
   * What `p.then(f1).then(f2)...` leaves before `p` settles: the distinct promises `ids[0]`,
   * ..., `ids[n]`, each of the first `n` holding exactly the reaction `cbs[i]`, which feeds
   * the next; the last has an empty queue.
   */
  ghost predicate IsChain(w: World, ids: seq<nat>, cbs: seq<Reaction>) {
    |ids| == |cbs| + 1 &&
    (forall i :: 0 <= i < |ids| ==> ids[i] < |w.cells|) &&
    (forall i, j :: 0 <= i < j < |ids| ==> ids[i] != ids[j]) &&
    (forall i :: 0 <= i < |cbs| ==> w.cells[ids[i]].callbacks == [cbs[i]] && cbs[i].downstream == ids[i + 1]) &&
    w.cells[ids[|cbs|]].callbacks == []
  }

  /** A promise holding the one plain reaction `cb`: settling it is that reaction's `Follow`. */
  lemma SettleOneReaction(w: World, p: nat, cb: Reaction, st: State, v: Value, fuel: nat)
    requires WF(w) && p < |w.cells| && w.cells[p].callbacks == [cb] && Leaf(cb) && ReactionIn(cb, |w.cells|)
    requires st != Pending && fuel > 0
    ensures Settle(w, p, st, v, fuel) ==
            Follow(w.(cells := w.cells[p := Store(w.cells[p], st, v)]), cb.downstream,
                   Expected(Cell(st, v, v, []), cb), fuel - 1)
  {
    var w0 := w.(cells := w.cells[p := Store(w.cells[p], st, v)]);
    assert ReactionIn(cb, |w.cells|);
    SettleFollowsQueue(w, p, st, v, fuel);
    ExpectedSeesOnlyOutcome(w.cells[p], st, v, cb);
    var f := Follow(w0, cb.downstream, Expected(w0.cells[p], cb), fuel - 1);
    assert Walk(w0, p, 0, 1, fuel) == (if f.c.Normal? then Walk(f.world, p, 1, 1, fuel) else f);
  }

  /** Past its head, a chain is a chain in any world that changed only the head's cell and the log. */
  lemma ChainTail(w: World, w1: World, ids: seq<nat>, cbs: seq<Reaction>)
    requires IsChain(w, ids, cbs) && LeafReactions(cbs) && |cbs| > 0
    requires |w1.cells| == |w.cells| && forall i :: 0 <= i < |w.cells| && i != ids[0] ==> w1.cells[i] == w.cells[i]
    ensures IsChain(w1, ids[1..], cbs[1..]) && LeafReactions(cbs[1..])
  {
    var ids' := ids[1..];
    var cbs' := cbs[1..];
    forall i | 0 <= i < |ids'|
      ensures w1.cells[ids'[i]] == w.cells[ids'[i]]
    {
      assert ids'[i] == ids[i + 1] && ids[0] != ids[i + 1];
    }
    forall i | 0 <= i < |cbs'|
      ensures w1.cells[ids'[i]].callbacks == [cbs'[i]] && cbs'[i].downstream == ids'[i + 1]
    {
      assert ids'[i] == ids[i + 1] && cbs'[i] == cbs[i + 1] && ids'[i + 1] == ids[i + 2];
    }
    forall j | 0 <= j < |cbs'|
      ensures Leaf(cbs'[j])
    {
      assert cbs'[j] == cbs[j + 1];
    }
  }

  /**
   * What settling the head of a chain does, against `Pipeline`: the log grows by exactly the
   * calls `Pipeline` lists, in order; no promise is created and none outside the chain
   * changes; the end of the chain is settled with the outcome that reaches it, or the first
   * escaping throw ends the call.
   */
  ghost predicate RunsAsPipeline(w: World, ids: seq<nat>, cbs: seq<Reaction>, st: State, v: Value, s: Step)
    requires |ids| == |cbs| + 1 && ids[|cbs|] < |w.cells| && st != Pending && LeafReactions(cbs)
  {
    var e := Pipeline(st, v, cbs);
    s.world.log == w.log + e.calls && |s.world.cells| == |w.cells| &&
    (forall i :: 0 <= i < |w.cells| && i !in ids ==> s.world.cells[i] == w.cells[i]) &&
    (e.outcome.SettleWith? ==>
      s.c == Done && s.world.cells[ids[|cbs|]] == Store(w.cells[ids[|cbs|]], e.outcome.st, e.outcome.v)) &&
    (e.outcome.Escape? ==> s.c == Threw(e.outcome.e))
  }

  /**
   * The induction step of `PipelineRuns`: the rest of the chain runs from the next promise
   * (by induction), and what it did, seen from the head, is what `Pipeline` says of the whole.
   */
  lemma {:induction false} PipelineLink(w: World, w1: World, ids: seq<nat>, cbs: seq<Reaction>, st: State, v: Value,
                                        first: Effect, fuel: nat)
    requires |cbs| > 0 && IsChain(w, ids, cbs) && st != Pending && LeafReactions(cbs) && fuel > |cbs|
    requires first == Expected(Cell(st, v, v, []), cbs[0]) && first.outcome.SettleWith?
    requires w1 == World(w.cells[ids[0] := Store(w.cells[ids[0]], st, v)], w.log + first.calls)
    requires WF(w1) && IsChain(w1, ids[1..], cbs[1..]) && LeafReactions(cbs[1..])
    ensures RunsAsPipeline(w, ids, cbs, st, v, Settle(w1, ids[1..][0], first.outcome.st, first.outcome.v, fuel - 1))
    decreases |cbs|, 0
  {
    var t := Settle(w1, ids[1..][0], first.outcome.st, first.outcome.v, fuel - 1);
    PipelineRuns(w1, ids[1..], cbs[1..], first.outcome.st, first.outcome.v, fuel - 1);
    var rest := Pipeline(first.outcome.st, first.outcome.v, cbs[1..]);
    assert Pipeline(st, v, cbs) == Effect(first.calls + rest.calls, rest.outcome);
    assert w1.log + rest.calls == w.log + (first.calls + rest.calls);
    assert ids[1..][|cbs| - 1] == ids[|cbs|] && ids[0] != ids[|cbs|];
    PipelineFrame(w, w1, ids, t);
  }

  /** The frame half of the induction step of `PipelineRuns`: promises outside the chain keep their cells. */
  lemma PipelineFrame(w: World, w1: World, ids: seq<nat>, t: Step)
    requires |ids| > 0 && |w1.cells| == |w.cells| && |t.world.cells| == |w1.cells|
    requires forall i :: 0 <= i < |w.cells| && i != ids[0] ==> w1.cells[i] == w.cells[i]
    requires forall i :: 0 <= i < |w1.cells| && i !in ids[1..] ==> t.world.cells[i] == w1.cells[i]
    ensures forall i :: 0 <= i < |w.cells| && i !in ids ==> t.world.cells[i] == w.cells[i]
  {
    forall i | 0 <= i < |w.cells| && i !in ids
      ensures t.world.cells[i] == w.cells[i]
    {
      assert i !in ids[1..];
    }
  }

  /** The end of a chain: settling a promise with an empty queue only stores its outcome. */
  lemma PipelineEnd(w: World, ids: seq<nat>, st: State, v: Value, fuel: nat)
    requires WF(w) && IsChain(w, ids, []) && st != Pending
    ensures RunsAsPipeline(w, ids, [], st, v, Settle(w, ids[0], st, v, fuel))
  {
    var w0 := w.(cells := w.cells[ids[0] := Store(w.cells[ids[0]], st, v)]);
    assert ExecuteFrom(w0, ids[0], 0, 0, fuel) == Step(w0, Done);
  }

  /**
   * The first link of a chain: settling its head runs the head's one reaction, then either
   * settles the next promise or ends the call with the throw that escaped.
   */
  lemma PipelineHead(w: World, ids: seq<nat>, cbs: seq<Reaction>, st: State, v: Value, fuel: nat)
    requires WF(w) && IsChain(w, ids, cbs) && LeafReactions(cbs) && st != Pending && fuel > |cbs| > 0
    ensures var first := Expected(Cell(st, v, v, []), cbs[0]);
            var w1 := World(w.cells[ids[0] := Store(w.cells[ids[0]], st, v)], w.log + first.calls);
            WF(w1) && IsChain(w1, ids[1..], cbs[1..]) && LeafReactions(cbs[1..]) &&
            (first.outcome.Escape? ==> RunsAsPipeline(w, ids, cbs, st, v, Settle(w, ids[0], st, v, fuel))) &&
            (first.outcome.SettleWith? ==>
              Settle(w, ids[0], st, v, fuel) == Settle(w1, ids[1], first.outcome.st, first.outcome.v, fuel - 1))
  {
    var p := ids[0];
    var cb := cbs[0];
    var w0 := w.(cells := w.cells[p := Store(w.cells[p], st, v)]);
    assert w.cells[p].callbacks == [cb] && cb.downstream == ids[1] && Leaf(cb);
    SettleOneReaction(w, p, cb, st, v, fuel);
    var first := Expected(Cell(st, v, v, []), cb);
    var w1 := w0.(log := w.log + first.calls);
    ChainTail(w, w1, ids, cbs);
    assert WF(w1) by {
      assert Evolves(w, w0);
    }
    if first.outcome.Escape? {
      assert Pipeline(st, v, cbs) == first;
    }
  }

  /** Settling the head of a chain of plain `then`s runs the chain link by link, as `RunsAsPipeline` says. */
  lemma {:induction false} PipelineRuns(w: World, ids: seq<nat>, cbs: seq<Reaction>, st: State, v: Value, fuel: nat)
    requires WF(w) && IsChain(w, ids, cbs) && LeafReactions(cbs) && st != Pending && fuel > |cbs|
    ensures RunsAsPipeline(w, ids, cbs, st, v, Settle(w, ids[0], st, v, fuel))
    decreases |cbs|, 1
  {
    var first := if |cbs| == 0 then Effect([], SettleWith(st, v)) else Expected(Cell(st, v, v, []), cbs[0]);
    if |cbs| == 0 {
      PipelineEnd(w, ids, st, v, fuel);
    } else if first.outcome.Escape? {
      PipelineHead(w, ids, cbs, st, v, fuel);
    } else {
      var w1 := World(w.cells[ids[0] := Store(w.cells[ids[0]], st, v)], w.log + first.calls);
      assert WF(w1) && IsChain(w1, ids[1..], cbs[1..]) && LeafReactions(cbs[1..]) &&
             Settle(w, ids[0], st, v, fuel) == Settle(w1, ids[1..][0], first.outcome.st, first.outcome.v, fuel - 1) by {
        PipelineHead(w, ids, cbs, st, v, fuel);
        assert ids[1..][0] == ids[1];
      }
      PipelineLink(w, w1, ids, cbs, st, v, first, fuel);
    }
  }

  /** `then` on a pending promise appends exactly one reaction, at the end of its queue, and calls no handler. */
  lemma ThenOnPendingQueues(w: World, p: nat, onFulfilled: Option<Handler>, onRejected: Option<Handler>, fuel: nat)
    requires WF(w) && p < |w.cells| && w.cells[p].state == Pending && fuel > 0
    requires OptHandlerIn(onFulfilled, |w.cells|) && OptHandlerIn(onRejected, |w.cells|)
    ensures var n := |w.cells|;
            var cell := w.cells[p].(callbacks := w.cells[p].callbacks + [Reaction(onFulfilled, onRejected, n)]);
            Then(w, p, onFulfilled, onRejected, fuel) ==
              Step(World((w.cells + [Unsettled])[p := cell], w.log), Normal(APromise(n)))
  {
  }

  /**
   * `then` on a settled promise with plain handlers processes the reaction at once, inside the
   * call, as `Expected` says, and leaves the promise's own queue as it was.
   */
  lemma ThenOnSettledRunsAtOnce(w: World, p: nat, onFulfilled: Option<Handler>, onRejected: Option<Handler>, fuel: nat)
    requires WF(w) && p < |w.cells| && w.cells[p].state != Pending && fuel > 0
    requires OptHandlerIn(onFulfilled, |w.cells|) && OptHandlerIn(onRejected, |w.cells|)
    requires PlainHandler(onFulfilled) && PlainHandler(onRejected)
    ensures var n := |w.cells|;
            var a := ApplyEffect(w.(cells := w.cells + [Unsettled]), n, Expected(w.cells[p], Reaction(onFulfilled, onRejected, n)));
            var s := Then(w, p, onFulfilled, onRejected, fuel);
            s == Step(a.world, if a.c.Normal? then Normal(APromise(n)) else a.c) &&
            s.world.cells[p] == w.cells[p]
  {
    var n := |w.cells|;
    var w1 := w.(cells := w.cells + [Unsettled]);
    assert WF(w1);
    TransitionMatchesExpected(w1, p, Reaction(onFulfilled, onRejected, n), fuel);
    SettleUnqueued(w1, n, Expected(w.cells[p], Reaction(onFulfilled, onRejected, n)), fuel - 1);
  }

  /**
   * The tail of `transition` when the handler returned a pending promise `q` (lines 35-37):
   * `q.then(downstream.resolve, downstream.reject)` creates a fresh promise and queues on `q` a
   * forwarding reaction that feeds it, and leaves everything else as it was.
   */
  lemma ForwardChainsPending(w: World, p: nat, cb: Reaction, q: nat, fuel: nat)
    requires WF(w) && p < |w.cells| && ReactionIn(cb, |w.cells|) && q < |w.cells| && fuel > 0
    requires w.cells[q].state == Pending
    ensures var n := |w.cells|;
            var fwd := Reaction(Some(ResolveOf(cb.downstream)), Some(RejectOf(cb.downstream)), n);
            Forward(w, Normal(APromise(q)), p, cb, fuel) ==
              Step(World((w.cells + [Unsettled])[q := w.cells[q].(callbacks := w.cells[q].callbacks + [fwd])], w.log), Done)
  {
    var n := |w.cells|;
    var fwd := Reaction(Some(ResolveOf(cb.downstream)), Some(RejectOf(cb.downstream)), n);
    var w2 := w.(cells := w.cells + [Unsettled]);
    assert Transition(w2, q, fwd, fuel) == Step(Push(w2, q, fwd), Done);
    assert Then(w, q, fwd.onFulfilled, fwd.onRejected, fuel) == Step(Push(w2, q, fwd), Normal(APromise(n)));
  }

  /**
   * Flattening, first half: when `onFulfilled` returns a pending promise `q`, the downstream is
   * not settled; instead `q.then(downstream.resolve, downstream.reject)` queues a forwarding
   * reaction on `q` (feeding a fresh, otherwise unused promise).
   */
  lemma ChainWaitsForInner(w: World, p: nat, cb: Reaction, fuel: nat)
    requires WF(w) && p < |w.cells| && ReactionIn(cb, |w.cells|) && fuel > 1
    requires w.cells[p].state == Resolved && cb.onFulfilled.Some? && cb.onFulfilled.value.Chain?
    requires w.cells[cb.onFulfilled.value.inner].state == Pending
    ensures var q := cb.onFulfilled.value.inner;
            var n := |w.cells|;
            var fwd := Reaction(Some(ResolveOf(cb.downstream)), Some(RejectOf(cb.downstream)), n);
            Transition(w, p, cb, fuel) ==
              Step(World((w.cells + [Unsettled])[q := w.cells[q].(callbacks := w.cells[q].callbacks + [fwd])],
                         w.log + [Invoked(cb.onFulfilled.value.name, w.cells[p].value)]), Done)
  {
    var h := cb.onFulfilled.value;
    var w1 := w.(log := w.log + [Invoked(h.name, w.cells[p].value)]);
    assert Invoke(w, cb.onFulfilled, w.cells[p].value, fuel - 1) == Step(w1, Normal(APromise(h.inner)));
    ForwardChainsPending(w1, p, cb, h.inner, fuel - 1);
  }

  /**
   * The same flattening for a rejected promise (line 32): when `onRejected` returns a pending
   * promise `q`, the downstream waits for `q` through a forwarding reaction.
   */
  lemma RejectionChainWaitsForInner(w: World, p: nat, cb: Reaction, fuel: nat)
    requires WF(w) && p < |w.cells| && ReactionIn(cb, |w.cells|) && fuel > 1
    requires w.cells[p].state == Rejected && cb.onRejected.Some? && cb.onRejected.value.Chain?
    requires w.cells[cb.onRejected.value.inner].state == Pending
    ensures var q := cb.onRejected.value.inner;
            var n := |w.cells|;
            var fwd := Reaction(Some(ResolveOf(cb.downstream)), Some(RejectOf(cb.downstream)), n);
            Transition(w, p, cb, fuel) ==
              Step(World((w.cells + [Unsettled])[q := w.cells[q].(callbacks := w.cells[q].callbacks + [fwd])],
                         w.log + [Invoked(cb.onRejected.value.name, w.cells[p].error)]), Done)
  {
    var h := cb.onRejected.value;
    var w1 := w.(log := w.log + [Invoked(h.name, w.cells[p].error)]);
    assert Invoke(w, cb.onRejected, w.cells[p].error, fuel - 1) == Step(w1, Normal(APromise(h.inner)));
    ForwardChainsPending(w1, p, cb, h.inner, fuel - 1);
  }

  /**
   * The same flattening after a caught throw (line 28): `onFulfilled` throws `x`, and
   * `onRejected(x)` returns a pending promise `q`; the downstream waits for `q`.
   */
  lemma RecoveryChainWaitsForInner(w: World, p: nat, cb: Reaction, x: Value, fuel: nat)
    requires WF(w) && p < |w.cells| && ReactionIn(cb, |w.cells|) && fuel > 1
    requires w.cells[p].state == Resolved
    requires cb.onFulfilled.Some? && cb.onFulfilled.value.Fn? && cb.onFulfilled.value.body(w.cells[p].value) == Throws(x)
    requires cb.onRejected.Some? && cb.onRejected.value.Chain?
    requires w.cells[cb.onRejected.value.inner].state == Pending
    ensures var q := cb.onRejected.value.inner;
            var n := |w.cells|;
            var fwd := Reaction(Some(ResolveOf(cb.downstream)), Some(RejectOf(cb.downstream)), n);
            Transition(w, p, cb, fuel) ==
              Step(World((w.cells + [Unsettled])[q := w.cells[q].(callbacks := w.cells[q].callbacks + [fwd])],
                         w.log + [Invoked(cb.onFulfilled.value.name, w.cells[p].value), Invoked(cb.onRejected.value.name, x)]), Done)
  {
    var f := cb.onFulfilled.value;
    var h := cb.onRejected.value;
    var w1 := w.(log := w.log + [Invoked(f.name, w.cells[p].value)]);
    assert Invoke(w, cb.onFulfilled, w.cells[p].value, fuel - 1) == Step(w1, Threw(x));
    var w2 := w1.(log := w1.log + [Invoked(h.name, x)]);
    assert Invoke(w1, cb.onRejected, x, fuel - 1) == Step(w2, Normal(APromise(h.inner)));
    ForwardChainsPending(w2, p, cb, h.inner, fuel - 1);
    assert w2.log == w.log + [Invoked(f.name, w.cells[p].value), Invoked(h.name, x)];
  }

  /**
   * Flattening, second half: the forwarding reaction on a settled promise `q` calls the
   * downstream `d`'s own `resolve` (or `reject`) with `q`'s value (or error), which runs `d`'s
   * queue, and then settles its fresh promise `e` with `undefined`, with `q`'s disposition.
   * If resolving `d` throws, `transition` catches it and calls `d`'s `reject` with the throw.
   */
  lemma ForwarderCopiesInner(w: World, q: nat, d: nat, e: nat, fuel: nat)
    requires WF(w) && q < |w.cells| && d < |w.cells| && e < |w.cells| && fuel > 0
    requires w.cells[q].state != Pending
    ensures var cell := w.cells[q];
            var x := if cell.state == Resolved then cell.value else cell.error;
            var fwd := Reaction(Some(ResolveOf(d)), Some(RejectOf(d)), e);
            var a := Settle(w, d, cell.state, x, fuel - 1);
            (a.c.Normal? ==>
              Transition(w, q, fwd, fuel) ==
                Settle(a.world, e, if a.world.cells[q].state == Resolved then Resolved else Rejected, Undefined, fuel - 1)) &&
            (cell.state == Resolved && a.c.Threw? ==>
              Transition(w, q, fwd, fuel) ==
                var b := Settle(a.world, d, Rejected, a.c.e, fuel - 1);
                if b.c.Normal? then
                  Settle(b.world, e, if b.world.cells[q].state == Resolved then Resolved else Rejected, Undefined, fuel - 1)
                else b) &&
            (!a.c.Normal? && !(cell.state == Resolved && a.c.Threw?) ==> Transition(w, q, fwd, fuel) == a)
  {
    var cell := w.cells[q];
    var x := if cell.state == Resolved then cell.value else cell.error;
    var fwd := Reaction(Some(ResolveOf(d)), Some(RejectOf(d)), e);
    var a := Settle(w, d, cell.state, x, fuel - 1);
    var h := if cell.state == Resolved then ResolveOf(d) else RejectOf(d);
    assert Invoke(w, Some(h), x, fuel - 1) == a;
    if cell.state == Resolved && a.c.Threw? {
      var b := Settle(a.world, d, Rejected, a.c.e, fuel - 1);
      assert Invoke(a.world, Some(RejectOf(d)), a.c.e, fuel - 1) == b;
    }
  }

  /**
   * When settling the downstream `d` returns normally and the forwarder's fresh promise `e` has
   * an empty queue, the forwarding reaction ends with `e` settled with `undefined`.
   */
  lemma ForwardIntoUnqueued(w: World, q: nat, d: nat, e: nat, fuel: nat)
    requires WF(w) && q < |w.cells| && d < |w.cells| && e < |w.cells| && fuel > 0
    requires w.cells[q].state != Pending
    requires var cell := w.cells[q];
             var a := Settle(w, d, cell.state, if cell.state == Resolved then cell.value else cell.error, fuel - 1);
             a.c.Normal? && a.world.cells[e].callbacks == []
    ensures var cell := w.cells[q];
            var a := Settle(w, d, cell.state, if cell.state == Resolved then cell.value else cell.error, fuel - 1);
            var disp := if a.world.cells[q].state == Resolved then Resolved else Rejected;
            Transition(w, q, Reaction(Some(ResolveOf(d)), Some(RejectOf(d)), e), fuel) ==
              Step(a.world.(cells := a.world.cells[e := Store(a.world.cells[e], disp, Undefined)]), Done)
  {
    var cell := w.cells[q];
    var a := Settle(w, d, cell.state, if cell.state == Resolved then cell.value else cell.error, fuel - 1);
    ForwarderCopiesInner(w, q, d, e, fuel);
    var disp := if a.world.cells[q].state == Resolved then Resolved else Rejected;
    var wb := a.world.(cells := a.world.cells[e := Store(a.world.cells[e], disp, Undefined)]);
    assert ExecuteFrom(wb, e, 0, 0, fuel - 1) == Step(wb, Done);
  }

  /**
   * The forwarding step of `DownstreamFollowsInner`: once `q` is settled and its queue holds
   * only the forwarding reaction into `d`, running that queue runs the chain from `d` exactly as
   * `PipelineRuns` says and then settles the forwarder's own fresh promise `n`.
   */
  lemma ForwardedTail(wq: World, q: nat, d: nat, n: nat, ids: seq<nat>, cbs: seq<Reaction>, st: State, x: Value, fuel: nat)
    requires WF(wq) && q < |wq.cells| && n < |wq.cells| && fuel > |cbs| + 1 && st != Pending
    requires wq.cells[q].state == st && (if st == Resolved then wq.cells[q].value else wq.cells[q].error) == x
    requires wq.cells[q].callbacks == [Reaction(Some(ResolveOf(d)), Some(RejectOf(d)), n)]
    requires wq.cells[n] == Unsettled
    requires IsChain(wq, ids, cbs) && LeafReactions(cbs) && ids[0] == d && n !in ids && q !in ids
    requires Pipeline(st, x, cbs).outcome.SettleWith?
    ensures var s := ExecuteFrom(wq, q, 0, 1, fuel);
            var e := Pipeline(st, x, cbs);
            s.c == Done && s.world.log == wq.log + e.calls &&
            s.world.cells[ids[|cbs|]] == Store(wq.cells[ids[|cbs|]], e.outcome.st, e.outcome.v)
  {
    var fwd := Reaction(Some(ResolveOf(d)), Some(RejectOf(d)), n);
    PipelineRuns(wq, ids, cbs, st, x, fuel - 1);
    var a := Settle(wq, d, st, x, fuel - 1);
    assert a.c == Done && a.world.cells[n] == Unsettled && a.world.cells[q] == wq.cells[q];
    ForwardIntoUnqueued(wq, q, d, n, fuel);
    var disp := if st == Resolved then Resolved else Rejected;
    var wb := a.world.(cells := a.world.cells[n := Store(a.world.cells[n], disp, Undefined)]);
    assert ExecuteFrom(wb, q, 1, 1, fuel) == Step(wb, Done);
    assert ExecuteFrom(wq, q, 0, 1, fuel) == Step(wb, Done);
  }

  /**
   * The world of `DownstreamFollowsInner` once `q` is settled, before its queue runs: `q`
   * holds the outcome and the forwarding reaction, the chain from the downstream is intact,
   * and the forwarder's fresh promise is still unsettled.
   */
  lemma InnerSettled(w: World, p: nat, cb: Reaction, ids: seq<nat>, cbs: seq<Reaction>, st: State, x: Value, fuel: nat)
      returns (wq: World)
    requires WF(w) && p < |w.cells| && ReactionIn(cb, |w.cells|) && fuel > 1
    requires w.cells[p].state == Resolved && cb.onFulfilled.Some? && cb.onFulfilled.value.Chain?
    requires w.cells[cb.onFulfilled.value.inner].state == Pending
    requires |w.cells[cb.onFulfilled.value.inner].callbacks| == 0
    requires IsChain(w, ids, cbs) && ids[0] == cb.downstream && cb.onFulfilled.value.inner !in ids
    requires st != Pending
    ensures var q := cb.onFulfilled.value.inner;
            var n := |w.cells|;
            var s1 := Transition(w, p, cb, fuel);
            WF(wq) && q < |wq.cells| && n < |wq.cells| && wq.cells[n] == Unsettled &&
            wq.cells[q].state == st && (if st == Resolved then wq.cells[q].value else wq.cells[q].error) == x &&
            wq.cells[q].callbacks == [Reaction(Some(ResolveOf(cb.downstream)), Some(RejectOf(cb.downstream)), n)] &&
            IsChain(wq, ids, cbs) && n !in ids && wq.log == s1.world.log &&
            s1.world.cells[cb.downstream] == w.cells[cb.downstream] &&
            wq.cells[ids[|cbs|]] == w.cells[ids[|cbs|]] &&
            Settle(s1.world, q, st, x, fuel) == ExecuteFrom(wq, q, 0, 1, fuel)
  {
    var q := cb.onFulfilled.value.inner;
    var d := cb.downstream;
    var n := |w.cells|;
    ChainWaitsForInner(w, p, cb, fuel);
    var s1 := Transition(w, p, cb, fuel);
    var fwd := Reaction(Some(ResolveOf(d)), Some(RejectOf(d)), n);
    assert s1.world.cells[q].callbacks == [fwd];
    wq := s1.world.(cells := s1.world.cells[q := Store(s1.world.cells[q], st, x)]);
    assert WF(wq) by {
      assert ReactionIn(fwd, |wq.cells|);
    }
    forall i | 0 <= i < |ids|
      ensures wq.cells[ids[i]] == w.cells[ids[i]]
    {
      assert ids[i] != q && ids[i] < n;
    }
    assert wq.cells[n] == Unsettled;
  }

  /**
   * Flattening end to end, along a chain: a reaction whose `onFulfilled` returns a pending
   * promise `q` (with an empty queue) leaves its downstream `ids[0]` pending, whatever chain of
   * plain `then`s hangs from it. When `q` later settles, the whole chain runs as if
   * `ids[0]` itself had been settled with `q`'s outcome: the log grows by the calls of
   * `Pipeline`, and the end of the chain is settled with the outcome that reaches it.
   */
  lemma DownstreamFollowsInner(w: World, p: nat, cb: Reaction, ids: seq<nat>, cbs: seq<Reaction>, st: State, x: Value, fuel: nat)
    requires WF(w) && p < |w.cells| && ReactionIn(cb, |w.cells|) && fuel > |cbs| + 1
    requires w.cells[p].state == Resolved && cb.onFulfilled.Some? && cb.onFulfilled.value.Chain?
    requires w.cells[cb.onFulfilled.value.inner].state == Pending
    requires |w.cells[cb.onFulfilled.value.inner].callbacks| == 0
    requires IsChain(w, ids, cbs) && LeafReactions(cbs) && ids[0] == cb.downstream && cb.onFulfilled.value.inner !in ids
    requires st != Pending && Pipeline(st, x, cbs).outcome.SettleWith?
    ensures var s1 := Transition(w, p, cb, fuel);
            var s2 := Settle(s1.world, cb.onFulfilled.value.inner, st, x, fuel);
            var e := Pipeline(st, x, cbs);
            s1.world.cells[cb.downstream] == w.cells[cb.downstream] &&
            s2.c == Done && s2.world.log == s1.world.log + e.calls &&
            s2.world.cells[ids[|cbs|]] == Store(w.cells[ids[|cbs|]], e.outcome.st, e.outcome.v)
  {
    var q := cb.onFulfilled.value.inner;
    var wq := InnerSettled(w, p, cb, ids, cbs, st, x, fuel);
    ForwardedTail(wq, q, cb.downstream, |w.cells|, ids, cbs, st, x, fuel);
  }

  /** `then()` without handlers does not pass the value or the error through: the downstream gets `undefined`, with the source's disposition. */
  lemma NoHandlersYieldUndefined(cell: Cell, d: nat)
    requires cell.state != Pending
    ensures Expected(cell, Reaction(None, None, d)) == Effect([], SettleWith(cell.state, Undefined))
  {
  }

  /** On a rejected promise, an `onRejected` that returns `r` rejects the downstream with `r`: a handled rejection stays a rejection. */
  lemma RecoveryStillRejects(cell: Cell, onFulfilled: Option<Handler>, g: Handler, d: nat, r: Value)
    requires cell.state == Rejected && PlainHandler(onFulfilled) && g.Fn? && g.body(cell.error) == Returns(r)
    ensures Expected(cell, Reaction(onFulfilled, Some(g), d)) == Effect([Invoked(g.name, cell.error)], SettleWith(Rejected, r))
  {
  }

  /**
   * On a resolved promise, a throw `x` from `onFulfilled` goes to the same reaction's
   * `onRejected`, and the downstream is still resolved: with that handler's result, or with
   * `undefined` when there is none.
   */
  lemma FulfilledThrowStillResolves(cell: Cell, f: Handler, onRejected: Option<Handler>, d: nat, x: Value)
    requires cell.state == Resolved && f.Fn? && f.body(cell.value) == Throws(x) && PlainHandler(onRejected)
    ensures var e := Expected(cell, Reaction(Some(f), onRejected, d));
      e.calls[0] == Invoked(f.name, cell.value) &&
      (onRejected.None? ==> e == Effect([Invoked(f.name, cell.value)], SettleWith(Resolved, Undefined))) &&
      (onRejected.Some? ==>
        |e.calls| == 2 && e.calls[1] == Invoked(onRejected.value.name, x) &&
        (onRejected.value.body(x).Returns? ==> e.outcome == SettleWith(Resolved, onRejected.value.body(x).v)))
  {
  }
}
