/**
 * The semantics of `iPromise`, the hand-rolled deferred value of space/11/promise.js,
 * as functions over a world of promise cells.
 *
 * Every `iPromise` keeps four closure variables: `state`, `value`, `error` and the
 * reaction queue `callbacks`. Promises refer to each other (a reaction holds the
 * `resolve`/`reject` closures of the promise that `then` returned), so the model keeps all
 * of them in one sequence of cells and names a promise by its index in that sequence.
 *
 * Handlers are data rather than closures: a user function without side effects, a user
 * function that returns an existing promise, or the `resolve`/`reject` closure of some
 * promise. The world also logs every call of a user function, so that "which handler ran,
 * with what argument, in what order" is observable.
 *
 * Nothing in the source bounds the nesting of calls (a reaction can resolve a promise whose
 * reactions resolve further promises, without end). A `fuel` argument bounds the depth of
 * nested transitions; when it runs out the model stops with `Exhausted`, which stands for
 * the host's call-stack limit.
 */
module Promise {
  import opened Wrappers

  /** The three values of the closure variable `state`. */
  datatype State = Pending | Resolved | Rejected

  /** The JavaScript values that flow through promises (no promise object is such a value). */
  datatype Value = Undefined | Null | Bool(b: bool) | Num(n: int) | Str(s: string)

  /** What a user function does when it is called: return a value or throw one. */
  datatype Reply = Returns(v: Value) | Throws(e: Value)

  /** A handler passed to `then`, or one that `transition` installs itself. */
  datatype Handler =
    | Fn(name: string, body: Value -> Reply)  // a user function without side effects
    | Chain(name: string, inner: nat)         // a user function that returns the promise `inner`
    | ResolveOf(target: nat)                  // the `resolve` closure of promise `target`
    | RejectOf(target: nat)                   // the `reject` closure of promise `target`

  /**
   * The record `then` hands to `transition`: the two optional handlers and the promise whose
   * `resolve`/`reject` closures are the record's `resolve`/`reject` fields.
   */
  datatype Reaction = Reaction(onFulfilled: Option<Handler>, onRejected: Option<Handler>, downstream: nat)

  /** The closure variables of one `iPromise`. */
  datatype Cell = Cell(state: State, value: Value, error: Value, callbacks: seq<Reaction>)

  /** A call of a user function, with its argument. */
  datatype Invocation = Invoked(name: string, arg: Value)

  /** All promises created so far, and every user-function call made so far, oldest first. */
  datatype World = World(cells: seq<Cell>, log: seq<Invocation>)

  /** What a handler call produced: a plain value, or a promise (the `instanceof iPromise` case). */
  datatype Answer = Plain(v: Value) | APromise(id: nat)

  /** How a call ended: normally, by a throw, or by running out of call depth. */
  datatype Completion = Normal(a: Answer) | Threw(e: Value) | Exhausted

  /** The world after a call, and how the call ended. */
  datatype Step = Step(world: World, c: Completion)

  /** A promise just constructed: `state = 'pending'`, `value = null`, `error = null`, `callbacks = []`. */
  const Unsettled := Cell(Pending, Null, Null, [])

  /** The normal end of a call that returns `undefined`. */
  const Done := Normal(Plain(Undefined))

  predicate HandlerIn(h: Handler, n: nat) {
    match h
    case Fn(_, _) => true
    case Chain(_, q) => q < n
    case ResolveOf(q) => q < n
    case RejectOf(q) => q < n
  }

  predicate OptHandlerIn(h: Option<Handler>, n: nat) {
    h.Some? ==> HandlerIn(h.value, n)
  }

  /** Every promise a reaction mentions exists among the first `n` cells. */
  predicate ReactionIn(cb: Reaction, n: nat) {
    cb.downstream < n && OptHandlerIn(cb.onFulfilled, n) && OptHandlerIn(cb.onRejected, n)
  }

  predicate CompletionIn(c: Completion, n: nat) {
    c.Normal? && c.a.APromise? ==> c.a.id < n
  }

  /** Well-formed world: every queued reaction refers to promises that exist. */
  predicate WF(w: World) {
    forall i, k :: 0 <= i < |w.cells| && 0 <= k < |w.cells[i].callbacks| ==>
      ReactionIn(w.cells[i].callbacks[k], |w.cells|)
  }

  /**
   * How one promise may change: its queue only grows, and once settled it never returns to
   * `'pending'` and its queue never changes again (nothing pushes to a settled promise).
   */
  ghost predicate CellEvolves(c: Cell, c': Cell) {
    c.callbacks <= c'.callbacks &&
    (c.state != Pending ==> c'.state != Pending && c'.callbacks == c.callbacks)
  }

  /** How the world may change: promises are only added, the log only grows, every cell evolves. */
  ghost predicate Evolves(w: World, w': World) {
    |w.cells| <= |w'.cells| && w.log <= w'.log &&
    forall i :: 0 <= i < |w.cells| ==> CellEvolves(w.cells[i], w'.cells[i])
  }

  lemma EvolvesTrans(a: World, b: World, c: World)
    requires Evolves(a, b) && Evolves(b, c)
    ensures Evolves(a, c)
  {
    forall i | 0 <= i < |a.cells|
      ensures CellEvolves(a.cells[i], c.cells[i])
    {
      assert CellEvolves(a.cells[i], b.cells[i]) && CellEvolves(b.cells[i], c.cells[i]);
    }
  }

  /** What `resolve` (st = Resolved) or `reject` (st = Rejected) writes into a cell. */
  function Store(c: Cell, st: State, v: Value): (r: Cell)
    requires st != Pending
    ensures r.state == st && r.callbacks == c.callbacks
    ensures st == Resolved ==> r.value == v && r.error == c.error
    ensures st == Rejected ==> r.error == v && r.value == c.value
  {
    if st.Resolved? then c.(state := Resolved, value := v) else c.(state := Rejected, error := v)
  }

  /** `callbacks.push(callback)` on promise `p`. */
  function Push(w: World, p: nat, cb: Reaction): World
    requires p < |w.cells|
  {
    w.(cells := w.cells[p := w.cells[p].(callbacks := w.cells[p].callbacks + [cb])])
  }

  /**
   * `transition(callback)` run by promise `p` (promise.js lines 18-40). Pending: queue the
   * reaction. Settled: call the matching handler (a throw from `onFulfilled` is handed to the
   * same reaction's `onRejected`; a throw from `onRejected` escapes), then pass the result on
   * with `Forward`.
   */
  function Transition(w: World, p: nat, cb: Reaction, fuel: nat): (s: Step)
    requires WF(w) && p < |w.cells| && ReactionIn(cb, |w.cells|)
    ensures WF(s.world) && Evolves(w, s.world)
    ensures s.c.Normal? ==> s.c == Done
    decreases fuel, 0, 0
  {
    if fuel == 0 then Step(w, Exhausted)
    else
      var cell := w.cells[p];
      match cell.state
      case Pending =>
        Step(Push(w, p, cb), Done)
      case Resolved =>
        var s1 := Invoke(w, cb.onFulfilled, cell.value, fuel - 1);
        if s1.c.Threw? then
          var s2 := Invoke(s1.world, cb.onRejected, s1.c.e, fuel - 1);
          EvolvesTrans(w, s1.world, s2.world);
          var r := Forward(s2.world, s2.c, p, cb, fuel - 1);
          EvolvesTrans(w, s2.world, r.world);
          r
        else
          var r := Forward(s1.world, s1.c, p, cb, fuel - 1);
          EvolvesTrans(w, s1.world, r.world);
          r
      case Rejected =>
        var s1 := Invoke(w, cb.onRejected, cell.error, fuel - 1);
        var r := Forward(s1.world, s1.c, p, cb, fuel - 1);
        EvolvesTrans(w, s1.world, r.world);
        r
  }

  /**
   * The tail of `transition` (lines 35-39): a promise result is chained with
   * `result.then(callback.resolve, callback.reject)`; a plain result settles the downstream,
   * resolved if `p` is (now) resolved and rejected otherwise. Throws pass through.
   */
  function Forward(w: World, result: Completion, p: nat, cb: Reaction, fuel: nat): (s: Step)
    requires WF(w) && p < |w.cells| && ReactionIn(cb, |w.cells|) && CompletionIn(result, |w.cells|)
    ensures WF(s.world) && Evolves(w, s.world)
    ensures s.c.Normal? ==> s.c == Done
    decreases fuel, 3, 0
  {
    match result
    case Threw(_) => Step(w, result)
    case Exhausted => Step(w, result)
    case Normal(Plain(v)) =>
      var st := if w.cells[p].state == Resolved then Resolved else Rejected;
      Settle(w, cb.downstream, st, v, fuel)
    case Normal(APromise(q)) =>
      var t := Then(w, q, Some(ResolveOf(cb.downstream)), Some(RejectOf(cb.downstream)), fuel);
      if t.c.Normal? then Step(t.world, Done) else t
  }

  /**
   * `p.then(onFulfilled, onRejected)` (lines 7-16): construct a new promise `d`, whose
   * executor runs `transition` of `p` on the reaction that feeds `d`. A throw out of that
   * transition escapes the constructor, and so escapes `then`.
   */
  function Then(w: World, p: nat, onFulfilled: Option<Handler>, onRejected: Option<Handler>, fuel: nat): (s: Step)
    requires WF(w) && p < |w.cells|
    requires OptHandlerIn(onFulfilled, |w.cells|) && OptHandlerIn(onRejected, |w.cells|)
    ensures WF(s.world) && Evolves(w, s.world) && |w.cells| < |s.world.cells|
    ensures s.c.Normal? ==> s.c == Normal(APromise(|w.cells|))
    decreases fuel, 1, 0
  {
    var d := |w.cells|;
    var w1 := w.(cells := w.cells + [Unsettled]);
    assert Evolves(w, w1);
    var s := Transition(w1, p, Reaction(onFulfilled, onRejected, d), fuel);
    EvolvesTrans(w, w1, s.world);
    if s.c.Normal? then Step(s.world, Normal(APromise(d))) else s
  }

  /**
   * `resolve(v)` (st = Resolved, lines 42-46) or `reject(v)` (st = Rejected, lines 48-52) of
   * promise `p`: overwrite the state and the stored value, whatever the state was, then
   * `execute()` the queue.
   */
  function Settle(w: World, p: nat, st: State, v: Value, fuel: nat): (s: Step)
    requires WF(w) && p < |w.cells| && st != Pending
    ensures WF(s.world) && Evolves(w, s.world)
    ensures s.c.Normal? ==> s.c == Done
    decreases fuel, 2, 0
  {
    var w1 := w.(cells := w.cells[p := Store(w.cells[p], st, v)]);
    assert Evolves(w, w1);
    var s := ExecuteFrom(w1, p, 0, |w1.cells[p].callbacks|, fuel);
    EvolvesTrans(w, w1, s.world);
    s
  }

  /**
   * `execute()` (lines 54-56) from index `k` on: `callbacks.map(transition)` visits the
   * indices below the length `len` the array had when `map` started, reads each element
   * when it reaches it, skips an index that is no longer present, and stops at the first throw.
   */
  function ExecuteFrom(w: World, p: nat, k: nat, len: nat, fuel: nat): (s: Step)
    requires WF(w) && p < |w.cells|
    ensures WF(s.world) && Evolves(w, s.world)
    ensures s.c.Normal? ==> s.c == Done
    decreases fuel, 1, len - k
  {
    if k >= len then Step(w, Done)
    else if k < |w.cells[p].callbacks| then
      var s1 := Transition(w, p, w.cells[p].callbacks[k], fuel);
      if s1.c.Normal? then
        var r := ExecuteFrom(s1.world, p, k + 1, len, fuel);
        EvolvesTrans(w, s1.world, r.world);
        r
      else s1
    else ExecuteFrom(w, p, k + 1, len, fuel)
  }

  /**
   * Calling an optional handler with `arg`. An absent handler leaves `result` as
   * `undefined`. A user function is logged, then returns or throws what its body says. A
   * `resolve`/`reject` closure settles its promise and returns `undefined`.
   */
  function Invoke(w: World, h: Option<Handler>, arg: Value, fuel: nat): (s: Step)
    requires WF(w) && OptHandlerIn(h, |w.cells|)
    ensures WF(s.world) && Evolves(w, s.world) && CompletionIn(s.c, |s.world.cells|)
    decreases fuel, 3, 0
  {
    match h
    case None => Step(w, Done)
    case Some(Fn(name, body)) =>
      var w1 := w.(log := w.log + [Invoked(name, arg)]);
      assert Evolves(w, w1);
      Step(w1, match body(arg)
               case Returns(v) => Normal(Plain(v))
               case Throws(e) => Threw(e))
    case Some(Chain(name, q)) =>
      var w1 := w.(log := w.log + [Invoked(name, arg)]);
      assert Evolves(w, w1);
      Step(w1, Normal(APromise(q)))
    case Some(ResolveOf(q)) => Settle(w, q, Resolved, arg, fuel)
    case Some(RejectOf(q)) => Settle(w, q, Rejected, arg, fuel)
  }
}
