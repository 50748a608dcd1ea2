/** The state machine of `SelfPromise` (promise.ts) as values: the five
    instance fields as one record, each of `resolve`, `reject` and `then`
    as a step on that record, and a run of several calls in order.
    User callbacks are opaque: a callback is known by an identifier, and
    calling it is recorded as an `Invocation` carrying its argument. */
module PromiseModel {

  datatype Option<+T> = None | Some(value: T)

  /** `enum State`: PENDING, FULFILLED, REJECTED. */
  datatype Status = Pending | Fulfilled | Rejected

  /** An opaque user function; `None` in a slot or an argument stands for
      `null` / `undefined`. */
  type CallbackId = nat

  /** One call of a user callback, with the argument it received. */
  datatype Invocation<V, R> =
    | FulfilledWith(callback: CallbackId, value: V)
    | RejectedWith(callback: CallbackId, reason: R)

  /** The fields `status`, `value`, `reason`, `onFulfilledCallback` and
      `onRejectedCallback`; `value` and `reason` start as `null` (None). */
  datatype PState<V, R> = PState(
    status: Status,
    value: Option<V>,
    reason: Option<R>,
    onFulfilled: Option<CallbackId>,
    onRejected: Option<CallbackId>)

  /** A call on the public surface: `resolve(v)`, `reject(r)` or `then(f, g)`. */
  datatype Op<V, R> =
    | Resolve(v: V)
    | Reject(r: R)
    | Then(onFulfilled: Option<CallbackId>, onRejected: Option<CallbackId>)

  /** The state after a call, and the callbacks the call invoked, in order. */
  datatype Step<V, R> = Step(next: PState<V, R>, fired: seq<Invocation<V, R>>)

  /** The state a freshly constructed promise has before its executor runs. */
  function Initial<V, R>(): PState<V, R> {
    PState(Pending, None, None, None, None)
  }

  predicate Settled<V, R>(s: PState<V, R>) {
    s.status != Pending
  }

  /** `value` is set exactly when fulfilled and `reason` exactly when rejected. */
  predicate WellFormed<V, R>(s: PState<V, R>) {
    match s.status
    case Pending => s.value.None? && s.reason.None?
    case Fulfilled => s.value.Some? && s.reason.None?
    case Rejected => s.reason.Some? && s.value.None?
  }

  /** The calls an executor can make: it only receives `resolve` and `reject`. */
  predicate IsSettlement<V, R>(op: Op<V, R>) {
    op.Resolve? || op.Reject?
  }

  /** An invocation agrees with a state when its argument is the data the
      state has settled with, on the matching side. */
  ghost predicate Agrees<V, R>(s: PState<V, R>, inv: Invocation<V, R>) {
    match inv
    case FulfilledWith(_, v) => s.status == Fulfilled && s.value == Some(v)
    case RejectedWith(_, r) => s.status == Rejected && s.reason == Some(r)
  }

  /** `then(f, g)` on a settled promise calls a handler that is missing:
      the call raises a TypeError before it has any effect. */
  predicate Throws<V, R>(s: PState<V, R>, op: Op<V, R>) {
    op.Then? &&
    ((s.status == Fulfilled && op.onFulfilled.None?) ||
     (s.status == Rejected && op.onRejected.None?))
  }

  /** One call of `resolve`, `reject` or `then` (promise.ts:25-53). */
  function Apply<V, R>(s: PState<V, R>, op: Op<V, R>): (st: Step<V, R>)
    requires WellFormed(s)
    ensures WellFormed(st.next)
    ensures Settled(s) ==> st.next == s
    ensures op.Then? ==>
      st.next.status == s.status && st.next.value == s.value && st.next.reason == s.reason
    ensures IsSettlement(op) ==>
      st.next.onFulfilled == s.onFulfilled && st.next.onRejected == s.onRejected
    ensures Throws(s, op) ==> st == Step(s, [])
    ensures |st.fired| <= 1
    ensures forall i | 0 <= i < |st.fired| :: Agrees(st.next, st.fired[i])
  {
    match op
    case Resolve(v) =>
      if s.status == Pending then
        Step(s.(status := Fulfilled, value := Some(v)),
             if s.onFulfilled.Some? then [FulfilledWith(s.onFulfilled.value, v)] else [])
      else
        Step(s, [])
    case Reject(r) =>
      if s.status == Pending then
        Step(s.(status := Rejected, reason := Some(r)),
             if s.onRejected.Some? then [RejectedWith(s.onRejected.value, r)] else [])
      else
        Step(s, [])
    case Then(f, g) =>
      match s.status
      case Fulfilled =>
        Step(s, if f.Some? then [FulfilledWith(f.value, s.value.value)] else [])
      case Rejected =>
        Step(s, if g.Some? then [RejectedWith(g.value, s.reason.value)] else [])
      case Pending =>
        Step(s.(onFulfilled := f, onRejected := g), [])
  }

  /** The calls `ops`, one after the other, from `s`; the log concatenates
      the callbacks each call invoked. */
  function Run<V, R>(s: PState<V, R>, ops: seq<Op<V, R>>): (st: Step<V, R>)
    requires WellFormed(s)
    ensures WellFormed(st.next)
    ensures Settled(s) ==>
      st.next.status == s.status && st.next.value == s.value && st.next.reason == s.reason
    decreases |ops|
  {
    if ops == [] then
      Step(s, [])
    else
      var first := Apply(s, ops[0]);
      var rest := Run(first.next, ops[1..]);
      Step(rest.next, first.fired + rest.fired)
  }

  /** Running `a` then `b` is running `a + b`. */
  lemma {:induction false} RunConcat<V, R>(s: PState<V, R>, a: seq<Op<V, R>>, b: seq<Op<V, R>>)
    requires WellFormed(s)
    ensures Run(s, a + b).next == Run(Run(s, a).next, b).next
    ensures Run(s, a + b).fired == Run(s, a).fired + Run(Run(s, a).next, b).fired
    decreases |a|
  {
    if a == [] {
      assert a + b == b;
    } else {
      var first := Apply(s, a[0]);
      assert (a + b)[0] == a[0];
      assert (a + b)[1..] == a[1..] + b;
      RunConcat(first.next, a[1..], b);
    }
  }

  /** Once settled, no sequence of `resolve` / `reject` calls changes any
      field or invokes any callback. */
  lemma {:induction false} SettledIgnoresSettlements<V, R>(s: PState<V, R>, ops: seq<Op<V, R>>)
    requires WellFormed(s) && Settled(s)
    requires forall i | 0 <= i < |ops| :: IsSettlement(ops[i])
    ensures Run(s, ops) == Step(s, [])
    decreases |ops|
  {
    if ops != [] {
      SettledIgnoresSettlements(s, ops[1..]);
    }
  }

  /** First write wins: from a pending promise, a sequence of `resolve` /
      `reject` calls leaves exactly the state and the invocations of its
      first call. */
  lemma {:induction false} FirstWriteWins<V, R>(s: PState<V, R>, ops: seq<Op<V, R>>)
    requires WellFormed(s) && s.status == Pending
    requires |ops| > 0 && forall i | 0 <= i < |ops| :: IsSettlement(ops[i])
    ensures Run(s, ops) == Apply(s, ops[0])
    ensures ops[0].Resolve? ==>
      Run(s, ops).next == s.(status := Fulfilled, value := Some(ops[0].v))
    ensures ops[0].Reject? ==>
      Run(s, ops).next == s.(status := Rejected, reason := Some(ops[0].r))
  {
    var first := Apply(s, ops[0]);
    SettledIgnoresSettlements(first.next, ops[1..]);
    assert first.fired + [] == first.fired;
  }

  /** Status is monotone along any run: a run that ends pending passed
      through pending states only, a settled promise keeps its status and
      data, and neither FULFILLED nor REJECTED ever replaces the other. */
  lemma {:induction false} StatusMonotone<V, R>(s: PState<V, R>, ops: seq<Op<V, R>>, k: nat)
    requires WellFormed(s)
    requires k <= |ops|
    ensures Run(s, ops).next.status == Pending ==> Run(s, ops[..k]).next.status == Pending
    ensures Settled(Run(s, ops[..k]).next) ==>
      Run(s, ops).next.status == Run(s, ops[..k]).next.status &&
      Run(s, ops).next.value == Run(s, ops[..k]).next.value &&
      Run(s, ops).next.reason == Run(s, ops[..k]).next.reason
  {
    assert ops == ops[..k] + ops[k..];
    RunConcat(s, ops[..k], ops[k..]);
  }

  /** Every callback invoked during a run receives the data the promise has
      settled with at the end of the run, on the matching side; so a run
      never invokes both a fulfilled and a rejected callback. */
  lemma {:induction false} CallbacksSeeSettledData<V, R>(s: PState<V, R>, ops: seq<Op<V, R>>)
    requires WellFormed(s)
    ensures forall i | 0 <= i < |Run(s, ops).fired| :: Agrees(Run(s, ops).next, Run(s, ops).fired[i])
    decreases |ops|
  {
    if ops != [] {
      var first := Apply(s, ops[0]);
      var rest := Run(first.next, ops[1..]);
      CallbacksSeeSettledData(first.next, ops[1..]);
      forall i | 0 <= i < |first.fired|
        ensures Agrees(rest.next, first.fired[i])
      {
        assert Agrees(first.next, first.fired[i]);
      }
      assert Run(s, ops).fired == first.fired + rest.fired;
    }
  }

  /** On a pending promise, a sequence of `then` calls invokes nothing,
      keeps status, value and reason, and leaves only the last pair of
      handlers in the two slots. */
  lemma {:induction false} PendingThenKeepsLast<V, R>(s: PState<V, R>, ops: seq<Op<V, R>>)
    requires WellFormed(s) && s.status == Pending
    requires |ops| > 0 && forall i | 0 <= i < |ops| :: ops[i].Then?
    ensures Run(s, ops) ==
      Step(s.(onFulfilled := ops[|ops| - 1].onFulfilled, onRejected := ops[|ops| - 1].onRejected), [])
    decreases |ops|
  {
    var first := Apply(s, ops[0]);
    if |ops| > 1 {
      PendingThenKeepsLast(first.next, ops[1..]);
      assert ops[1..][|ops[1..]| - 1] == ops[|ops| - 1];
    }
  }

  /** Several `then` calls on a pending promise followed by the settling
      call: only the last registered handler of the matching side is
      invoked, once, with the settled data, and it is not invoked when that
      last registration left its slot empty. */
  lemma {:induction false} LastRegistrationFires<V, R>(
    s: PState<V, R>, thens: seq<Op<V, R>>, settle: Op<V, R>)
    requires WellFormed(s) && s.status == Pending
    requires |thens| > 0 && forall i | 0 <= i < |thens| :: thens[i].Then?
    requires IsSettlement(settle)
    ensures var last := thens[|thens| - 1];
      Run(s, thens + [settle]).fired ==
        match settle
        case Resolve(v) =>
          if last.onFulfilled.Some? then [FulfilledWith(last.onFulfilled.value, v)] else []
        case Reject(r) =>
          if last.onRejected.Some? then [RejectedWith(last.onRejected.value, r)] else []
        case Then(_, _) => []
    ensures settle.Resolve? ==> Run(s, thens + [settle]).next.status == Fulfilled
    ensures settle.Reject? ==> Run(s, thens + [settle]).next.status == Rejected
  {
    PendingThenKeepsLast(s, thens);
    RunConcat(s, thens, [settle]);
    var mid := Run(s, thens).next;
    assert Run(mid, [settle]) == Apply(mid, settle) by {
      assert [settle][1..] == [];
      assert Apply(mid, settle).fired + [] == Apply(mid, settle).fired;
    }
  }
}
