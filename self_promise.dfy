/** `class SelfPromise` of promise.ts: five mutable fields and the three
    arrow-function members `resolve`, `reject` and `then`, each proved
    against the step `PromiseModel.Apply`. The callbacks a call invokes
    are appended to the ghost `log`. */
module Promise {
  import opened PromiseModel

  class SelfPromise<V, R> {
    var status: Status
    var value: Option<V>
    var reason: Option<R>
    var onFulfilledCallback: Option<CallbackId>
    var onRejectedCallback: Option<CallbackId>
    /** Every callback invocation so far, in order, with its argument. */
    ghost var log: seq<Invocation<V, R>>

    /** The fields as a value of the model. */
    function Fields(): PState<V, R>
      reads this
    {
      PState(status, value, reason, onFulfilledCallback, onRejectedCallback)
    }

    ghost predicate Valid()
      reads this
    {
      WellFormed(Fields())
    }

    /** Field initialisers, then `executor(this.resolve, this.reject)`. The
        executor is given as the script of the calls it makes synchronously,
        in order, before the constructor returns; calls it makes later through
        the captured `resolve` / `reject` are later calls of `Resolve` and
        `Reject`. */
    constructor (executor: seq<Op<V, R>>)
      requires forall i | 0 <= i < |executor| :: IsSettlement(executor[i])
      ensures Valid()
      ensures executor == [] ==> Fields() == Initial() && log == []
      ensures executor != [] ==>
        Fields() == Apply(Initial(), executor[0]).next && log == Apply(Initial(), executor[0]).fired
    {
      onFulfilledCallback := None;
      onRejectedCallback := None;
      status := Pending;
      value := None;
      reason := None;
      log := [];
      new;
      var i := 0;
      while i < |executor|
        invariant 0 <= i <= |executor|
        invariant Valid()
        invariant Fields() == Run(Initial(), executor[..i]).next
        invariant log == Run(Initial(), executor[..i]).fired
      {
        RunConcat(Initial(), executor[..i], [executor[i]]);
        assert executor[..i + 1] == executor[..i] + [executor[i]];
        assert [executor[i]][1..] == [];
        ghost var st := Apply(Fields(), executor[i]);
        assert st.fired + [] == st.fired;
        match executor[i] {
          case Resolve(v) => Resolve(v);
          case Reject(r) => Reject(r);
        }
        i := i + 1;
      }
      assert executor[..i] == executor;
      if executor != [] {
        FirstWriteWins(Initial<V, R>(), executor);
      }
    }

    /** `resolve(value)` (promise.ts:25-33): only a pending promise becomes
        FULFILLED with `value`, and then its stored fulfilled callback, if
        any, is invoked with `value`. */
    method Resolve(v: V)
      requires Valid()
      modifies this
      ensures Valid()
      ensures Fields() == Apply(old(Fields()), Op.Resolve(v)).next
      ensures log == old(log) + Apply(old(Fields()), Op.Resolve(v)).fired
      ensures old(status) == Pending ==>
        status == Fulfilled && value == Some(v) && reason == old(reason) &&
        log == old(log) + (if old(onFulfilledCallback).Some?
                           then [FulfilledWith(old(onFulfilledCallback).value, v)] else [])
      ensures old(status) != Pending ==> Fields() == old(Fields()) && log == old(log)
    {
      if status == Pending {
        status := Fulfilled;
        value := Some(v);
        if onFulfilledCallback.Some? {
          log := log + [FulfilledWith(onFulfilledCallback.value, v)];
        }
      }
    }

    /** `reject(reason)` (promise.ts:34-42): the mirror image of `Resolve`. */
    method Reject(r: R)
      requires Valid()
      modifies this
      ensures Valid()
      ensures Fields() == Apply(old(Fields()), Op.Reject(r)).next
      ensures log == old(log) + Apply(old(Fields()), Op.Reject(r)).fired
      ensures old(status) == Pending ==>
        status == Rejected && reason == Some(r) && value == old(value) &&
        log == old(log) + (if old(onRejectedCallback).Some?
                           then [RejectedWith(old(onRejectedCallback).value, r)] else [])
      ensures old(status) != Pending ==> Fields() == old(Fields()) && log == old(log)
    {
      if status == Pending {
        status := Rejected;
        reason := Some(r);
        if onRejectedCallback.Some? {
          log := log + [RejectedWith(onRejectedCallback.value, r)];
        }
      }
    }

    /** `then(onFulfilled, onRejected)` (promise.ts:43-53). Settled: the
        matching handler is called at once with the stored data; `threw`
        says the handler was missing, so that calling it raised a TypeError.
        Pending: both slots are overwritten. Returns no promise. */
    method Then(onFulfilled: Option<CallbackId>, onRejected: Option<CallbackId>)
      returns (threw: bool)
      requires Valid()
      modifies this
      ensures Valid()
      ensures threw == Throws(old(Fields()), Op.Then(onFulfilled, onRejected))
      ensures Fields() == Apply(old(Fields()), Op.Then(onFulfilled, onRejected)).next
      ensures log == old(log) + Apply(old(Fields()), Op.Then(onFulfilled, onRejected)).fired
      ensures status == old(status) && value == old(value) && reason == old(reason)
      ensures old(status) == Fulfilled ==>
        onFulfilledCallback == old(onFulfilledCallback) &&
        onRejectedCallback == old(onRejectedCallback) &&
        log == old(log) + (if onFulfilled.Some?
                           then [FulfilledWith(onFulfilled.value, value.value)] else [])
      ensures old(status) == Rejected ==>
        onFulfilledCallback == old(onFulfilledCallback) &&
        onRejectedCallback == old(onRejectedCallback) &&
        log == old(log) + (if onRejected.Some?
                           then [RejectedWith(onRejected.value, reason.value)] else [])
      ensures old(status) == Pending ==>
        onFulfilledCallback == onFulfilled && onRejectedCallback == onRejected && log == old(log)
    {
      threw := false;
      if status == Fulfilled {
        if onFulfilled.Some? {
          log := log + [FulfilledWith(onFulfilled.value, value.value)];
        } else {
          threw := true;
        }
      } else if status == Rejected {
        if onRejected.Some? {
          log := log + [RejectedWith(onRejected.value, reason.value)];
        } else {
          threw := true;
        }
      } else {
        onFulfilledCallback := onFulfilled;
        onRejectedCallback := onRejected;
      }
    }
  }

  /** A usage example of the contracts: only the latest pending
      registration fires, once, a second settlement is ignored, and a
      settled promise calls a `then` handler at once. */
  method Client(v: int, r: int)
  {
    var p := new SelfPromise<int, int>([]);
    var t := p.Then(Some(1), Some(2));
    t := p.Then(Some(3), None);
    p.Resolve(v);
    assert p.log == [FulfilledWith(3, v)];
    p.Reject(r);
    assert p.status == Fulfilled && p.value == Some(v) && p.log == [FulfilledWith(3, v)];
    t := p.Then(Some(4), Some(5));
    assert !t && p.log == [FulfilledWith(3, v), FulfilledWith(4, v)];
    t := p.Then(None, Some(6));
    assert t && p.log == [FulfilledWith(3, v), FulfilledWith(4, v)];

    var q := new SelfPromise<int, int>([Op.Reject(r), Op.Resolve(v)]);
    assert q.status == Rejected && q.reason == Some(r) && q.value == None && q.log == [];
  }
}
