/**
 * `useMachine` of src/useMachine.ts: how the machine's initial context and
 * the interpreter options are put together, and the bookkeeping `waitFor`
 * does on its set of matcher subscriptions. Its `useConfig` is the one of
 * src/xstate_helpers.ts, modelled as `XstateHelpers.MachineOptions.UseConfig`.
 */
module UseMachine {
  import opened Common

  /** One context field's value. */
  datatype Value = Value(tag: nat)

  /** The interpreter options a caller may pass; `None` means the key is absent. */
  datatype InterpreterOptions = InterpreterOptions(deferEvents: Option<bool>, devTools: Option<bool>)

  /** What `useMachine` hands to `withConfig` and `interpret`. */
  datatype Setup = Setup(context: map<string, Value>, deferEvents: bool, devTools: Option<bool>)

  /**
   * `{...machine.context, ...context}` and `{deferEvents: true, ...interpreterOptions}`:
   * supplied context fields override the machine's one by one, and
   * `deferEvents` is on unless the caller says otherwise.
   */
  function MakeSetup(machineContext: map<string, Value>, context: Option<map<string, Value>>, options: InterpreterOptions): (r: Setup)
    ensures context.None? ==> r.context == machineContext
    ensures context.Some? ==> r.context.Keys == machineContext.Keys + context.value.Keys
    ensures context.Some? ==> forall k :: k in context.value ==> r.context[k] == context.value[k]
    ensures forall k :: k in machineContext && (context.None? || k !in context.value) ==> k in r.context && r.context[k] == machineContext[k]
    ensures options.deferEvents.None? ==> r.deferEvents
    ensures options.deferEvents.Some? ==> r.deferEvents == options.deferEvents.value
    ensures r.devTools == options.devTools
  {
    var merged := if context.Some? then machineContext + context.value else machineContext;
    var defer := if options.deferEvents.Some? then options.deferEvents.value else true;
    Setup(merged, defer, options.devTools)
  }

  /** Without a context or options from the caller, the machine starts as defined, with deferred events. */
  lemma DefaultSetup(machineContext: map<string, Value>)
    ensures MakeSetup(machineContext, None, InterpreterOptions(None, None)) == Setup(machineContext, true, None)
    ensures MakeSetup(machineContext, Some(map[]), InterpreterOptions(None, None)) == Setup(machineContext, true, None)
  {
    assert machineContext + map[] == machineContext;
  }

  /** A subscription to the service, by identity. */
  type Subscription = nat

  /**
   * The subscriptions `waitFor` has made: which are still subscribed to the
   * service, which are tracked in `matchSubs`, and each one's `multipleMatchers` option.
   */
  class Waiters {
    var subscribed: set<Subscription>
    var matchSubs: set<Subscription>
    var multiple: map<Subscription, bool>
    var resolved: set<Subscription>
    var next: Subscription

    /** Every tracked subscription is still subscribed and was made by `waitFor`. */
    predicate Valid()
      reads this
    {
      && matchSubs <= subscribed
      && (forall s :: s in subscribed ==> s < next && s in multiple)
      && (forall s :: s in resolved ==> s < next)
    }

    constructor ()
      ensures Valid()
      ensures subscribed == {} && matchSubs == {} && resolved == {} && multiple == map[]
    {
      subscribed, matchSubs, multiple, resolved, next := {}, {}, map[], {}, 0;
    }

    /** `waitFor`: subscribe to the service and add the subscription to `matchSubs`. */
    method WaitFor(multipleMatchers: bool) returns (sub: Subscription)
      requires Valid()
      modifies this
      ensures Valid()
      ensures sub !in old(subscribed) && sub !in old(resolved)
      ensures subscribed == old(subscribed) + {sub}
      ensures matchSubs == old(matchSubs) + {sub}
      ensures multiple == old(multiple)[sub := multipleMatchers]
      ensures resolved == old(resolved)
    {
      sub := next;
      next := next + 1;
      subscribed := subscribed + {sub};
      matchSubs := matchSubs + {sub};
      multiple := multiple[sub := multipleMatchers];
    }

    /**
     * The `next` listener of subscription `sub` on a new state, where
     * `matches` is the matcher's verdict. A state that does not match changes
     * nothing. With `multipleMatchers` only this subscription is dropped;
     * otherwise every tracked subscription is unsubscribed and the set emptied.
     */
    method OnState(sub: Subscription, matches: bool)
      requires Valid() && sub in subscribed
      modifies this
      ensures Valid()
      ensures !matches ==> subscribed == old(subscribed) && matchSubs == old(matchSubs) && resolved == old(resolved)
      ensures matches ==> resolved == old(resolved) + {sub}
      ensures matches && old(multiple)[sub] ==> subscribed == old(subscribed) - {sub} && matchSubs == old(matchSubs) - {sub}
      ensures matches && !old(multiple)[sub] ==> subscribed == old(subscribed) - old(matchSubs) && matchSubs == {}
      ensures multiple == old(multiple) && next == old(next)
    {
      if !matches {
        return;
      }
      if multiple[sub] {
        subscribed := subscribed - {sub};
        matchSubs := matchSubs - {sub};
      } else {
        var pending := matchSubs;
        while pending != {}
          invariant pending <= matchSubs
          invariant subscribed == old(subscribed) - (matchSubs - pending)
          invariant multiple == old(multiple) && next == old(next) && matchSubs == old(matchSubs)
          invariant resolved == old(resolved)
          decreases pending
        {
          var s :| s in pending;
          subscribed := subscribed - {s};
          pending := pending - {s};
        }
        matchSubs := {};
      }
      resolved := resolved + {sub};
    }
  }

  /**
   * A matching waiter without `multipleMatchers` ends every wait made before
   * it: the earlier subscription is dropped although its promise never resolves.
   */
  method FirstMatchEndsAll(w: Waiters, others: bool) returns (a: Subscription, b: Subscription)
    requires w.Valid() && w.matchSubs == {}
    modifies w
    ensures w.Valid()
    ensures a != b
    ensures a !in w.subscribed && b !in w.subscribed && w.matchSubs == {}
    ensures b in w.resolved && a !in w.resolved
  {
    a := w.WaitFor(others);
    b := w.WaitFor(false);
    w.OnState(b, true);
    assert a in old(w.subscribed) + {a};
  }
}
