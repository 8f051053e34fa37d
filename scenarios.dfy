/** Concrete stores over an integer counter, exercising construction, middleware that
    drops actions, a command's deferred send, and middleware that reads the state and
    sends through the store's own chain. */
module FlowScenarios {
  import opened Flow

  datatype Action = Init | Increment | Blocked | Start | Finished

  /** The counter reducer. `Start` returns a command that sends `Finished`. */
  function Counter(): Reducer<int, Action>
  {
    (s: int, a: Action) =>
      match a
      case Init => Reduction(s, Some([]))
      case Increment => Reduction(s + 1, Some([]))
      case Blocked => Reduction(s + 1, None)
      case Start => Reduction(s, Some([Command([Finished])]))
      case Finished => Reduction(s + 10, None)
  }

  /** Drops every `Blocked` action; forwards everything else. */
  function Guard(): Handler<int, Action>
  {
    (a: Action) => if a == Blocked then Return else Forward(a, Return)
  }

  /** Answers `Start` by sending `Blocked` through its `send` capability instead of `next`. */
  function Redirect(): Handler<int, Action>
  {
    (a: Action) => if a == Start then Dispatch(Blocked, Return) else Forward(a, Return)
  }

  /** Forwards every action; afterwards, if the state it reads is 10, sends one more `Increment`. */
  function Bump(): Handler<int, Action>
  {
    (a: Action) => Forward(a, Inspect((st: Option<int>) => st == Some(10), Dispatch(Increment, Return), Return))
  }

  lemma GuardChain(depth: nat, a: Action, s: Snapshot<int, Action>)
    ensures StoreSendFunction(Interceptors([Guard()]), Counter(), depth)(a, s)
         == if a == Blocked then Outcome(Sent, s) else InternalSend(Counter(), a, s)
  {
    var send := if depth == 0 then ExhaustedSend() else StoreSendFunction(Interceptors([Guard()]), Counter(), depth - 1);
    var chain := Interceptors([Guard()]);
    BuildSendFunctionNests(chain, send, GetState(), CoreSend(Counter()));
    assert chain[1..] == [];
    assert StoreSendFunction(chain, Counter(), depth)(a, s)
        == Perform(Guard()(a), send, GetState(), CoreSend(Counter()), s);
    if a != Blocked {
      var o := InternalSend(Counter(), a, s);
      assert Guard()(a) == Forward(a, Return);
      assert o == Outcome(o.status, o.after);
    }
  }

  /** Three increments after construction leave the counter at 3. */
  method CounterScenario() returns (count: int)
    ensures count == 3
  {
    var store := new Store(0, Init, Counter(), [], 0);
    var status := store.Send(Increment);
    status := store.Send(Increment);
    status := store.Send(Increment);
    count := store.state;
  }

  /** A dropped `Blocked` leaves the state alone, even though the reducer would count it;
      an `Increment` still reaches the reducer. */
  method ShortCircuitScenario() returns (initial: int, afterBlocked: int, afterIncrement: int)
    ensures initial == 5 && afterBlocked == 5 && afterIncrement == 6
  {
    GuardChain(1, Init, Snapshot(5, false, []));
    var store := new Store(5, Init, Counter(), [Guard()], 1);
    initial := store.state;
    GuardChain(1, Blocked, store.Snap());
    var status := store.Send(Blocked);
    afterBlocked := store.state;
    GuardChain(1, Increment, store.Snap());
    status := store.Send(Increment);
    afterIncrement := store.state;
  }

  /** `Start` reduces without changing the state and queues `Finished`; one turn of the
      main queue reduces `Finished` exactly once and empties the queue. */
  method CommandRoundTripScenario() returns (afterStart: int, queued: seq<Action>, afterTurn: int, left: seq<Action>)
    ensures afterStart == 0 && queued == [Finished]
    ensures afterTurn == 10 && left == []
  {
    var store := new Store(0, Init, Counter(), [], 0);
    var _ := store.Send(Start);
    afterStart, queued := store.state, store.queue;
    NoMiddlewareSend(Counter(), 0, Finished, store.Snap().(pending := []));
    var ran, _ := store.RunNext();
    afterTurn, left := store.state, store.queue;
  }

  /** The capability given to the second middleware enters the chain at the first one:
      the `Blocked` it sends is dropped by `Guard`, so nothing changes. Had it been handed
      the chain inside it, the reducer would have counted `Blocked`. */
  lemma CapabilityEntersAtOutermost(s: Snapshot<int, Action>)
    requires !s.isSending
    ensures StoreSendFunction(Interceptors([Guard(), Redirect()]), Counter(), 1)(Start, s) == Outcome(Sent, s)
    ensures Perform(Redirect()(Start), CoreSend(Counter()), GetState(), CoreSend(Counter()), s).after.state == s.state + 1
  {
    var hs := [Guard(), Redirect()];
    var chain := Interceptors(hs);
    var send := StoreSendFunction(chain, Counter(), 0);
    CapabilityIsStoreSend(chain, Counter(), 0);
    DroppedActionChangesNothing(hs, Counter(), 0, Blocked, s);
    assert chain[1..][1..] == [];
    var redirected := Nest(chain[1..], send, GetState(), CoreSend(Counter()));
    assert redirected == Intercept(Redirect())(send, GetState())(Nest(chain[1..][1..], send, GetState(), CoreSend(Counter())));
    assert Nest(chain[1..][1..], send, GetState(), CoreSend(Counter())) == CoreSend(Counter());
    assert Redirect()(Start) == Dispatch(Blocked, Return);
    assert redirected(Start, s) == Perform(Dispatch(Blocked, Return), send, GetState(), CoreSend(Counter()), s);
    assert send(Blocked, s) == Outcome(Sent, s);
    assert Perform(Return, send, GetState(), CoreSend(Counter()), s) == Outcome(Sent, s);
    assert redirected(Start, s) == Outcome(Sent, s);
    assert Nest(chain, send, GetState(), CoreSend(Counter()))(Start, s)
        == Perform(Forward(Start, Return), send, GetState(), redirected, s);
  }

  /** `getState` is read after `next` returns: from 9 the forwarded `Increment` makes 10,
      `Bump` sees 10 and sends another `Increment` through the store's chain, giving 11. */
  lemma StateReadAtCallTime(s: Snapshot<int, Action>)
    requires !s.isSending && s.state == 9
    ensures StoreSendFunction(Interceptors([Bump()]), Counter(), 1)(Increment, s)
         == Outcome(Sent, s.(state := 11))
  {
    var chain := Interceptors([Bump()]);
    var core := CoreSend(Counter());
    var send := StoreSendFunction(chain, Counter(), 0);
    CapabilityIsStoreSend(chain, Counter(), 0);
    BuildSendFunctionNests(chain, ExhaustedSend(), GetState(), core);
    assert chain[1..] == [];
    var check := Inspect((st: Option<int>) => st == Some(10), Dispatch(Increment, Return), Return);
    assert Bump()(Increment) == Forward(Increment, check);
    var ten, eleven := s.(state := 10), s.(state := 11);
    assert core(Increment, s) == Outcome(Sent, ten);
    assert core(Increment, ten) == Outcome(Sent, eleven);
    // The nested send: forwarded to the reducer, then the state read is 11, so it stops.
    assert Perform(check, ExhaustedSend(), GetState(), core, eleven) == Outcome(Sent, eleven);
    assert send(Increment, ten) == Perform(Forward(Increment, check), ExhaustedSend(), GetState(), core, ten);
    assert send(Increment, ten) == Outcome(Sent, eleven);
    // The outer send: the state read after `next` is 10, so it sends again.
    assert Perform(check, send, GetState(), core, ten) == Perform(Dispatch(Increment, Return), send, GetState(), core, ten);
    assert StoreSendFunction(chain, Counter(), 1)(Increment, s) == Perform(Forward(Increment, check), send, GetState(), core, s);
  }
}
