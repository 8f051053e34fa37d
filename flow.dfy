/** The dispatch pipeline of a Flow `Store`: a reducer guarded against reentry,
    a chain of middleware composed around it, and a main queue on which commands
    schedule later sends.

    The chain is a value: every send function maps an action and a snapshot of the
    store (its state, its `isSending` flag and the actions waiting on the main queue)
    to the outcome of the call. The `Store` class at the end holds those three fields
    and the composed send function, and writes each outcome back. */
module Flow {
  import opened Seqs

  datatype Option<T> = None | Some(value: T)

  /** A `Command` is code that receives a send capability. Here it is abstracted to the
      actions it passes that capability, in call order. */
  datatype Command<A> = Command(sends: seq<A>)

  /** What one call of the reducer leaves behind: the state it wrote through its inout
      parameter, and the command list it returned, which may be nil. */
  datatype Reduction<S, A> = Reduction(state: S, commands: Option<seq<Command<A>>>)

  type Reducer<!S, !A> = (S, A) -> Reduction<S, A>

  /** The part of a store that a send can change. */
  datatype Snapshot<S, A> = Snapshot(state: S, isSending: bool, pending: seq<A>)

  /** How a send ended. `Reentered` is the `fatalError` of a send that reaches the reducer
      while another reduction is in progress: the process stops there, and `after` is the
      store as it was at that point. `Exhausted` is a synchronous send nested deeper than
      the depth a store is built with (see `StoreSendFunction`). */
  datatype Status = Sent | Reentered | Exhausted

  datatype Outcome<S, A> = Outcome(status: Status, after: Snapshot<S, A>)

  type SendFunction<!S, !A> = (A, Snapshot<S, A>) -> Outcome<S, A>

  /** The `getState` accessor handed to middleware, read at the moment it is called. */
  type StateGetter<!S, !A> = Snapshot<S, A> -> Option<S>

  /** `(send, getState) -> (next) -> send'`, as in the Swift type alias. */
  type Middleware<!S, !A> = (SendFunction<S, A>, StateGetter<S, A>) -> SendFunction<S, A> -> SendFunction<S, A>

  // ---------------------------------------------------------------------------
  // Deferred sends and commands
  // ---------------------------------------------------------------------------

  /** `sendAsync`: schedule `send(action)` on the main queue. Nothing runs now. */
  function ScheduleSend<S, A>(action: A, s: Snapshot<S, A>): Snapshot<S, A>
  {
    s.(pending := s.pending + [action])
  }

  /** All actions a command list passes to its capability, command by command. */
  function Flatten<A>(commands: seq<Command<A>>): seq<A>
  {
    if commands == [] then [] else commands[0].sends + Flatten(commands[1..])
  }

  /** Executing one command with `sendAsync` as its capability: each of its sends is one
      `sendAsync`, in order. Together they append the command's actions to the queue and
      change nothing else. */
  function Execute<S, A>(command: Command<A>, s: Snapshot<S, A>): (r: Snapshot<S, A>)
    ensures r == s.(pending := s.pending + command.sends)
    decreases |command.sends|
  {
    if command.sends == [] then s
    else
      var r := Execute(Command(command.sends[1..]), ScheduleSend(command.sends[0], s));
      assert s.pending + [command.sends[0]] + command.sends[1..] == s.pending + command.sends;
      r
  }

  /** Executing the returned commands one after another: the queue grows by their actions,
      in list order; state and flag are untouched, so no command can start a second
      reduction. */
  function ExecuteAll<S, A>(commands: seq<Command<A>>, s: Snapshot<S, A>): (r: Snapshot<S, A>)
    ensures r == s.(pending := s.pending + Flatten(commands))
  {
    if commands == [] then s
    else
      var t := Execute(commands[0], s);
      var r := ExecuteAll(commands[1..], t);
      assert Flatten(commands) == commands[0].sends + Flatten(commands[1..]);
      assert r.pending == s.pending + Flatten(commands);
      r
  }

  /** A nil command list counts as the empty list. */
  function CommandList<S, A>(r: Reduction<S, A>): seq<Command<A>>
  {
    if r.commands.Some? then r.commands.value else []
  }

  // ---------------------------------------------------------------------------
  // The core reduction step
  // ---------------------------------------------------------------------------

  /** `internalSend`: refuse reentry; otherwise raise the flag, reduce once, lower the flag,
      then run the commands with `sendAsync` as their only capability. */
  function InternalSend<S, A>(reducer: Reducer<S, A>, action: A, s: Snapshot<S, A>): (r: Outcome<S, A>)
    ensures s.isSending ==> r == Outcome(Reentered, s)
    ensures !s.isSending ==>
      var red := reducer(s.state, action);
      && r.status == Sent
      && r.after.state == red.state
      && !r.after.isSending
      && r.after.pending == s.pending + Flatten(CommandList(red))
  {
    if s.isSending then
      Outcome(Reentered, s)
    else
      var reducing := s.(isSending := true);
      var red := reducer(reducing.state, action);
      var commands := CommandList(red);
      var reduced := reducing.(state := red.state, isSending := false);
      Outcome(Sent, ExecuteAll(commands, reduced))
  }

  /** The innermost link of every chain: hand the action to `internalSend`. */
  function CoreSend<S, A>(reducer: Reducer<S, A>): SendFunction<S, A>
  {
    (action: A, s: Snapshot<S, A>) => InternalSend(reducer, action, s)
  }

  /** A nil command list behaves exactly like an empty one: the state is reduced and
      nothing is scheduled. */
  lemma NilCommandsScheduleNothing<S, A>(reducer: Reducer<S, A>, action: A, s: Snapshot<S, A>)
    requires !s.isSending && reducer(s.state, action).commands == None
    ensures InternalSend(reducer, action, s) == Outcome(Sent, s.(state := reducer(s.state, action).state))
  {
  }

  // ---------------------------------------------------------------------------
  // Composing the chain
  // ---------------------------------------------------------------------------

  /** The combining step of `buildSendFunction`: give the next middleware the shared
      capabilities and wrap it around the chain built so far. */
  function Link<S, A>(send: SendFunction<S, A>, getState: StateGetter<S, A>): (SendFunction<S, A>, Middleware<S, A>) -> SendFunction<S, A>
  {
    (next: SendFunction<S, A>, middleware: Middleware<S, A>) => middleware(send, getState)(next)
  }

  /** `buildSendFunction`: fold the reversed middleware list, starting from the innermost
      link, every middleware receiving the same `send` capability and `getState` accessor. */
  function BuildSendFunction<S, A>(middleware: seq<Middleware<S, A>>, send: SendFunction<S, A>,
                                   getState: StateGetter<S, A>, internal: SendFunction<S, A>): SendFunction<S, A>
  {
    FoldLeft(Reversed(middleware), internal, Link(send, getState))
  }

  /** The intended shape of the chain: `mw[0](mw[1](... mw[n](inner)))`. */
  function Nest<S, A>(middleware: seq<Middleware<S, A>>, send: SendFunction<S, A>,
                      getState: StateGetter<S, A>, inner: SendFunction<S, A>): SendFunction<S, A>
  {
    if middleware == [] then inner
    else middleware[0](send, getState)(Nest(middleware[1..], send, getState, inner))
  }

  /** The reversed fold builds exactly the nested chain, with the first middleware outermost. */
  lemma {:induction false} BuildSendFunctionNests<S, A>(middleware: seq<Middleware<S, A>>, send: SendFunction<S, A>,
                                                         getState: StateGetter<S, A>, internal: SendFunction<S, A>)
    ensures BuildSendFunction(middleware, send, getState, internal) == Nest(middleware, send, getState, internal)
  {
    if middleware != [] {
      var link := Link(send, getState);
      calc {
        BuildSendFunction(middleware, send, getState, internal);
        FoldLeft(Reversed(middleware[1..]) + [middleware[0]], internal, link);
        { FoldLeftAppend(Reversed(middleware[1..]), [middleware[0]], internal, link); }
        FoldLeft([middleware[0]], FoldLeft(Reversed(middleware[1..]), internal, link), link);
        link(BuildSendFunction(middleware[1..], send, getState, internal), middleware[0]);
        { BuildSendFunctionNests(middleware[1..], send, getState, internal); }
        middleware[0](send, getState)(Nest(middleware[1..], send, getState, internal));
      }
    }
  }

  /** With no middleware the send function is `internalSend` itself. */
  lemma EmptyChainIsInternalSend<S, A>(send: SendFunction<S, A>, getState: StateGetter<S, A>, internal: SendFunction<S, A>)
    ensures BuildSendFunction([], send, getState, internal) == internal
  {
  }

  /** Any prefix of the middleware list wraps the chain built from the rest: every
      middleware before position `i` sees an action before the ones from `i` on. */
  lemma {:induction false} NestSplit<S, A>(middleware: seq<Middleware<S, A>>, i: nat, send: SendFunction<S, A>,
                                           getState: StateGetter<S, A>, inner: SendFunction<S, A>)
    requires i <= |middleware|
    ensures Nest(middleware, send, getState, inner)
         == Nest(middleware[..i], send, getState, Nest(middleware[i..], send, getState, inner))
  {
    if i == 0 {
      assert middleware[..0] == [] && middleware[0..] == middleware;
    } else {
      NestSplit(middleware[1..], i - 1, send, getState, inner);
      assert middleware[..i][1..] == middleware[1..][..i - 1];
      assert middleware[1..][i - 1..] == middleware[i..];
    }
  }

  // ---------------------------------------------------------------------------
  // What a middleware does
  // ---------------------------------------------------------------------------

  /** What a middleware closure does with one action, as data: call `next`, call the `send`
      capability, or branch on what `getState` returns at that moment. */
  datatype Effect<!S, A> =
    | Return
    | Forward(action: A, andThen: Effect<S, A>)
    | Dispatch(action: A, andThen: Effect<S, A>)
    | Inspect(test: Option<S> -> bool, ifTrue: Effect<S, A>, ifFalse: Effect<S, A>)

  /** A middleware as the store receives it: for each action, what it does. */
  type Handler<!S, !A> = A -> Effect<S, A>

  /** Run an effect against a snapshot; a call that does not end in `Sent` ends the effect. */
  function Perform<S, A>(e: Effect<S, A>, send: SendFunction<S, A>, getState: StateGetter<S, A>,
                         next: SendFunction<S, A>, s: Snapshot<S, A>): Outcome<S, A>
  {
    match e
    case Return => Outcome(Sent, s)
    case Forward(b, andThen) =>
      var o := next(b, s);
      if o.status.Sent? then Perform(andThen, send, getState, next, o.after) else o
    case Dispatch(b, andThen) =>
      var o := send(b, s);
      if o.status.Sent? then Perform(andThen, send, getState, next, o.after) else o
    case Inspect(test, ifTrue, ifFalse) =>
      Perform(if test(getState(s)) then ifTrue else ifFalse, send, getState, next, s)
  }

  /** The middleware closure that a handler describes. */
  function Intercept<S, A>(handler: Handler<S, A>): Middleware<S, A>
  {
    (send: SendFunction<S, A>, getState: StateGetter<S, A>) =>
      (next: SendFunction<S, A>) =>
        (action: A, s: Snapshot<S, A>) => Perform(handler(action), send, getState, next, s)
  }

  /** The middleware list a store builds its chain from, one closure per handler. */
  function Interceptors<S, A>(handlers: seq<Handler<S, A>>): (r: seq<Middleware<S, A>>)
    ensures |r| == |handlers|
    ensures forall i :: 0 <= i < |handlers| ==> r[i] == Intercept(handlers[i])
  {
    if handlers == [] then [] else [Intercept(handlers[0])] + Interceptors(handlers[1..])
  }

  /** Whether an effect can call `next` on some path. */
  predicate Forwards<S, A>(e: Effect<S, A>)
  {
    match e
    case Return => false
    case Forward(_, _) => true
    case Dispatch(_, andThen) => Forwards(andThen)
    case Inspect(_, ifTrue, ifFalse) => Forwards(ifTrue) || Forwards(ifFalse)
  }

  /** An effect that never calls `next` does not depend on what `next` is. */
  lemma {:induction false} NoForwardIgnoresNext<S, A>(e: Effect<S, A>, send: SendFunction<S, A>, getState: StateGetter<S, A>,
                                                      next: SendFunction<S, A>, other: SendFunction<S, A>, s: Snapshot<S, A>)
    requires !Forwards(e)
    ensures Perform(e, send, getState, next, s) == Perform(e, send, getState, other, s)
  {
    match e
    case Return =>
    case Dispatch(b, andThen) =>
      var o := send(b, s);
      if o.status.Sent? {
        NoForwardIgnoresNext(andThen, send, getState, next, other, o.after);
      }
    case Inspect(test, ifTrue, ifFalse) =>
      NoForwardIgnoresNext(if test(getState(s)) then ifTrue else ifFalse, send, getState, next, other, s);
  }

  /** Short-circuit: when the first middleware does not forward an action, the chain's
      answer is the same whatever lies inside it; later middleware and the reducer never
      see the action as `next` (they can still be reached through `send`). */
  lemma ShortCircuit<S, A>(handlers: seq<Handler<S, A>>, send: SendFunction<S, A>, getState: StateGetter<S, A>,
                           inner: SendFunction<S, A>, other: SendFunction<S, A>, action: A, s: Snapshot<S, A>)
    requires |handlers| > 0 && !Forwards(handlers[0](action))
    ensures Nest(Interceptors(handlers), send, getState, inner)(action, s)
         == Intercept(handlers[0])(send, getState)(other)(action, s)
  {
    var rest := Nest(Interceptors(handlers)[1..], send, getState, inner);
    NoForwardIgnoresNext(handlers[0](action), send, getState, rest, other, s);
  }

  /** A middleware that forwards every action unchanged and does nothing else. */
  ghost predicate PassThrough<S(!new), A(!new)>(handler: Handler<S, A>)
  {
    forall a :: handler(a) == Forward(a, Return)
  }

  /** A chain of pass-through middleware answers exactly as its innermost link. */
  lemma {:induction false} PassThroughChain<S(!new), A(!new)>(handlers: seq<Handler<S, A>>, send: SendFunction<S, A>,
                                                   getState: StateGetter<S, A>, inner: SendFunction<S, A>,
                                                   action: A, s: Snapshot<S, A>)
    requires forall i :: 0 <= i < |handlers| ==> PassThrough(handlers[i])
    ensures Nest(Interceptors(handlers), send, getState, inner)(action, s) == inner(action, s)
  {
    if handlers != [] {
      var rest := Nest(Interceptors(handlers[1..]), send, getState, inner);
      assert handlers[0](action) == Forward(action, Return);
      PassThroughChain(handlers[1..], send, getState, inner, action, s);
      assert Nest(Interceptors(handlers), send, getState, inner)(action, s)
          == Perform(Forward(action, Return), send, getState, rest, s);
      var o := rest(action, s);
      assert o == inner(action, s);
      assert o == Outcome(o.status, o.after);
      if o.status.Sent? {
        assert Perform(Return, send, getState, rest, o.after) == Outcome(Sent, o.after);
      }
    }
  }

  // ---------------------------------------------------------------------------
  // The store's send function
  // ---------------------------------------------------------------------------

  /** `getState`: the state of the store at the moment of the call. */
  function GetState<S, A>(): StateGetter<S, A>
  {
    (s: Snapshot<S, A>) => Some(s.state)
  }

  /** The capability of a store built with depth 0: no further synchronous send. */
  function ExhaustedSend<S, A>(): SendFunction<S, A>
  {
    (action: A, s: Snapshot<S, A>) => Outcome(Exhausted, s)
  }

  /** The send function a store builds at construction. The `send` capability every
      middleware receives is the store's own send function, resolved when called; that
      recursion is unfolded `depth` times. */
  function StoreSendFunction<S, A>(middleware: seq<Middleware<S, A>>, reducer: Reducer<S, A>, depth: nat): SendFunction<S, A>
    decreases depth
  {
    var send := if depth == 0 then ExhaustedSend() else StoreSendFunction(middleware, reducer, depth - 1);
    BuildSendFunction(middleware, send, GetState(), CoreSend(reducer))
  }

  /** Late binding: the store's send function is the nested chain whose every link holds
      the store's send function as its capability, never the partial chain inside it. */
  lemma CapabilityIsStoreSend<S, A>(middleware: seq<Middleware<S, A>>, reducer: Reducer<S, A>, depth: nat)
    ensures StoreSendFunction(middleware, reducer, depth + 1)
         == Nest(middleware, StoreSendFunction(middleware, reducer, depth), GetState(), CoreSend(reducer))
  {
    BuildSendFunctionNests(middleware, StoreSendFunction(middleware, reducer, depth), GetState(), CoreSend(reducer));
  }

  /** A store without middleware sends straight to `internalSend`. */
  lemma NoMiddlewareSend<S, A>(reducer: Reducer<S, A>, depth: nat, action: A, s: Snapshot<S, A>)
    ensures StoreSendFunction([], reducer, depth)(action, s) == InternalSend(reducer, action, s)
  {
  }

  /** An action the first middleware drops without doing anything changes nothing:
      not the state, not the flag, not the queue. */
  lemma DroppedActionChangesNothing<S, A>(handlers: seq<Handler<S, A>>, reducer: Reducer<S, A>, depth: nat,
                                          action: A, s: Snapshot<S, A>)
    requires |handlers| > 0 && handlers[0](action) == Return
    ensures StoreSendFunction(Interceptors(handlers), reducer, depth)(action, s) == Outcome(Sent, s)
  {
    var send := if depth == 0 then ExhaustedSend() else StoreSendFunction(Interceptors(handlers), reducer, depth - 1);
    BuildSendFunctionNests(Interceptors(handlers), send, GetState(), CoreSend(reducer));
  }

  // ---------------------------------------------------------------------------
  // No nested reduction
  // ---------------------------------------------------------------------------

  /** A send that starts outside a reduction ends outside one, its reentrancy check never
      fails, and it only ever appends to the queue. */
  ghost predicate Settles<S, A>(s: Snapshot<S, A>, o: Outcome<S, A>)
  {
    && o.status != Reentered
    && !o.after.isSending
    && s.pending <= o.after.pending
  }

  ghost predicate WellBehaved<S(!new), A(!new)>(f: SendFunction<S, A>)
  {
    forall a: A, s: Snapshot<S, A> :: !s.isSending ==> Settles(s, f(a, s))
  }

  lemma CoreSendWellBehaved<S(!new), A(!new)>(reducer: Reducer<S, A>)
    ensures WellBehaved(CoreSend(reducer))
  {
  }

  lemma {:induction false} PerformSettles<S(!new), A(!new)>(e: Effect<S, A>, send: SendFunction<S, A>, getState: StateGetter<S, A>,
                                                next: SendFunction<S, A>, s: Snapshot<S, A>)
    requires WellBehaved(send) && WellBehaved(next) && !s.isSending
    ensures Settles(s, Perform(e, send, getState, next, s))
  {
    match e
    case Return =>
    case Forward(b, andThen) =>
      var o := next(b, s);
      if o.status.Sent? {
        PerformSettles(andThen, send, getState, next, o.after);
      }
    case Dispatch(b, andThen) =>
      var o := send(b, s);
      if o.status.Sent? {
        PerformSettles(andThen, send, getState, next, o.after);
      }
    case Inspect(test, ifTrue, ifFalse) =>
      PerformSettles(if test(getState(s)) then ifTrue else ifFalse, send, getState, next, s);
  }

  lemma {:induction false} ChainWellBehaved<S(!new), A(!new)>(handlers: seq<Handler<S, A>>, send: SendFunction<S, A>,
                                                  getState: StateGetter<S, A>, inner: SendFunction<S, A>)
    requires WellBehaved(send) && WellBehaved(inner)
    ensures WellBehaved(Nest(Interceptors(handlers), send, getState, inner))
  {
    if handlers != [] {
      assert Interceptors(handlers)[1..] == Interceptors(handlers[1..]);
      var next := Nest(Interceptors(handlers[1..]), send, getState, inner);
      ChainWellBehaved(handlers[1..], send, getState, inner);
      forall a: A, s: Snapshot<S, A> | !s.isSending
        ensures Settles(s, Nest(Interceptors(handlers), send, getState, inner)(a, s))
      {
        PerformSettles(handlers[0](a), send, getState, next, s);
      }
    }
  }

  /** Commands cannot cause nested reduction: from any snapshot outside a reduction, the
      store's send function never fails the reentrancy check, leaves the flag down, and
      keeps every queued action in place, in order, with new ones behind it. */
  lemma {:induction false} StoreSendWellBehaved<S(!new), A(!new)>(handlers: seq<Handler<S, A>>, reducer: Reducer<S, A>, depth: nat)
    ensures WellBehaved(StoreSendFunction(Interceptors(handlers), reducer, depth))
  {
    var send := if depth == 0 then ExhaustedSend() else StoreSendFunction(Interceptors(handlers), reducer, depth - 1);
    if depth > 0 {
      StoreSendWellBehaved(handlers, reducer, depth - 1);
    }
    CoreSendWellBehaved(reducer);
    BuildSendFunctionNests(Interceptors(handlers), send, GetState(), CoreSend(reducer));
    ChainWellBehaved(handlers, send, GetState(), CoreSend(reducer));
  }

  // ---------------------------------------------------------------------------
  // The unfolding depth
  // ---------------------------------------------------------------------------

  /** `f` answers as `g` wherever `f` does not run out of unfoldings. */
  ghost predicate Refines<S(!new), A(!new)>(f: SendFunction<S, A>, g: SendFunction<S, A>)
  {
    forall a: A, s: Snapshot<S, A> :: f(a, s).status != Exhausted ==> g(a, s) == f(a, s)
  }

  lemma RefinesTransitive<S(!new), A(!new)>(f: SendFunction<S, A>, g: SendFunction<S, A>, h: SendFunction<S, A>)
    requires Refines(f, g) && Refines(g, h)
    ensures Refines(f, h)
  {
    forall a: A, s: Snapshot<S, A> | f(a, s).status != Exhausted
      ensures h(a, s) == f(a, s)
    {
      assert g(a, s) == f(a, s);
    }
  }

  /** A middleware given refining capabilities answers as it would with the refined ones,
      unless it runs out of unfoldings. */
  lemma {:induction false} PerformMono<S(!new), A(!new)>(e: Effect<S, A>, send: SendFunction<S, A>, send': SendFunction<S, A>,
                                             getState: StateGetter<S, A>, next: SendFunction<S, A>,
                                             next': SendFunction<S, A>, s: Snapshot<S, A>)
    requires Refines(send, send') && Refines(next, next')
    ensures Perform(e, send, getState, next, s).status != Exhausted
        ==> Perform(e, send', getState, next', s) == Perform(e, send, getState, next, s)
  {
    match e
    case Return =>
    case Forward(b, andThen) =>
      var o := next(b, s);
      if o.status.Sent? {
        assert next'(b, s) == o;
        PerformMono(andThen, send, send', getState, next, next', o.after);
      }
    case Dispatch(b, andThen) =>
      var o := send(b, s);
      if o.status.Sent? {
        assert send'(b, s) == o;
        PerformMono(andThen, send, send', getState, next, next', o.after);
      }
    case Inspect(test, ifTrue, ifFalse) =>
      PerformMono(if test(getState(s)) then ifTrue else ifFalse, send, send', getState, next, next', s);
  }

  /** A chain whose capability refines another answers as the chain with the other one. */
  lemma {:induction false} NestMono<S(!new), A(!new)>(handlers: seq<Handler<S, A>>, send: SendFunction<S, A>,
                                          send': SendFunction<S, A>, getState: StateGetter<S, A>,
                                          inner: SendFunction<S, A>)
    requires Refines(send, send')
    ensures Refines(Nest(Interceptors(handlers), send, getState, inner), Nest(Interceptors(handlers), send', getState, inner))
  {
    if handlers != [] {
      assert Interceptors(handlers)[1..] == Interceptors(handlers[1..]);
      var next := Nest(Interceptors(handlers[1..]), send, getState, inner);
      var next' := Nest(Interceptors(handlers[1..]), send', getState, inner);
      NestMono(handlers[1..], send, send', getState, inner);
      forall a: A, s: Snapshot<S, A>
        | Nest(Interceptors(handlers), send, getState, inner)(a, s).status != Exhausted
        ensures Nest(Interceptors(handlers), send', getState, inner)(a, s)
             == Nest(Interceptors(handlers), send, getState, inner)(a, s)
      {
        PerformMono(handlers[0](a), send, send', getState, next, next', s);
      }
    }
  }

  /** One more unfolding changes no outcome that did not already run out. */
  lemma {:induction false} StoreSendMono<S(!new), A(!new)>(handlers: seq<Handler<S, A>>, reducer: Reducer<S, A>, depth: nat)
    ensures Refines(StoreSendFunction(Interceptors(handlers), reducer, depth),
                    StoreSendFunction(Interceptors(handlers), reducer, depth + 1))
  {
    var chain := Interceptors(handlers);
    var send := if depth == 0 then ExhaustedSend() else StoreSendFunction(chain, reducer, depth - 1);
    var send' := StoreSendFunction(chain, reducer, depth);
    if depth > 0 {
      StoreSendMono(handlers, reducer, depth - 1);
    }
    assert Refines(send, send');
    BuildSendFunctionNests(chain, send, GetState(), CoreSend(reducer));
    BuildSendFunctionNests(chain, send', GetState(), CoreSend(reducer));
    NestMono(handlers, send, send', GetState(), CoreSend(reducer));
  }

  /** The store's results do not depend on the depth: an outcome that does not run out at
      one depth is the outcome at every greater depth. */
  lemma {:induction false} StoreSendDepthIndependent<S(!new), A(!new)>(handlers: seq<Handler<S, A>>, reducer: Reducer<S, A>,
                                                           depth: nat, more: nat)
    ensures Refines(StoreSendFunction(Interceptors(handlers), reducer, depth),
                    StoreSendFunction(Interceptors(handlers), reducer, depth + more))
  {
    var f := StoreSendFunction(Interceptors(handlers), reducer, depth);
    if more == 0 {
      assert Refines(f, f);
    } else {
      StoreSendDepthIndependent(handlers, reducer, depth, more - 1);
      StoreSendMono(handlers, reducer, depth + more - 1);
      RefinesTransitive(f, StoreSendFunction(Interceptors(handlers), reducer, depth + more - 1),
                        StoreSendFunction(Interceptors(handlers), reducer, depth + more));
    }
  }

  // ---------------------------------------------------------------------------
  // The store
  // ---------------------------------------------------------------------------

  class Store<S(!new), A(!new)> {
    var state: S
    var isSending: bool
    /** The blocks `sendAsync` put on the main queue, each `send(action)`, oldest first. */
    var queue: seq<A>
    const reducer: Reducer<S, A>
    const middleware: seq<Handler<S, A>>
    /** How many synchronous sends through the capability may nest. */
    const depth: nat
    var sendFunction: SendFunction<S, A>

    function Snap(): Snapshot<S, A>
      reads this
    {
      Snapshot(state, isSending, queue)
    }

    /** Between calls no reduction is in progress, and the send function is the chain
      built once at construction. */
    ghost predicate Valid()
      reads this
    {
      && !isSending
      && sendFunction == StoreSendFunction(Interceptors(middleware), reducer, depth)
    }

    /** `init`: keep state and reducer, build the chain, then send the initial action
        through it before returning. */
    constructor (initialState: S, initialAction: A, reducer: Reducer<S, A>, middleware: seq<Handler<S, A>>, depth: nat)
      ensures Valid()
      ensures this.reducer == reducer && this.middleware == middleware && this.depth == depth
      ensures Snap() == StoreSendFunction(Interceptors(middleware), reducer, depth)
                          (initialAction, Snapshot(initialState, false, [])).after
      ensures middleware == [] ==>
        var red := reducer(initialState, initialAction);
        state == red.state && queue == Flatten(CommandList(red))
    {
      this.state := initialState;
      this.isSending := false;
      this.queue := [];
      this.reducer := reducer;
      this.middleware := middleware;
      this.depth := depth;
      this.sendFunction := StoreSendFunction(Interceptors(middleware), reducer, depth);
      new;
      var _ := Send(initialAction);
    }

    /** `send`: run the composed chain now and keep what it leaves. */
    method Send(action: A) returns (status: Status)
      requires Valid()
      modifies this`state, this`isSending, this`queue
      ensures Valid()
      ensures Snap() == sendFunction(action, old(Snap())).after
      ensures status == sendFunction(action, old(Snap())).status
      ensures status != Reentered
      ensures old(queue) <= queue
      ensures middleware == [] ==>
        var red := reducer(old(state), action);
        state == red.state && queue == old(queue) + Flatten(CommandList(red)) && status == Sent
    {
      var o := sendFunction(action, Snap());
      StoreSendWellBehaved(middleware, reducer, depth);
      assert Settles(Snap(), o);
      state, isSending, queue := o.after.state, o.after.isSending, o.after.pending;
      status := o.status;
    }

    /** `sendAsync`: put `send(action)` on the main queue, behind everything already there. */
    method SendAsync(action: A)
      requires Valid()
      modifies this`queue
      ensures Valid()
      ensures Snap() == ScheduleSend(action, old(Snap()))
      ensures queue == old(queue) + [action]
    {
      queue := queue + [action];
    }

    /** One turn of the main queue: take the oldest scheduled action and `send` it through
        the whole chain. Actions queued behind it stay queued, ahead of anything it adds. */
    method RunNext() returns (ran: bool, status: Status)
      requires Valid()
      modifies this`state, this`isSending, this`queue
      ensures Valid()
      ensures ran == (old(queue) != [])
      ensures !ran ==> Snap() == old(Snap()) && status == Sent
      ensures ran ==>
        var o := sendFunction(old(queue)[0], old(Snap()).(pending := old(queue)[1..]));
        Snap() == o.after && status == o.status
      ensures ran ==> old(queue)[1..] <= queue
      ensures status != Reentered
    {
      if queue == [] {
        ran, status := false, Sent;
      } else {
        var action := queue[0];
        queue := queue[1..];
        status := Send(action);
        ran := true;
      }
    }
  }
}
