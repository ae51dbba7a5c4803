/** The long-poll event route of the remote-control bridge: one request
    subscribes to events of engine runtimes, gets the events stored since its
    cursor at once, or else waits for live events, which are coalesced for a
    short linger time, or for a timeout. Asynchronous answers (permission
    checks, event pulls, live events, timers, the client closing) are the
    inputs of a session object whose fields are the request's local state. */
module Aggregator {
  import opened Js

  /** A subscription as a client sends it: `{id, objPath, event, callback}`. */
  datatype Subscription = Subscription(id: Value, objPath: string, event: Value, callback: Value)

  /** An entry of `commands`: a subscription let through, with its runtime
      (named by its engine). */
  datatype Accepted = Accepted(command: Subscription, runtime: string)

  /** An event from a runtime's event manager; `ts` is its timestamp. */
  datatype Event = Event(ts: int, body: Value)

  /** The answer of `pullEvents`: whether it reported an error, and the events. */
  datatype Pull = Pull(err: bool, es: seq<Event>)

  /** An entry of `events`. A fetched wrapper holds its events; a live wrapper
      is the one object `{id, type: 'events', events}` that the handler of
      accepted subscription `k` shares, so every entry `Live(k)` shows the same,
      growing list `live[k]`. */
  datatype Slot = Fetched(id: Value, es: seq<Event>) | Live(k: nat)

  /** `{id, type: 'events', events}` as it is sent. */
  datatype Wrapper = Wrapper(id: Value, events: seq<Event>)

  /** `eventSet`: the cursor for the next poll and the wrappers. */
  datatype EventSet = EventSet(ts: int, events: seq<Wrapper>)

  /** A handler of this session registered on a runtime's 'updated' notifier:
      the handler of accepted subscription `k`. */
  datatype Listener = Listener(runtime: string, k: nat)

  function EngineName(s: Subscription): string {
    Split(s.objPath, '.')[0]
  }

  /** A subscription whose permission is asked: its engine has a runtime and its
      `callback` is truthy. Both are checked before the permission check. */
  predicate Eligible(s: Subscription, known: set<string>) {
    EngineName(s) in known && Truthy(s.callback)
  }

  /** The cursor handed to `pullEvents`: the request's `ts`, or the request time
      when it is absent, falsy or the string "null". */
  function Cursor(tsParam: Value, now: int): Value {
    if !Truthy(tsParam) || tsParam == Str("null") then Num(now) else tsParam
  }

  /** With a clock that is past 0, the cursor handed to `pullEvents` is never
      falsy or "null". The model keeps the cursor as `Session.timestamp` but
      takes each pull's answer as an input, so this lemma and `CursorEcho` are
      the documented meaning of the cursor rather than facts other contracts use. */
  lemma CursorUsable(tsParam: Value, now: int)
    requires now != 0
    ensures Truthy(Cursor(tsParam, now)) && Cursor(tsParam, now) != Str("null")
  {
  }

  /** A client that sends back the `ts` of the answer it got (a time past 0)
      polls from exactly that time. */
  lemma CursorEcho(ts: int, now: int)
    requires ts != 0
    ensures Cursor(Num(ts), now) == Num(ts)
  {
  }

  /** The index of the next subscription from `i` on whose permission is asked;
      the ones in between are dropped without asking. */
  function NextEligible(subs: seq<Subscription>, known: set<string>, i: nat): (j: nat)
    requires i <= |subs|
    ensures i <= j <= |subs|
    ensures j < |subs| ==> Eligible(subs[j], known)
    ensures forall m :: i <= m < j ==> !Eligible(subs[m], known)
    decreases |subs| - i
  {
    if i == |subs| || Eligible(subs[i], known) then i else NextEligible(subs, known, i + 1)
  }

  /** The subscription filter over the first `n` subscriptions, given each
      one's permission answer (ignored where the permission is never asked). */
  function Filter(subs: seq<Subscription>, known: set<string>, answers: seq<bool>, n: nat): (r: seq<Accepted>)
    requires n <= |subs| && n <= |answers|
    ensures |r| <= n
    decreases n
  {
    if n == 0 then []
    else
      Filter(subs, known, answers, n - 1)
      + (if Eligible(subs[n - 1], known) && answers[n - 1] then [Accepted(subs[n - 1], EngineName(subs[n - 1]))] else [])
  }

  /** A subscription is accepted when its engine has a runtime, its `callback`
      is truthy and its permission is granted. */
  lemma {:induction false} FilterAccepts(subs: seq<Subscription>, known: set<string>, answers: seq<bool>, n: nat, i: nat)
    requires n <= |subs| && n <= |answers| && i < n
    requires Eligible(subs[i], known) && answers[i]
    ensures Accepted(subs[i], EngineName(subs[i])) in Filter(subs, known, answers, n)
    decreases n
  {
    if i < n - 1 {
      FilterAccepts(subs, known, answers, n - 1, i);
    }
  }

  /** Everything accepted is a subscription whose engine has a runtime, whose
      `callback` is truthy and whose permission was granted. */
  lemma {:induction false} FilterOnlyPermitted(subs: seq<Subscription>, known: set<string>, answers: seq<bool>, n: nat, m: nat)
    requires n <= |subs| && n <= |answers| && m < |Filter(subs, known, answers, n)|
    ensures var x := Filter(subs, known, answers, n)[m];
            exists i :: 0 <= i < n && subs[i] == x.command && x.runtime == EngineName(subs[i])
                        && answers[i] && Eligible(subs[i], known)
    decreases n
  {
    if m < |Filter(subs, known, answers, n - 1)| {
      FilterOnlyPermitted(subs, known, answers, n - 1, m);
    } else {
      assert subs[n - 1] == Filter(subs, known, answers, n)[m].command;
    }
  }

  /** The runtime check and the `callback` check come before the permission
      check: answers given for subscriptions that fail them change nothing. */
  lemma {:induction false} UnaskedAnswersIgnored(subs: seq<Subscription>, known: set<string>,
                                                 answers: seq<bool>, answers': seq<bool>, n: nat)
    requires n <= |subs| && n <= |answers| && n <= |answers'|
    requires forall i :: 0 <= i < n && Eligible(subs[i], known) ==> answers[i] == answers'[i]
    ensures Filter(subs, known, answers, n) == Filter(subs, known, answers', n)
    decreases n
  {
    if n > 0 {
      UnaskedAnswersIgnored(subs, known, answers, answers', n - 1);
    }
  }

  /** `_fetchEvents` over the first `n` accepted subscriptions: one fetched
      wrapper per pull that returns no error and a non-empty list, in order. */
  function Fetch(commands: seq<Accepted>, pulls: seq<Pull>, n: nat): (r: seq<Slot>)
    requires n <= |commands| && n <= |pulls|
    ensures |r| <= n
    decreases n
  {
    if n == 0 then []
    else
      Fetch(commands, pulls, n - 1)
      + (if !pulls[n - 1].err && pulls[n - 1].es != [] then [Fetched(commands[n - 1].command.id, pulls[n - 1].es)] else [])
  }

  /** Every wrapper the fetch yields holds events and belongs to an accepted
      subscription. */
  lemma {:induction false} FetchWrappers(commands: seq<Accepted>, pulls: seq<Pull>, n: nat, m: nat)
    requires n <= |commands| && n <= |pulls| && m < |Fetch(commands, pulls, n)|
    ensures var s := Fetch(commands, pulls, n)[m];
            s.Fetched? && exists i :: 0 <= i < n && s == Fetched(commands[i].command.id, pulls[i].es)
                                      && !pulls[i].err && pulls[i].es != []
    decreases n
  {
    if m < |Fetch(commands, pulls, n - 1)| {
      FetchWrappers(commands, pulls, n - 1, m);
    }
  }

  /** The fetch yields fetched wrappers only. */
  lemma {:induction false} FetchHoldsNoLive(commands: seq<Accepted>, pulls: seq<Pull>, n: nat)
    requires n <= |commands| && n <= |pulls|
    ensures SlotsIn(Fetch(commands, pulls, n), 0)
    decreases n
  {
    if n > 0 {
      FetchHoldsNoLive(commands, pulls, n - 1);
    }
  }

  /** The fetch depends only on the pulls made so far. */
  lemma {:induction false} FetchPrefix(commands: seq<Accepted>, pulls: seq<Pull>, pulls': seq<Pull>, n: nat)
    requires n <= |commands| && n <= |pulls| && n <= |pulls'|
    requires pulls[..n] == pulls'[..n]
    ensures Fetch(commands, pulls, n) == Fetch(commands, pulls', n)
    decreases n
  {
    if n > 0 {
      assert pulls[n - 1] == pulls[..n][n - 1] == pulls'[n - 1];
      assert pulls[..n - 1] == pulls[..n][..n - 1];
      assert pulls'[..n - 1] == pulls'[..n][..n - 1];
      FetchPrefix(commands, pulls, pulls', n - 1);
    }
  }

  /** The fetch yields nothing exactly when every pull failed or came back empty;
      that is when live listening starts. */
  lemma {:induction false} FetchEmpty(commands: seq<Accepted>, pulls: seq<Pull>, n: nat)
    requires n <= |commands| && n <= |pulls|
    ensures Fetch(commands, pulls, n) == [] <==> forall i :: 0 <= i < n ==> pulls[i].err || pulls[i].es == []
    decreases n
  {
    if n > 0 {
      FetchEmpty(commands, pulls, n - 1);
    }
  }

  /** Every live entry of `events` refers to one of the first `n` handlers. */
  predicate SlotsIn(events: seq<Slot>, n: nat) {
    forall i :: 0 <= i < |events| && events[i].Live? ==> events[i].k < n
  }

  /** How many times the wrapper of handler `k` was pushed onto `events`. */
  function LiveCount(events: seq<Slot>, k: nat): nat
    decreases |events|
  {
    if events == [] then 0
    else LiveCount(events[..|events| - 1], k) + (if events[|events| - 1] == Live(k) then 1 else 0)
  }

  /** Pushing a wrapper onto `events` counts once for its handler only. */
  lemma LiveCountPush(events: seq<Slot>, s: Slot)
    ensures forall k :: LiveCount(events + [s], k) == LiveCount(events, k) + (if s == Live(k) then 1 else 0)
  {
    assert (events + [s])[..|events|] == events;
  }

  function RenderSlot(slot: Slot, commands: seq<Accepted>, live: seq<seq<Event>>): Wrapper
    requires slot.Live? ==> slot.k < |commands| && slot.k < |live|
  {
    match slot
    case Fetched(id, es) => Wrapper(id, es)
    case Live(k) => Wrapper(commands[k].command.id, live[k])
  }

  /** What is sent: each entry of `events` as its wrapper shows at send time. */
  function Render(events: seq<Slot>, commands: seq<Accepted>, live: seq<seq<Event>>): (r: seq<Wrapper>)
    requires SlotsIn(events, |live|) && |live| <= |commands|
    ensures |r| == |events|
  {
    seq(|events|, i requires 0 <= i < |events| => RenderSlot(events[i], commands, live))
  }

  /** Because the handler never marks its wrapper as pushed, a batch holds the
      live wrapper of subscription `k` once per event `k` received, each copy
      showing all of them. */
  lemma {:induction false} RenderRepeatsLiveWrapper(events: seq<Slot>, commands: seq<Accepted>,
                                                    live: seq<seq<Event>>, i: nat, j: nat)
    requires SlotsIn(events, |live|) && |live| <= |commands|
    requires i < |events| && j < |events| && events[i].Live? && events[i] == events[j]
    ensures Render(events, commands, live)[i] == Render(events, commands, live)[j]
            == Wrapper(commands[events[i].k].command.id, live[events[i].k])
  {
  }

  /** The wrappers `{id, events}` of the first `n` pulls that came back
      without error and with events, in the order of the subscriptions. */
  function PullWrappers(commands: seq<Accepted>, pulls: seq<Pull>, n: nat): seq<Wrapper>
    requires n <= |commands| && n <= |pulls|
    decreases n
  {
    if n == 0 then []
    else
      PullWrappers(commands, pulls, n - 1)
      + (if !pulls[n - 1].err && pulls[n - 1].es != [] then [Wrapper(commands[n - 1].command.id, pulls[n - 1].es)] else [])
  }

  /** An immediate flush sends, in order, one wrapper `{id, events}` per pull
      that came back without error and with events, holding exactly those
      events; a wrapper is sent iff such a pull produced it. */
  lemma {:induction false} FlushSendsPulls(commands: seq<Accepted>, pulls: seq<Pull>, live: seq<seq<Event>>, n: nat)
    requires n <= |commands| && n <= |pulls| && |live| <= |commands|
    ensures SlotsIn(Fetch(commands, pulls, n), |live|)
    ensures Render(Fetch(commands, pulls, n), commands, live) == PullWrappers(commands, pulls, n)
    ensures forall w :: w in PullWrappers(commands, pulls, n) <==>
              exists i :: 0 <= i < n && !pulls[i].err && pulls[i].es != [] && w == Wrapper(commands[i].command.id, pulls[i].es)
    decreases n
  {
    FetchHoldsNoLive(commands, pulls, n);
    if n > 0 {
      FlushSendsPulls(commands, pulls, live, n - 1);
      var before := Fetch(commands, pulls, n - 1);
      var r := Render(Fetch(commands, pulls, n), commands, live);
      var r0 := Render(before, commands, live);
      assert r[..|before|] == r0;
      if !pulls[n - 1].err && pulls[n - 1].es != [] {
        assert r == r0 + [r[|before|]];
      } else {
        assert r == r0;
      }
    }
  }

  /** The handlers registered by `_setListener`: one per accepted subscription. */
  function Registered(commands: seq<Accepted>): seq<Listener> {
    seq(|commands|, k requires 0 <= k < |commands| => Listener(commands[k].runtime, k))
  }

  /** `eventMgr.removeListener('updated', handler)`: removes the most recently
      registered instance of the handler, if there is one. */
  function RemoveLast(hooks: seq<Listener>, l: Listener): (r: seq<Listener>)
    ensures multiset(r) == multiset(hooks) - multiset{l}
    decreases |hooks|
  {
    if hooks == [] then []
    else
      var n := |hooks| - 1;
      assert hooks == hooks[..n] + [hooks[n]];
      if hooks[n] == l then hooks[..n]
      else RemoveLast(hooks[..n], l) + [hooks[n]]
  }

  /** The loop of `_removeListener`: each listener in turn is unregistered. */
  function Unhook(hooks: seq<Listener>, ls: seq<Listener>): seq<Listener>
    decreases |ls|
  {
    if ls == [] then hooks else Unhook(RemoveLast(hooks, ls[0]), ls[1..])
  }

  /** Unregistering removes one registration per listener in the list, and
      nothing else. */
  lemma {:induction false} UnhookRemoves(hooks: seq<Listener>, ls: seq<Listener>)
    ensures multiset(Unhook(hooks, ls)) == multiset(hooks) - multiset(ls)
    decreases |ls|
  {
    if ls != [] {
      var x := ls[0];
      var h := RemoveLast(hooks, x);
      UnhookRemoves(h, ls[1..]);
      assert ls == [x] + ls[1..];
      assert multiset(ls) == multiset{x} + multiset(ls[1..]);
      MinusTwice(multiset(hooks), x, multiset(ls[1..]));
    }
  }

  lemma MinusTwice(a: multiset<Listener>, x: Listener, b: multiset<Listener>)
    ensures (a - multiset{x}) - b == a - (multiset{x} + b)
  {
    forall e
      ensures ((a - multiset{x}) - b)[e] == (a - (multiset{x} + b))[e]
    {
    }
  }

  /** Unregistering every handler the session holds leaves none registered. */
  lemma UnhookAll(ls: seq<Listener>)
    ensures Unhook(ls, ls) == []
  {
    UnhookRemoves(ls, ls);
    assert multiset(Unhook(ls, ls)) == multiset{};
  }

  /** The handlers among the first `n` of `hooks` that a runtime's 'updated'
      event reaches, in registration order. */
  function Targets(hooks: seq<Listener>, runtime: string, n: nat): (ks: seq<nat>)
    requires n <= |hooks|
    ensures |ks| <= n
    decreases n
  {
    if n == 0 then []
    else Targets(hooks, runtime, n - 1) + (if hooks[n - 1].runtime == runtime then [hooks[n - 1].k] else [])
  }

  /** An 'updated' event of a runtime reaches exactly the handlers registered
      on that runtime. */
  lemma {:induction false} TargetsReach(hooks: seq<Listener>, runtime: string, n: nat, k: nat)
    requires n <= |hooks|
    ensures k in Targets(hooks, runtime, n) <==> Listener(runtime, k) in hooks[..n]
    decreases n
  {
    if n > 0 {
      TargetsReach(hooks, runtime, n - 1, k);
      assert hooks[..n] == hooks[..n - 1] + [hooks[n - 1]];
    }
  }

  /** With the handlers as `_setListener` registers them, an event reaches
      only existing handlers, in increasing order, so each at most once. */
  lemma {:induction false} TargetsBelow(commands: seq<Accepted>, runtime: string, n: nat)
    requires n <= |commands|
    ensures forall k :: k in Targets(Registered(commands), runtime, n) ==> k < n
    ensures forall i, j :: 0 <= i < j < |Targets(Registered(commands), runtime, n)| ==>
              Targets(Registered(commands), runtime, n)[i] < Targets(Registered(commands), runtime, n)[j]
    decreases n
  {
    if n > 0 {
      TargetsBelow(commands, runtime, n - 1);
      var hooks := Registered(commands);
      var ks := Targets(hooks, runtime, n - 1);
      assert forall i :: 0 <= i < |ks| ==> ks[i] in ks;
      assert hooks[n - 1] == Listener(commands[n - 1].runtime, n - 1);
      var all := Targets(hooks, runtime, n);
      if hooks[n - 1].runtime == runtime {
        assert all == ks + [n - 1];
        forall k | k in all
          ensures k < n
        {
          if k != n - 1 {
            assert k in ks;
          }
        }
        forall i, j | 0 <= i < j < |all|
          ensures all[i] < all[j]
        {
          if j == |ks| {
            assert all[i] == ks[i];
          }
        }
      } else {
        assert all == ks;
      }
    }
  }

  /** The entries a run of handlers pushes onto `events`. */
  function LiveSlots(ks: seq<nat>): seq<Slot> {
    seq(|ks|, i requires 0 <= i < |ks| => Live(ks[i]))
  }

  lemma LiveSlotsPush(ks: seq<nat>, k: nat)
    ensures LiveSlots(ks + [k]) == LiveSlots(ks) + [Live(k)]
  {
  }

  /** The subscription filter has run to its end. */
  ghost predicate Decided(onCmds: seq<Subscription>, known: set<string>, answers: seq<bool>, commands: seq<Accepted>) {
    |answers| == |onCmds| && commands == Filter(onCmds, known, answers, |onCmds|)
  }

  /** Every accepted subscription was pulled, and `events` holds what the
      pulls yielded. */
  ghost predicate FetchedAll(commands: seq<Accepted>, pulls: seq<Pull>, events: seq<Slot>) {
    |pulls| == |commands| && events == Fetch(commands, pulls, |commands|)
  }

  /** No handler registered and no live wrapper. */
  predicate Unregistered(listeners: seq<Listener>, live: seq<seq<Event>>, pushed: seq<bool>, ready: bool) {
    listeners == [] && live == [] && pushed == [] && !ready
  }

  /** The live phase: the handlers are all registered or all removed, each
      has a wrapper and a `pushed` flag that is still false, `events` holds
      only live wrappers, and each handler's wrapper was pushed once per event
      it received. */
  predicate Collecting(commands: seq<Accepted>, listeners: seq<Listener>, live: seq<seq<Event>>,
                       pushed: seq<bool>, events: seq<Slot>, ready: bool) {
    && (listeners == Registered(commands) || listeners == [])
    && |live| == |commands| && |pushed| == |commands| && true !in pushed
    && (forall i :: 0 <= i < |events| ==> events[i].Live? && events[i].k < |live|)
    && (forall k {:trigger LiveCount(events, k)} :: 0 <= k < |live| ==> LiveCount(events, k) == |live[k]|)
    && (ready <==> events != [])
  }

  /** A handler's run keeps the live phase's invariant. */
  lemma CollectingPush(commands: seq<Accepted>, listeners: seq<Listener>, live: seq<seq<Event>>,
                       pushed: seq<bool>, events: seq<Slot>, ready: bool, k: nat, ev: Event)
    requires Collecting(commands, listeners, live, pushed, events, ready) && k < |live|
    ensures Collecting(commands, listeners, live[k := live[k] + [ev]], pushed, events + [Live(k)], true)
  {
    LiveCountPush(events, Live(k));
  }

  /** Where the session stands. Checking(i): waiting for the permission answer
      for subscription `i`. Pulling(k): waiting for the pull of accepted
      subscription `k`. Flushed: stored events were sent at once. Listening:
      handlers were registered and the timeout armed. */
  datatype Phase = Checking(i: nat) | Pulling(k: nat) | Flushed | Listening

  /** One request of the event route: its local variables and what it has
      registered on runtimes and sent. */
  class Session {
    const known: set<string>            // engines `getRuntime` resolves
    const onCmds: seq<Subscription>
    const timestamp: Value              // the cursor handed to `pullEvents`
    const start: int                    // the request time
    var phase: Phase
    var commands: seq<Accepted>
    var events: seq<Slot>
    var listeners: seq<Listener>
    var hooks: seq<Listener>            // handlers of this session registered on runtimes
    var live: seq<seq<Event>>           // `e.events` of each handler's wrapper
    var pushed: seq<bool>               // each handler's `pushed` flag
    var ready: bool
    var ts: int                         // `eventSet.ts`
    var lingerPending: bool             // the 10 ms timer is armed and has not fired
    var timeoutPending: bool            // the 60 s timer is armed and has not fired
    var sent: seq<EventSet>             // every `res.json(eventSet)`
    ghost var answers: seq<bool>        // permission answers so far (false where none was asked)
    ghost var pulls: seq<Pull>          // pull answers so far
    ghost var lingerArms: nat           // how often the linger timer was armed

    ghost predicate RenderOk()
      reads this
    {
      SlotsIn(events, |live|) && |live| <= |commands|
    }

    /** The session's invariant: what each phase has established so far. */
    ghost predicate Valid()
      reads this
    {
      match phase
      case Checking(i) =>
        && i < |onCmds| && Eligible(onCmds[i], known) && |answers| == i
        && commands == Filter(onCmds, known, answers, i)
        && Quiet() && ts == start
      case Pulling(k) =>
        && Decided(onCmds, known, answers, commands)
        && k < |commands| && |pulls| == k && events == Fetch(commands, pulls, k) && SlotsIn(events, 0)
        && Idle() && sent == [] && ts == start
      case Flushed =>
        && Decided(onCmds, known, answers, commands)
        && FetchedAll(commands, pulls, events) && events != [] && SlotsIn(events, 0)
        && Idle() && ts == start
        && sent == [EventSet(start, Render(events, commands, live))]
      case Listening =>
        LiveValid()
    }

    /** The live phase: every accepted subscription was pulled without result,
        the handlers were registered, and the linger timer was armed once if
        and only if a live event arrived. */
    ghost predicate LiveValid()
      reads this
    {
      && phase.Listening? && hooks == listeners
      && lingerArms == (if ready then 1 else 0) && (lingerPending ==> ready)
      && Decided(onCmds, known, answers, commands) && FetchedAll(commands, pulls, [])
      && Collecting(commands, listeners, live, pushed, events, ready)
    }

    /** No handler registered, no live wrapper, no timer armed. */
    ghost predicate Idle()
      reads this
    {
      Unregistered(listeners, live, pushed, ready) && hooks == [] && lingerArms == 0
      && !lingerPending && !timeoutPending
    }

    /** Nothing fetched, registered, armed or sent yet. */
    ghost predicate Quiet()
      reads this
    {
      events == [] && pulls == [] && listeners == [] && hooks == [] && live == [] && pushed == []
      && !ready && !lingerPending && !timeoutPending && sent == [] && lingerArms == 0
    }

    /** The request arrives: the cursor is fixed and the subscription filter
        runs until the first permission check, or to its end. */
    constructor (known: set<string>, onCmds: seq<Subscription>, tsParam: Value, now: int)
      ensures Valid()
      ensures this.known == known && this.onCmds == onCmds && timestamp == Cursor(tsParam, now) && start == now
      ensures commands == [] && events == [] && sent == []
      ensures var j := NextEligible(onCmds, known, 0);
              phase == if j < |onCmds| then Checking(j) else Listening
      ensures phase.Listening? ==> timeoutPending && listeners == [] && !lingerPending
    {
      this.known := known;
      this.onCmds := onCmds;
      timestamp := Cursor(tsParam, now);
      start := now;
      ts := now;
      phase := Checking(0);
      commands, events, listeners, hooks, live, pushed := [], [], [], [], [], [];
      ready, lingerPending, timeoutPending := false, false, false;
      sent, answers, pulls, lingerArms := [], [], [], 0;
      new;
      ContinueFilter(0);
    }

    /** The subscription filter from subscription `i` on: subscriptions without
        a runtime or a truthy `callback` are dropped until one needs a
        permission check; at the end the fetch phase starts. */
    method ContinueFilter(i: nat)
      requires i <= |onCmds| && |answers| == i && commands == Filter(onCmds, known, answers, i)
      requires Quiet() && ts == start && !phase.Listening?
      modifies this`answers, this`phase, this`listeners, this`hooks, this`live, this`pushed,
               this`sent, this`timeoutPending
      ensures Valid()
      ensures var j := NextEligible(onCmds, known, i);
              phase == (if j < |onCmds| then Checking(j) else if commands != [] then Pulling(0) else Listening)
      ensures events == [] && sent == []
      ensures phase.Listening? ==> timeoutPending && listeners == [] && !lingerPending
    {
      var j := i;
      while j < |onCmds| && !Eligible(onCmds[j], known)
        invariant i <= j <= |onCmds| && |answers| == j
        invariant forall m :: i <= m < j ==> !Eligible(onCmds[m], known)
        invariant commands == Filter(onCmds, known, answers, j)
        invariant Quiet() && ts == start && !phase.Listening?
        decreases |onCmds| - j
      {
        var a := answers + [false];
        UnaskedAnswersIgnored(onCmds, known, a, answers, j);
        answers := a;
        j := j + 1;
      }
      assert j == NextEligible(onCmds, known, i) by {
        NextEligibleIsFirst(onCmds, known, i, j);
      }
      if j < |onCmds| {
        phase := Checking(j);
      } else {
        StartFetch();
      }
    }

    /** `_fetchEvents` begins: with no accepted subscription it ends at once. */
    method StartFetch()
      requires Decided(onCmds, known, answers, commands)
      requires Quiet() && ts == start && !phase.Listening?
      modifies this`phase, this`listeners, this`hooks, this`live, this`pushed, this`sent, this`timeoutPending
      ensures Valid()
      ensures phase == if commands != [] then Pulling(0) else Listening
      ensures events == [] && sent == []
      ensures phase.Listening? ==> timeoutPending && listeners == [] && !lingerPending
    {
      if commands != [] {
        phase := Pulling(0);
      } else {
        FinishFetch();
      }
    }

    /** The end of `_fetchEvents`: flush what was fetched, or register the
        handlers and arm the 60 s timeout. */
    method FinishFetch()
      requires Decided(onCmds, known, answers, commands) && FetchedAll(commands, pulls, events)
      requires Unregistered(listeners, live, pushed, ready) && hooks == [] && lingerArms == 0
      requires !lingerPending && !timeoutPending && sent == [] && ts == start && !phase.Listening?
      modifies this`phase, this`listeners, this`hooks, this`live, this`pushed, this`sent, this`timeoutPending
      ensures Valid()
      ensures events != [] ==> phase == Flushed && sent == [EventSet(start, Render(events, commands, live))]
                               && sent[0].events == PullWrappers(commands, pulls, |commands|)
                               && listeners == [] && !timeoutPending
      ensures events == [] ==> && phase == Listening && sent == [] && listeners == Registered(commands)
                               && |live| == |commands| && (forall k :: 0 <= k < |live| ==> live[k] == [])
                               && timeoutPending
    {
      if |events| > 0 {
        FlushSendsPulls(commands, pulls, live, |commands|);
        ReadyToSend();
        phase := Flushed;
      } else {
        SetListener();
        timeoutPending := true;
        phase := Listening;
      }
    }

    /** The runtime answers the permission check of the subscription under
        consideration; an allowed one is pushed onto `commands`. */
    method Permit(allowed: bool)
      requires Valid() && phase.Checking?
      modifies this`answers, this`commands, this`phase, this`listeners, this`hooks, this`live, this`pushed,
               this`sent, this`timeoutPending
      ensures Valid()
      ensures var s := onCmds[old(phase).i];
              commands == old(commands) + (if allowed then [Accepted(s, EngineName(s))] else [])
      ensures var j := NextEligible(onCmds, known, old(phase).i + 1);
              phase == (if j < |onCmds| then Checking(j) else if commands != [] then Pulling(0) else Listening)
      ensures events == [] && sent == []
      ensures phase.Listening? ==> timeoutPending && listeners == [] && !lingerPending
    {
      var i := phase.i;
      var s := onCmds[i];
      var a := answers + [allowed];
      UnaskedAnswersIgnored(onCmds, known, a, answers, i);
      answers := a;
      if allowed {
        commands := commands + [Accepted(s, EngineName(s))];
      }
      ContinueFilter(i + 1);
    }

    /** `pullEvents` answers for the accepted subscription under consideration;
        a result without error and with events is pushed as a wrapper. After the
        last one the stored events are flushed at once, or listening starts. */
    method Pulled(p: Pull)
      requires Valid() && phase.Pulling?
      modifies this`pulls, this`events, this`phase, this`listeners, this`hooks, this`live, this`pushed,
               this`sent, this`timeoutPending
      ensures Valid()
      ensures pulls == old(pulls) + [p]
      ensures var k := old(phase).k;
              var got := old(events) + (if !p.err && p.es != [] then [Fetched(commands[k].command.id, p.es)] else []);
              && events == got
              && (k + 1 < |commands| ==> phase == Pulling(k + 1) && sent == [])
              && (k + 1 == |commands| && got != [] ==>
                    phase == Flushed && sent == [EventSet(start, Render(got, commands, live))] && !timeoutPending)
              && (k + 1 == |commands| && got == [] ==>
                    phase == Listening && sent == [] && listeners == Registered(commands)
                    && |live| == |commands| && (forall k :: 0 <= k < |live| ==> live[k] == []) && timeoutPending)
    {
      var k := phase.k;
      var a := commands[k];
      var ps := pulls + [p];
      assert ps[..k] == pulls[..k];
      FetchPrefix(commands, ps, pulls, k);
      FetchHoldsNoLive(commands, ps, k + 1);
      pulls := ps;
      if !p.err && p.es != [] {
        events := events + [Fetched(a.command.id, p.es)];
      }
      if k + 1 < |commands| {
        phase := Pulling(k + 1);
      } else {
        FinishFetch();
      }
    }

    /** `_setListener`: one handler per accepted subscription, each with its own
        empty wrapper and a `pushed` flag that starts false, registered on the
        runtime's 'updated' notifier and pushed onto `listeners`. */
    method SetListener()
      requires listeners == [] && hooks == [] && live == [] && pushed == []
      modifies this`listeners, this`hooks, this`live, this`pushed
      ensures listeners == Registered(commands) && hooks == listeners
      ensures |live| == |commands| && (forall k :: 0 <= k < |live| ==> live[k] == [])
      ensures |pushed| == |commands| && true !in pushed
    {
      var ls: seq<Listener> := [];
      var ws: seq<seq<Event>> := [];
      var flags: seq<bool> := [];
      var k := 0;
      while k < |commands|
        invariant 0 <= k <= |commands|
        invariant ls == Registered(commands[..k])
        invariant |ws| == k && (forall m :: 0 <= m < |ws| ==> ws[m] == []) && |flags| == k && true !in flags
      {
        ls := ls + [Listener(commands[k].runtime, k)];
        ws := ws + [[]];
        flags := flags + [false];
        k := k + 1;
      }
      assert commands[..k] == commands;
      listeners, hooks, live, pushed := ls, ls, ws, flags;
    }

    /** `_removeListener`: unregister every handler in `listeners`, then empty
        it. Calling it again finds nothing to do. */
    method RemoveListener()
      requires hooks == listeners
      modifies this`hooks, this`listeners
      ensures hooks == [] && listeners == []
    {
      var hs := hooks;
      var j := 0;
      while j < |listeners|
        invariant 0 <= j <= |listeners|
        invariant Unhook(old(hooks), listeners) == Unhook(hs, listeners[j..])
      {
        assert listeners[j..][1..] == listeners[j + 1..];
        hs := RemoveLast(hs, listeners[j]);
        j := j + 1;
      }
      UnhookAll(listeners);
      hooks := hs;
      listeners := [];
    }

    /** `_readyToSend`: with nothing in `events` it does nothing (the handlers
        stay); otherwise it unregisters the handlers and sends `eventSet`. */
    method ReadyToSend()
      requires hooks == listeners && RenderOk()
      modifies this`hooks, this`listeners, this`sent
      ensures events == [] ==> listeners == old(listeners) && hooks == old(hooks) && sent == old(sent)
      ensures events != [] ==>
                listeners == [] && hooks == [] && sent == old(sent) + [EventSet(ts, Render(events, commands, live))]
    {
      if |events| == 0 {
        return;
      }
      RemoveListener();
      sent := sent + [EventSet(ts, Render(events, commands, live))];
    }

    /** `_handler` of accepted subscription `k` receives an event: it appends
        the event to its wrapper, moves the cursor to the event's time and, as
        its `pushed` flag never turns true, pushes its wrapper onto `events`
        again; the first such push of the session arms the linger timer. */
    method Handle(k: nat, ev: Event)
      requires LiveValid() && k < |live|
      modifies this`live, this`ts, this`events, this`ready, this`lingerPending, this`lingerArms
      ensures LiveValid()
      ensures live == old(live)[k := old(live)[k] + [ev]]
      ensures events == old(events) + [Live(k)]
      ensures ts == ev.ts && ready && lingerArms == 1
      ensures lingerPending == (old(lingerPending) || !old(ready))
    {
      CollectingPush(commands, listeners, live, pushed, events, ready, k, ev);
      live := live[k := live[k] + [ev]];
      ts := ev.ts;
      if pushed[k] {
        assert false;
        return;
      }
      events := events + [Live(k)];
      if !ready {
        lingerPending := true;
        ready := true;
        lingerArms := lingerArms + 1;
      }
    }

    /** The effect of the first `j` registered handlers run for an 'updated'
        event of `runtime`, from the state given by the other parameters: the
        wrapper of each handler reached gains the event and is pushed once
        more, in registration order; the cursor moves to the event's time
        and the linger timer is armed if this is the first push. */
    ghost predicate Reached(runtime: string, ev: Event, j: nat, events0: seq<Slot>, live0: seq<seq<Event>>,
                            ts0: int, ready0: bool, linger0: bool)
      requires j <= |hooks|
      reads this
    {
      var ks := Targets(hooks, runtime, j);
      && events == events0 + LiveSlots(ks)
      && |live| == |live0|
      && (forall k :: 0 <= k < |live| ==> live[k] == live0[k] + (if k in ks then [ev] else []))
      && ts == (if ks == [] then ts0 else ev.ts)
      && ready == (ready0 || ks != [])
      && lingerPending == (linger0 || (!ready0 && ks != []))
    }

    /** One step of the emitter: the `j`-th registered handler runs if it is
        registered on `runtime`. */
    method Notify(runtime: string, ev: Event, j: nat, ghost events0: seq<Slot>, ghost live0: seq<seq<Event>>,
                  ghost ts0: int, ghost ready0: bool, ghost linger0: bool)
      requires LiveValid() && hooks == Registered(commands) && j < |hooks|
      requires Reached(runtime, ev, j, events0, live0, ts0, ready0, linger0)
      modifies this`live, this`ts, this`events, this`ready, this`lingerPending, this`lingerArms
      ensures LiveValid()
      ensures Reached(runtime, ev, j + 1, events0, live0, ts0, ready0, linger0)
    {
      var ks := Targets(hooks, runtime, j);
      if hooks[j].runtime == runtime {
        assert Targets(hooks, runtime, j + 1) == ks + [j];
        TargetsBelow(commands, runtime, j);
        LiveSlotsPush(ks, j);
        ghost var before := live;
        Handle(j, ev);
        forall k | 0 <= k < |live|
          ensures live[k] == live0[k] + (if k in ks + [j] then [ev] else [])
        {
          if k == j {
            assert live[k] == before[k] + [ev] && j !in ks;
          } else {
            assert live[k] == before[k] && (k in ks + [j] <==> k in ks);
          }
        }
      } else {
        assert Targets(hooks, runtime, j + 1) == ks;
      }
    }

    /** The handlers `j` onwards run, each if it is registered on `runtime`. */
    method NotifyFrom(runtime: string, ev: Event, j: nat, ghost events0: seq<Slot>, ghost live0: seq<seq<Event>>,
                      ghost ts0: int, ghost ready0: bool, ghost linger0: bool)
      requires LiveValid() && hooks == Registered(commands) && j <= |hooks|
      requires Reached(runtime, ev, j, events0, live0, ts0, ready0, linger0)
      modifies this`live, this`ts, this`events, this`ready, this`lingerPending, this`lingerArms
      ensures LiveValid()
      ensures Reached(runtime, ev, |hooks|, events0, live0, ts0, ready0, linger0)
    {
      var i := j;
      while i < |hooks|
        invariant j <= i <= |hooks|
        invariant LiveValid() && hooks == Registered(commands)
        invariant Reached(runtime, ev, i, events0, live0, ts0, ready0, linger0)
      {
        Notify(runtime, ev, i, events0, live0, ts0, ready0, linger0);
        i := i + 1;
      }
    }

    /** A runtime emits 'updated': each handler of this session registered on
        it runs, in registration order. */
    method Updated(runtime: string, ev: Event)
      requires Valid()
      modifies this`live, this`ts, this`events, this`ready, this`lingerPending, this`lingerArms
      ensures Valid()
      ensures Reached(runtime, ev, |hooks|, old(events), old(live), old(ts), old(ready), old(lingerPending))
    {
      if !phase.Listening? || hooks == [] {
        return;
      }
      assert hooks == Registered(commands);
      assert Targets(hooks, runtime, 0) == [] && LiveSlots([]) == [];
      NotifyFrom(runtime, ev, 0, events, live, ts, ready, lingerPending);
    }

    /** The 10 ms linger timer fires. */
    method FireLinger()
      requires Valid() && lingerPending
      modifies this`lingerPending, this`hooks, this`listeners, this`sent
      ensures Valid()
      ensures !lingerPending && listeners == [] && hooks == []
      ensures sent == old(sent) + [EventSet(ts, Render(events, commands, live))]
    {
      lingerPending := false;
      ReadyToSend();
    }

    /** The 60 s timeout fires: the handlers are unregistered and `eventSet`
        is sent with the current time as cursor, whatever it holds, even if a
        flush already happened. */
    method FireTimeout(now: int)
      requires Valid() && timeoutPending
      modifies this`timeoutPending, this`hooks, this`listeners, this`ts, this`sent
      ensures Valid()
      ensures !timeoutPending && listeners == [] && hooks == [] && ts == now
      ensures sent == old(sent) + [EventSet(now, Render(events, commands, live))]
    {
      assert LiveValid();
      timeoutPending := false;
      RemoveListener();
      ts := now;
      sent := sent + [EventSet(ts, Render(events, commands, live))];
    }

    /** The client closes the connection: the handlers are unregistered; timers
        already armed stay armed. */
    method Close()
      requires Valid()
      modifies this`hooks, this`listeners
      ensures Valid()
      ensures listeners == [] && hooks == []
    {
      RemoveListener();
    }
  }

  lemma NextEligibleIsFirst(subs: seq<Subscription>, known: set<string>, i: nat, j: nat)
    requires i <= j <= |subs|
    requires forall m :: i <= m < j ==> !Eligible(subs[m], known)
    requires j < |subs| ==> Eligible(subs[j], known)
    ensures NextEligible(subs, known, i) == j
    decreases j - i
  {
    if i < j {
      NextEligibleIsFirst(subs, known, i + 1, j);
    }
  }

}
