/** The call queue of a service proxy: calls wait until the service starts and fail when it stops. */
module ServiceQueue {
  import opened Common

  /** `Internal` calls ask for the status of the service; they never wait. */
  datatype Kind = Request | Send | Internal

  /** A call that went out on the bus, and the peer it was restricted to. */
  datatype Dispatch = Dispatch(call: nat, target: Option<Key>)

  datatype Outcome = Answered(ok: bool) | Stopped

  /**
   Calls are numbered in the order they are made; `kinds` lists them all. `pending` is
   the map of pending calls in insertion order, and `epoch` the number of calls made
   before the last start.
   */
  datatype Proxy = Proxy(
    started: bool,
    target: Option<Key>,
    pending: seq<nat>,
    kinds: seq<Kind>,
    dispatched: seq<Dispatch>,
    outcomes: map<nat, Outcome>,
    epoch: nat)

  const EMPTY := Proxy(false, None, [], [], [], map[], 0)

  datatype Event =
    | Apply(kind: Kind)
    | Answer(call: nat, ok: bool)
    | Start(direct: bool, sender: Key)
    | Stop

  function Times(log: seq<Dispatch>, call: nat): nat {
    if log == [] then 0
    else Times(log[..|log| - 1], call) + if log[|log| - 1].call == call then 1 else 0
  }

  function Without(calls: seq<nat>, call: nat): seq<nat> {
    if calls == [] then []
    else if calls[0] == call then calls[1..]
    else [calls[0]] + Without(calls[1..], call)
  }

  /** One dispatch for each call, in order. */
  function DispatchAll(calls: seq<nat>, target: Option<Key>): seq<Dispatch> {
    seq(|calls|, i requires 0 <= i < |calls| => Dispatch(calls[i], target))
  }

  function Reject(outcomes: map<nat, Outcome>, calls: seq<nat>): map<nat, Outcome> {
    if calls == [] then outcomes
    else KeepFirst(Reject(outcomes, calls[..|calls| - 1]), calls[|calls| - 1], Stopped)
  }

  predicate Enabled(p: Proxy, e: Event) {
    e.Answer? ==> e.call < |p.kinds| && p.kinds[e.call] != Send && Times(p.dispatched, e.call) > 0
  }

  function Step(p: Proxy, e: Event): Proxy {
    match e
    case Apply(kind) =>
      var call := |p.kinds|;
      var out := if p.started || kind == Internal then [Dispatch(call, p.target)] else [];
      p.(kinds := p.kinds + [kind],
         pending := if p.started && kind == Send then p.pending else p.pending + [call],
         dispatched := p.dispatched + out)
    case Answer(call, ok) =>
      p.(pending := Without(p.pending, call), outcomes := KeepFirst(p.outcomes, call, Answered(ok)))
    case Start(direct, sender) =>
      if p.started then p
      else
        var target := if direct then Some(sender) else p.target;
        p.(started := true, target := target, pending := [], epoch := |p.kinds|,
           dispatched := p.dispatched + DispatchAll(p.pending, target))
    case Stop =>
      if !p.started then p
      else p.(started := false, target := None, pending := [], outcomes := Reject(p.outcomes, p.pending))
  }

  // ----- Facts about the lists --------------------------------------------------------

  predicate Increasing(s: seq<nat>) {
    forall i, j | 0 <= i < j < |s| :: s[i] < s[j]
  }

  lemma {:induction false} TimesAppend(a: seq<Dispatch>, b: seq<Dispatch>, call: nat)
    ensures Times(a + b, call) == Times(a, call) + Times(b, call)
  {
    if b == [] {
      assert a + b == a;
    } else {
      TimesAppend(a, b[..|b| - 1], call);
      assert (a + b)[..|a + b| - 1] == a + b[..|b| - 1];
    }
  }

  lemma TimesOne(call: nat, target: Option<Key>, other: nat)
    ensures Times([Dispatch(call, target)], other) == if other == call then 1 else 0
  {
    assert [Dispatch(call, target)][..0] == [] && Times([], other) == 0;
  }

  lemma {:induction false} TimesAll(calls: seq<nat>, target: Option<Key>, call: nat)
    requires Increasing(calls)
    ensures Times(DispatchAll(calls, target), call) == if call in calls then 1 else 0
  {
    if calls != [] {
      var init, last := calls[..|calls| - 1], calls[|calls| - 1];
      TimesAll(init, target, call);
      assert DispatchAll(calls, target) == DispatchAll(init, target) + [Dispatch(last, target)];
      TimesAppend(DispatchAll(init, target), [Dispatch(last, target)], call);
      TimesOne(last, target, call);
      assert calls == init + [last] && forall i | 0 <= i < |init| :: init[i] < last;
    }
  }

  lemma {:induction false} WithoutAt(calls: seq<nat>, i: nat)
    requires Increasing(calls) && i < |calls|
    ensures Without(calls, calls[i]) == calls[..i] + calls[i + 1..]
  {
    if i > 0 {
      var rest := calls[1..];
      WithoutAt(rest, i - 1);
      assert calls[0] < calls[i] == rest[i - 1];
      assert [calls[0]] + rest[..i - 1] == calls[..i] && rest[i..] == calls[i + 1..];
    }
  }

  /** Deleting the visited element leaves those not visited yet. */
  lemma WithoutVisited(calls: seq<nat>, i: nat)
    requires Increasing(calls) && i < |calls|
    ensures i <= |Without(calls, calls[i])| && Without(calls, calls[i])[i..] == calls[i + 1..]
    ensures Increasing(Without(calls, calls[i]))
  {
    WithoutAt(calls, i);
  }

  lemma DispatchOneMore(calls: seq<nat>, n: nat, target: Option<Key>)
    requires n < |calls|
    ensures DispatchAll(calls[..n + 1], target) == DispatchAll(calls[..n], target) + [Dispatch(calls[n], target)]
  {
  }

  lemma {:induction false} WithoutAbsent(calls: seq<nat>, call: nat)
    requires call !in calls
    ensures Without(calls, call) == calls
  {
    if calls != [] {
      WithoutAbsent(calls[1..], call);
    }
  }

  lemma {:induction false} WithoutMembers(calls: seq<nat>, call: nat)
    requires Increasing(calls)
    ensures forall x :: x in Without(calls, call) <==> x in calls && x != call
  {
    if calls != [] {
      assert forall x :: x in calls <==> x == calls[0] || x in calls[1..];
      if calls[0] != call {
        WithoutMembers(calls[1..], call);
      }
    }
  }

  lemma WithoutIncreasing(calls: seq<nat>, call: nat)
    requires Increasing(calls)
    ensures Increasing(Without(calls, call))
  {
    if call in calls {
      var i :| 0 <= i < |calls| && calls[i] == call;
      WithoutAt(calls, i);
    } else {
      WithoutAbsent(calls, call);
    }
  }

  lemma {:induction false} RejectAll(outcomes: map<nat, Outcome>, calls: seq<nat>)
    ensures forall x :: x in Reject(outcomes, calls) <==> x in outcomes || x in calls
    ensures forall x | x in Reject(outcomes, calls) ::
              Reject(outcomes, calls)[x] == if x in outcomes then outcomes[x] else Stopped
  {
    if calls != [] {
      RejectAll(outcomes, calls[..|calls| - 1]);
      assert calls == calls[..|calls| - 1] + [calls[|calls| - 1]];
    }
  }

  // ----- The invariant ---------------------------------------------------------------------

  /** How often a call has gone out, given whether it is still waiting for the service. */
  predicate WellDispatched(p: Proxy, call: nat)
    requires call < |p.kinds|
  {
    var times := Times(p.dispatched, call);
    if p.kinds[call] == Internal then 1 <= times <= 2 && (call in p.pending ==> times == 1)
    else times == if !p.started && call in p.pending then 0 else 1
  }

  ghost predicate Inv(p: Proxy) {
    && Increasing(p.pending) && p.epoch <= |p.kinds|
    && (forall call | call in p.pending :: call < |p.kinds| && call !in p.outcomes)
    && (forall call :: call >= |p.kinds| ==> Times(p.dispatched, call) == 0)
    && (forall call | call in p.outcomes :: call < |p.kinds|)
    && (forall call | 0 <= call < |p.kinds| :: WellDispatched(p, call))
    && (p.started ==> forall call ::
          call in p.pending <==> p.epoch <= call < |p.kinds| && p.kinds[call] != Send && call !in p.outcomes)
  }

  lemma ApplyKeepsInv(p: Proxy, kind: Kind)
    requires Inv(p)
    ensures Inv(Step(p, Apply(kind)))
  {
    var after := Step(p, Apply(kind));
    var call := |p.kinds|;
    forall i | 0 <= i < |p.pending| ensures p.pending[i] < call {
      assert p.pending[i] in p.pending;
    }
    forall c ensures Times(after.dispatched, c)
                     == Times(p.dispatched, c) + if c == call && (p.started || kind == Internal) then 1 else 0
    {
      if p.started || kind == Internal {
        TimesAppend(p.dispatched, [Dispatch(call, p.target)], c);
        TimesOne(call, p.target, c);
      } else {
        assert after.dispatched == p.dispatched;
      }
    }
    forall c | 0 <= c < |after.kinds| ensures WellDispatched(after, c) {
      if c < call {
        assert WellDispatched(p, c);
      }
    }
  }

  lemma AnswerKeepsInv(p: Proxy, call: nat, ok: bool)
    requires Inv(p) && Enabled(p, Answer(call, ok))
    ensures Inv(Step(p, Answer(call, ok)))
  {
    WithoutMembers(p.pending, call);
    WithoutIncreasing(p.pending, call);
    var after := Step(p, Answer(call, ok));
    forall c | 0 <= c < |after.kinds| ensures WellDispatched(after, c) {
      assert WellDispatched(p, c);
    }
  }

  lemma StartDispatchesPending(p: Proxy, direct: bool, sender: Key, call: nat)
    requires Increasing(p.pending) && !p.started
    ensures Times(Step(p, Start(direct, sender)).dispatched, call)
            == Times(p.dispatched, call) + if call in p.pending then 1 else 0
  {
    var target := if direct then Some(sender) else p.target;
    TimesAppend(p.dispatched, DispatchAll(p.pending, target), call);
    TimesAll(p.pending, target, call);
  }

  lemma StartKeepsInv(p: Proxy, direct: bool, sender: Key)
    requires Inv(p)
    ensures Inv(Step(p, Start(direct, sender)))
  {
    if !p.started {
      var after := Step(p, Start(direct, sender));
      forall c ensures Times(after.dispatched, c) == Times(p.dispatched, c) + if c in p.pending then 1 else 0 {
        StartDispatchesPending(p, direct, sender, c);
      }
      forall c | 0 <= c < |after.kinds| ensures WellDispatched(after, c) {
        assert WellDispatched(p, c);
      }
    }
  }

  lemma StopKeepsInv(p: Proxy)
    requires Inv(p)
    ensures Inv(Step(p, Stop))
  {
    RejectAll(p.outcomes, p.pending);
    var after := Step(p, Stop);
    forall c | 0 <= c < |after.kinds| ensures WellDispatched(after, c) {
      assert WellDispatched(p, c);
    }
  }

  lemma StepKeepsInv(p: Proxy, e: Event)
    requires Inv(p) && Enabled(p, e)
    ensures Inv(Step(p, e))
  {
    match e
    case Apply(kind) => ApplyKeepsInv(p, kind);
    case Answer(call, ok) => AnswerKeepsInv(p, call, ok);
    case Start(direct, sender) => StartKeepsInv(p, direct, sender);
    case Stop => StopKeepsInv(p);
  }

  // ----- Whole runs ----------------------------------------------------------------------------

  function Run(p: Proxy, events: seq<Event>): Proxy
    decreases |events|
  {
    if events == [] then p else Run(Step(p, events[0]), events[1..])
  }

  predicate Possible(p: Proxy, events: seq<Event>)
    decreases |events|
  {
    events == [] || (Enabled(p, events[0]) && Possible(Step(p, events[0]), events[1..]))
  }

  lemma {:induction false} RunKeepsInv(p: Proxy, events: seq<Event>)
    requires Inv(p) && Possible(p, events)
    ensures Inv(Run(p, events))
    decreases |events|
  {
    if events != [] {
      StepKeepsInv(p, events[0]);
      RunKeepsInv(Step(p, events[0]), events[1..]);
    }
  }

  /**
   Over any run no requested or sent call is dispatched twice, and one that was not
   dispatched is still waiting for the service to start.
   */
  lemma NeverDispatchedTwice(events: seq<Event>, call: nat)
    requires Possible(EMPTY, events)
    requires call < |Run(EMPTY, events).kinds| && Run(EMPTY, events).kinds[call] != Internal
    ensures var p := Run(EMPTY, events);
            && Times(p.dispatched, call) <= 1
            && (Times(p.dispatched, call) == 0 <==> !p.started && call in p.pending)
  {
    RunKeepsInv(EMPTY, events);
    assert WellDispatched(Run(EMPTY, events), call);
  }

  /**
   A start sends out what was waiting, in call order, and then every requested or sent
   call made so far has gone out exactly once.
   */
  lemma StartDispatchesEverything(events: seq<Event>, direct: bool, sender: Key)
    requires Possible(EMPTY, events) && !Run(EMPTY, events).started
    ensures var p := Run(EMPTY, events);
            var after := Step(p, Start(direct, sender));
            && after.dispatched == p.dispatched + DispatchAll(p.pending, after.target)
            && Increasing(p.pending)
            && (forall call | 0 <= call < |p.kinds| && p.kinds[call] != Internal ::
                  Times(after.dispatched, call) == 1 && (call in p.pending <==> Times(p.dispatched, call) == 0))
  {
    RunKeepsInv(EMPTY, events);
    var p := Run(EMPTY, events);
    StartKeepsInv(p, direct, sender);
    forall call | 0 <= call < |p.kinds| && p.kinds[call] != Internal
      ensures Times(Step(p, Start(direct, sender)).dispatched, call) == 1
      ensures call in p.pending <==> Times(p.dispatched, call) == 0
    {
      assert WellDispatched(p, call);
      assert WellDispatched(Step(p, Start(direct, sender)), call);
    }
  }

  /** Of two waiting calls the one made first goes out first. */
  lemma StartKeepsCallOrder(events: seq<Event>, direct: bool, sender: Key, i: nat, j: nat)
    requires Possible(EMPTY, events) && !Run(EMPTY, events).started
    requires var sent, after := Run(EMPTY, events).dispatched, Step(Run(EMPTY, events), Start(direct, sender)).dispatched;
             |sent| <= i < j < |after|
    ensures var after := Step(Run(EMPTY, events), Start(direct, sender)).dispatched;
            after[i].call < after[j].call
  {
    RunKeepsInv(EMPTY, events);
    var p := Run(EMPTY, events);
    var target := Step(p, Start(direct, sender)).target;
    assert DispatchAll(p.pending, target)[i - |p.dispatched|].call == p.pending[i - |p.dispatched|];
    assert DispatchAll(p.pending, target)[j - |p.dispatched|].call == p.pending[j - |p.dispatched|];
  }

  /**
   A stop rejects exactly the unanswered calls made since the start. A call that waited
   for the start and is still unanswered is left without an outcome.
   */
  lemma StopRejectsCallsOfSession(events: seq<Event>, call: nat)
    requires Possible(EMPTY, events) && Run(EMPTY, events).started && call < |Run(EMPTY, events).kinds|
    ensures var p := Run(EMPTY, events);
            var after := Step(p, Stop);
            if call in p.outcomes then call in after.outcomes && after.outcomes[call] == p.outcomes[call]
            else if p.epoch <= call && p.kinds[call] != Send then call in after.outcomes && after.outcomes[call] == Stopped
            else call !in after.outcomes
  {
    RunKeepsInv(EMPTY, events);
    RejectAll(Run(EMPTY, events).outcomes, Run(EMPTY, events).pending);
  }

  /** A status call goes out again exactly when the service starts before it was answered. */
  lemma InternalCallRepeats(events: seq<Event>, call: nat, direct: bool, sender: Key)
    requires Possible(EMPTY, events) && !Run(EMPTY, events).started
    requires call < |Run(EMPTY, events).kinds| && Run(EMPTY, events).kinds[call] == Internal
    ensures var p := Run(EMPTY, events);
            Times(Step(p, Start(direct, sender)).dispatched, call)
            == if call in p.pending then 2 else Times(p.dispatched, call)
  {
    RunKeepsInv(EMPTY, events);
    var p := Run(EMPTY, events);
    assert WellDispatched(p, call);
    StartDispatchesPending(p, direct, sender, call);
  }

  // ----- The service calls go to, and where outcomes come from ---------------------------------

  /** The start that is in force after the events: the first one since the last stop. */
  function InForce(events: seq<Event>): Option<Event> {
    if events == [] then None
    else
      var before := InForce(events[..|events| - 1]);
      match events[|events| - 1]
      case Start(_, _) => if before == None then Some(events[|events| - 1]) else before
      case Stop => None
      case _ => before
  }

  /** A direct service is called at the peer that announced it. */
  function Announcer(start: Option<Event>): Option<Key> {
    match start
    case Some(Start(direct, sender)) => if direct then Some(sender) else None
    case _ => None
  }

  lemma {:induction false} RunLast(p: Proxy, events: seq<Event>, e: Event)
    ensures Run(p, events + [e]) == Step(Run(p, events), e)
    decreases |events|
  {
    if events == [] {
      assert [] + [e] == [e] && [e][1..] == [] && Run(Step(p, e), []) == Step(p, e);
    } else {
      RunLast(Step(p, events[0]), events[1..], e);
      assert (events + [e])[1..] == events[1..] + [e];
    }
  }

  /** The proxy is started and aimed exactly as the start in force says. */
  lemma {:induction false} RunFollowsService(events: seq<Event>)
    ensures Run(EMPTY, events).started <==> InForce(events).Some?
    ensures Run(EMPTY, events).target == Announcer(InForce(events))
    ensures InForce(events).Some? ==> InForce(events).value.Start?
  {
    if events != [] {
      var init, last := events[..|events| - 1], events[|events| - 1];
      assert events == init + [last];
      RunFollowsService(init);
      RunLast(EMPTY, init, last);
    }
  }

  /** Whatever an event sends out, delayed calls included, goes to the service in force then. */
  lemma CallsGoToService(events: seq<Event>, e: Event)
    ensures var sent, after := Run(EMPTY, events).dispatched, Run(EMPTY, events + [e]).dispatched;
            && sent <= after
            && forall i | |sent| <= i < |after| :: after[i].target == Announcer(InForce(events + [e]))
  {
    RunFollowsService(events);
    RunLast(EMPTY, events, e);
    assert (events + [e])[..|events|] == events;
  }

  /** A call is answered as the bus answered it, and rejected for a stop only by a stop. */
  lemma {:induction false} OutcomeHasCause(p: Proxy, events: seq<Event>, call: nat)
    requires call !in p.outcomes
    ensures call in Run(p, events).outcomes ==>
              match Run(p, events).outcomes[call]
              case Answered(ok) => Answer(call, ok) in events
              case Stopped => Stop in events
    ensures (exists ok :: Answer(call, ok) in events) ==> call in Run(p, events).outcomes
    decreases |events|
  {
    if events != [] {
      var next, rest := Step(p, events[0]), events[1..];
      assert events == [events[0]] + rest;
      RejectAll(p.outcomes, p.pending);
      if call in next.outcomes {
        OutcomeStays(next, rest, call);
      } else {
        OutcomeHasCause(next, rest, call);
      }
    }
  }

  lemma {:induction false} OutcomeStays(p: Proxy, events: seq<Event>, call: nat)
    requires call in p.outcomes
    ensures call in Run(p, events).outcomes && Run(p, events).outcomes[call] == p.outcomes[call]
    decreases |events|
  {
    if events != [] {
      RejectAll(p.outcomes, p.pending);
      OutcomeStays(Step(p, events[0]), events[1..], call);
    }
  }

  lemma RunFirst(p: Proxy, e: Event, events: seq<Event>)
    ensures Run(p, [e] + events) == Run(Step(p, e), events)
  {
    assert ([e] + events)[1..] == events;
  }

  /** A status call made while the service is stopped goes out again at the start. */
  lemma StatusGoesOutTwice(sender: Key)
    ensures Times(Run(EMPTY, [Apply(Internal), Start(false, sender)]).dispatched, 0) == 2
  {
    var start := Start(false, sender);
    var asked := Proxy(false, None, [0], [Internal], [Dispatch(0, None)], map[], 0);
    assert Step(EMPTY, Apply(Internal)) == asked;
    assert [Apply(Internal), start] == [Apply(Internal)] + ([start] + []);
    RunFirst(EMPTY, Apply(Internal), [start] + []);
    RunFirst(asked, start, []);
    TimesOne(0, None, 0);
    StartDispatchesPending(asked, false, sender, 0);
  }

  /** A request made while the service is stopped, sent at the start, is unsettled after the stop. */
  lemma DelayedRequestLeftOpen(sender: Key)
    ensures var p := Run(EMPTY, [Apply(Request), Start(false, sender), Stop]);
            !p.started && p.dispatched == [Dispatch(0, None)] && p.outcomes == map[]
  {
    var start := Start(false, sender);
    var waiting := Proxy(false, None, [0], [Request], [], map[], 0);
    var started := Proxy(true, None, [], [Request], [Dispatch(0, None)], map[], 1);
    assert Step(EMPTY, Apply(Request)) == waiting;
    assert DispatchAll([0], None) == [Dispatch(0, None)];
    assert Step(waiting, start) == started;
    assert [Apply(Request), start, Stop] == [Apply(Request)] + ([start] + ([Stop] + []));
    RunFirst(EMPTY, Apply(Request), [start] + ([Stop] + []));
    RunFirst(waiting, start, [Stop] + []);
    RunFirst(started, Stop, []);
  }
}

/** The proxy, updated in place. */
module ServiceProxy {
  import opened Common
  import opened ServiceQueue

  class IpcBusServiceProxyImpl {
    var isStarted: bool
    var target: Option<Key>
    var pendingCalls: seq<nat>
    // All calls made, what went out, and how the promises were settled.
    var kinds: seq<Kind>
    var dispatched: seq<Dispatch>
    var outcomes: map<nat, Outcome>
    ghost var epoch: nat

    ghost predicate Valid()
      reads this
    {
      Inv(Value())
    }

    ghost function Value(): Proxy
      reads this
    {
      Proxy(isStarted, target, pendingCalls, kinds, dispatched, outcomes, epoch)
    }

    constructor ()
      ensures Valid() && Value() == EMPTY
    {
      isStarted, target, pendingCalls := false, None, [];
      kinds, dispatched, outcomes, epoch := [], [], map[], 0;
    }

    method Execute(call: nat)
      requires call < |kinds|
      modifies this`dispatched, this`pendingCalls
      ensures dispatched == old(dispatched) + [Dispatch(call, target)]
      ensures pendingCalls == if kinds[call] == Send then Without(old(pendingCalls), call) else old(pendingCalls)
    {
      dispatched := dispatched + [Dispatch(call, target)];
      if kinds[call] == Send {
        pendingCalls := Without(pendingCalls, call);
      }
    }

    /** `requestApply`, `sendApply` and the internal status call. */
    method Apply(kind: Kind) returns (call: nat)
      requires Valid()
      modifies this
      ensures Valid() && call == |old(kinds)|
      ensures Value() == Step(old(Value()), Event.Apply(kind))
    {
      ApplyKeepsInv(Value(), kind);
      call := |kinds|;
      kinds := kinds + [kind];
      if kind == Send && isStarted {
        dispatched := dispatched + [Dispatch(call, target)];
      } else {
        pendingCalls := pendingCalls + [call];
        if kind == Internal || isStarted {
          Execute(call);
        }
      }
      assert Value() == Step(old(Value()), Event.Apply(kind));
    }

    method OnAnswer(call: nat, ok: bool)
      requires Valid() && Enabled(Value(), Answer(call, ok))
      modifies this`pendingCalls, this`outcomes
      ensures Valid()
      ensures Value() == Step(old(Value()), Answer(call, ok))
    {
      AnswerKeepsInv(Value(), call, ok);
      pendingCalls := Without(pendingCalls, call);
      if call !in outcomes {
        outcomes := outcomes[call := Answered(ok)];
      }
    }

    /** Visits the pending calls while the sent ones among them delete themselves. */
    method DispatchPending()
      requires Increasing(pendingCalls) && forall call | call in pendingCalls :: call < |kinds|
      modifies this`dispatched, this`pendingCalls
      ensures dispatched == old(dispatched) + DispatchAll(old(pendingCalls), target)
    {
      ghost var calls, n := pendingCalls, 0;
      var i := 0;
      while i < |pendingCalls|
        invariant 0 <= i <= |pendingCalls| && n <= |calls|
        invariant pendingCalls[i..] == calls[n..] && Increasing(pendingCalls)
        invariant dispatched == old(dispatched) + DispatchAll(calls[..n], target)
        decreases |calls| - n
      {
        var call := pendingCalls[i];
        assert call == pendingCalls[i..][0] == calls[n..][0] == calls[n] && calls[n] in calls;
        assert pendingCalls[i + 1..] == pendingCalls[i..][1..] == calls[n..][1..] == calls[n + 1..];
        DispatchOneMore(calls, n, target);
        WithoutVisited(pendingCalls, i);
        Execute(call);
        if kinds[call] != Send {
          i := i + 1;
        }
        n := n + 1;
      }
      assert calls[n..] == [] && calls[..n] == calls;
    }

    method OnServiceStart(direct: bool, sender: Key)
      requires Valid()
      modifies this
      ensures Valid()
      ensures Value() == Step(old(Value()), Start(direct, sender))
    {
      StartKeepsInv(Value(), direct, sender);
      if !isStarted {
        isStarted := true;
        if direct {
          target := Some(sender);
        }
        DispatchPending();
        pendingCalls := [];
        epoch := |kinds|;
      }
    }

    method OnServiceStop()
      requires Valid()
      modifies this
      ensures Valid()
      ensures Value() == Step(old(Value()), Stop)
    {
      StopKeepsInv(Value());
      if isStarted {
        isStarted := false;
        for i := 0 to |pendingCalls|
          invariant pendingCalls == old(pendingCalls) && !isStarted && target == old(target)
          invariant outcomes == Reject(old(outcomes), pendingCalls[..i])
          invariant kinds == old(kinds) && dispatched == old(dispatched) && epoch == old(epoch)
        {
          assert pendingCalls[..i + 1][..i] == pendingCalls[..i];
          if pendingCalls[i] !in outcomes {
            outcomes := outcomes[pendingCalls[i] := Stopped];
          }
        }
        assert pendingCalls[..|pendingCalls|] == pendingCalls;
        pendingCalls := [];
        target := None;
      }
    }
  }
}
