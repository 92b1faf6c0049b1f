/** The life of requests: posted, answered, timed out, cancelled; each is settled once. */
module RequestLedger {
  import opened Common

  /** Whoever posted a request; clients are told apart by identity. */
  type Client = nat

  type Value = string

  /** `channel` is the id the response is looked up by, `requestId` the id it carries. */
  datatype Response = Response(channel: Key, requestId: Key, from: Key, resolve: bool, args: seq<Value>)

  datatype Outcome =
    | Fulfilled(from: Key, payload: Option<Value>)
    | Failed(from: Key, err: Value)
    | TimedOut

  /** A rejection without an argument fails while it reads the argument; the error prints as an empty object. */
  function Judge(r: Response): Outcome {
    if r.resolve then Fulfilled(r.from, if r.args == [] then None else Some(r.args[0]))
    else Failed(r.from, if r.args == [] then "{}" else r.args[0])
  }

  /** `table` holds the pending requests, `timers` the armed timers. */
  datatype Ledger = Ledger(
    issued: map<Key, Client>,
    table: map<Key, Client>,
    outcomes: map<Key, Outcome>,
    timers: set<Key>)

  const EMPTY := Ledger(map[], map[], map[], {})

  datatype Event =
    | Post(id: Key, client: Client)
    | PostGlobally(id: Key, timeout: int)
    | Arrive(response: Response)
    | TimerFires(id: Key)
    | Cancel(whose: Option<Client>)

  predicate Hit(client: Option<Client>, owner: Client) {
    client == None || client == Some(owner)
  }

  function Cancelled(l: Ledger, client: Option<Client>): set<Key> {
    set id | id in l.table && Hit(client, l.table[id])
  }

  predicate Enabled(l: Ledger, e: Event) {
    match e
    case Post(id, _) => id !in l.issued
    case PostGlobally(id, _) => id in l.issued
    case TimerFires(id) => id in l.timers
    case _ => true
  }

  function Step(l: Ledger, e: Event): Ledger {
    match e
    case Post(id, client) => l.(issued := l.issued[id := client], table := l.table[id := client])
    case PostGlobally(id, timeout) =>
      if timeout >= 0 then l.(timers := l.timers + {id}) else l
    case Arrive(r) =>
      if r.channel in l.table
      then l.(table := l.table - {r.requestId}, outcomes := KeepFirst(l.outcomes, r.channel, Judge(r)))
      else l
    case TimerFires(id) =>
      if id in l.table
      then l.(timers := l.timers - {id}, table := l.table - {id}, outcomes := KeepFirst(l.outcomes, id, TimedOut))
      else l.(timers := l.timers - {id})
    case Cancel(client) => TimeOut(l, Cancelled(l, client))
  }

  function TimeOut(l: Ledger, ids: set<Key>): Ledger {
    l.(table := l.table - ids,
       outcomes := map id | id in l.outcomes.Keys + ids :: if id in l.outcomes then l.outcomes[id] else TimedOut)
  }

  lemma TimeOutNone(l: Ledger)
    ensures TimeOut(l, {}) == l
  {
    assert TimeOut(l, {}).outcomes == l.outcomes;
  }

  lemma TimeOutOneMore(l: Ledger, ids: set<Key>, id: Key)
    ensures TimeOut(TimeOut(l, ids), {id}) == TimeOut(l, ids + {id})
  {
    assert l.table - ids - {id} == l.table - (ids + {id});
    assert TimeOut(TimeOut(l, ids), {id}).outcomes == TimeOut(l, ids + {id}).outcomes;
  }

  /** Issued requests split into pending and settled ones, and only issued ones have timers. */
  ghost predicate Balanced(l: Ledger) {
    && l.table.Keys !! l.outcomes.Keys
    && l.table.Keys + l.outcomes.Keys == l.issued.Keys
    && (forall id | id in l.table :: l.table[id] == l.issued[id])
    && l.timers <= l.issued.Keys
  }

  /** A response keeps the books exactly when it carries the id it is looked up by, or finds nothing. */
  lemma ArrivalKeepsBalance(l: Ledger, r: Response)
    requires Balanced(l)
    ensures Balanced(Step(l, Arrive(r))) <==> r.channel !in l.table || r.requestId == r.channel
  {
    var after := Step(l, Arrive(r));
    if r.channel in l.table {
      if r.requestId == r.channel {
        assert after.table.Keys == l.table.Keys - {r.channel};
        assert after.outcomes.Keys == l.outcomes.Keys + {r.channel};
      } else {
        assert r.channel in after.table.Keys && r.channel in after.outcomes.Keys;
      }
    }
  }

  /** A response looked up by one id and carrying another settles a request that stays pending. */
  lemma StrayResponseSettlesPending(client: Client, from: Key)
    ensures var l := Step(EMPTY, Post("a", client));
            var after := Step(l, Arrive(Response("a", "b", from, true, [])));
            Balanced(l) && "a" in after.table && "a" in after.outcomes
  {
    var l := Step(EMPTY, Post("a", client));
    assert l.table.Keys == {"a"} == l.issued.Keys;
  }

  predicate Honest(e: Event) {
    e.Arrive? ==> e.response.requestId == e.response.channel
  }

  lemma StepKeepsBalance(l: Ledger, e: Event)
    requires Balanced(l) && Enabled(l, e) && Honest(e)
    ensures Balanced(Step(l, e))
    ensures forall id | id in l.outcomes :: id in Step(l, e).outcomes && Step(l, e).outcomes[id] == l.outcomes[id]
  {
    match e
    case Post(id, client) =>
    case PostGlobally(id, timeout) =>
    case Arrive(r) => ArrivalKeepsBalance(l, r);
    case TimerFires(id) =>
    case Cancel(client) =>
      var hit := Cancelled(l, client);
      assert Step(l, e).table.Keys == l.table.Keys - hit;
      assert Step(l, e).outcomes.Keys == l.outcomes.Keys + hit;
  }

  // ----- Whole runs ------------------------------------------------------------------------

  function Run(l: Ledger, events: seq<Event>): Ledger
    decreases |events|
  {
    if events == [] then l else Run(Step(l, events[0]), events[1..])
  }

  ghost predicate Possible(l: Ledger, events: seq<Event>)
    decreases |events|
  {
    events == [] || (Enabled(l, events[0]) && Honest(events[0]) && Possible(Step(l, events[0]), events[1..]))
  }

  /** On every run the books balance, and a settled request keeps its outcome for ever. */
  lemma {:induction false} RunKeepsBalance(l: Ledger, events: seq<Event>)
    requires Balanced(l) && Possible(l, events)
    ensures Balanced(Run(l, events))
    ensures forall id | id in l.outcomes :: id in Run(l, events).outcomes && Run(l, events).outcomes[id] == l.outcomes[id]
    decreases |events|
  {
    if events != [] {
      StepKeepsBalance(l, events[0]);
      RunKeepsBalance(Step(l, events[0]), events[1..]);
    }
  }

  /**
   The fate of one request read off the history alone: after it was posted by `owner`,
   the first response, timer or cancellation that concerns it decides.
   */
  function Verdict(owner: Option<Client>, events: seq<Event>, id: Key): Option<Outcome>
    decreases |events|
  {
    if events == [] then None
    else
      match events[0]
      case Post(id', client) => Verdict(if id' == id then Some(client) else owner, events[1..], id)
      case Arrive(r) =>
        if owner.Some? && r.channel == id then Some(Judge(r)) else Verdict(owner, events[1..], id)
      case TimerFires(id') =>
        if owner.Some? && id' == id then Some(TimedOut) else Verdict(owner, events[1..], id)
      case Cancel(client) =>
        if owner.Some? && Hit(client, owner.value) then Some(TimedOut) else Verdict(owner, events[1..], id)
      case PostGlobally(_, _) => Verdict(owner, events[1..], id)
  }

  function Fate(l: Ledger, id: Key): Option<Outcome> {
    if id in l.outcomes then Some(l.outcomes[id]) else None
  }

  function Owner(l: Ledger, id: Key): Option<Client> {
    if id in l.table then Some(l.table[id]) else None
  }

  /** Whatever else happens in between, the ledger gives every request the verdict of its own history. */
  lemma {:induction false} FateIsVerdict(l: Ledger, events: seq<Event>, id: Key)
    requires Balanced(l) && Possible(l, events)
    ensures Fate(Run(l, events), id) == if id in l.outcomes then Fate(l, id) else Verdict(Owner(l, id), events, id)
    decreases |events|
  {
    if id in l.outcomes {
      RunKeepsBalance(l, events);
    } else if events != [] {
      var e, next := events[0], Step(l, events[0]);
      StepKeepsBalance(l, e);
      FateIsVerdict(next, events[1..], id);
    }
  }

  lemma FirstAnswerWins(events: seq<Event>, id: Key)
    requires Possible(EMPTY, events)
    ensures Fate(Run(EMPTY, events), id) == Verdict(None, events, id)
  {
    FateIsVerdict(EMPTY, events, id);
  }

  // ----- Timers -----------------------------------------------------------------------------

  /** The request is known, and does not wait without a timer. */
  predicate Timed(l: Ledger, id: Key) {
    id in l.issued && (id in l.table ==> id in l.timers)
  }

  lemma {:induction false} TimedForEver(l: Ledger, events: seq<Event>, id: Key)
    requires Balanced(l) && Possible(l, events) && Timed(l, id)
    ensures Timed(Run(l, events), id)
    decreases |events|
  {
    if events != [] {
      StepKeepsBalance(l, events[0]);
      TimedForEver(Step(l, events[0]), events[1..], id);
    }
  }

  /** A request that was posted globally with a timeout never waits without a timer, whatever else happens. */
  lemma {:induction false} TimeoutIsGuarded(l: Ledger, events: seq<Event>, id: Key, timeout: int)
    requires Balanced(l) && Possible(l, events)
    requires PostGlobally(id, timeout) in events && timeout >= 0
    ensures id in Run(l, events).table ==> id in Run(l, events).timers
    decreases |events|
  {
    StepKeepsBalance(l, events[0]);
    if events[0] == PostGlobally(id, timeout) {
      TimedForEver(Step(l, events[0]), events[1..], id);
    } else {
      TimeoutIsGuarded(Step(l, events[0]), events[1..], id, timeout);
    }
  }

  /** A request that is only ever posted without a timeout has no timer, so that none can reject it. */
  lemma {:induction false} NoTimeoutNoTimer(l: Ledger, events: seq<Event>, id: Key)
    requires Possible(l, events) && id !in l.timers
    requires forall timeout :: PostGlobally(id, timeout) in events ==> timeout < 0
    ensures id !in Run(l, events).timers && TimerFires(id) !in events
    decreases |events|
  {
    if events != [] {
      assert events[0] in events && forall e :: e in events[1..] ==> e in events;
      NoTimeoutNoTimer(Step(l, events[0]), events[1..], id);
      assert events == [events[0]] + events[1..];
    }
  }

  function Fires(events: seq<Event>, id: Key): nat {
    if events == [] then 0 else (if events[0] == TimerFires(id) then 1 else 0) + Fires(events[1..], id)
  }

  function Arms(events: seq<Event>, id: Key): nat {
    if events == [] then 0
    else
      (if events[0].PostGlobally? && events[0].id == id && events[0].timeout >= 0 then 1 else 0) + Arms(events[1..], id)
  }

  /** A timer fires at most once for each time it was armed. */
  lemma {:induction false} TimersFireOnce(l: Ledger, events: seq<Event>, id: Key)
    requires Possible(l, events)
    ensures Fires(events, id) + (if id in Run(l, events).timers then 1 else 0)
            <= Arms(events, id) + if id in l.timers then 1 else 0
    decreases |events|
  {
    if events != [] {
      TimersFireOnce(Step(l, events[0]), events[1..], id);
    }
  }

  // ----- Where outcomes come from ---------------------------------------------------------------

  /** Something in the history accounts for the outcome. */
  ghost predicate Caused(outcome: Outcome, events: seq<Event>, id: Key, owner: Client) {
    match outcome
    case Fulfilled(from, payload) =>
      exists r :: Arrive(r) in events && r.channel == id && r.resolve && r.from == from
                  && payload == if |r.args| > 0 then Some(r.args[0]) else None
    case Failed(from, err) =>
      exists r :: Arrive(r) in events && r.channel == id && !r.resolve && r.from == from
                  && err == if |r.args| > 0 then r.args[0] else "{}"
    case TimedOut =>
      TimerFires(id) in events || Cancel(None) in events || Cancel(Some(owner)) in events
  }

  lemma CauseStays(outcome: Outcome, some: seq<Event>, events: seq<Event>, id: Key, owner: Client)
    requires Caused(outcome, some, id, owner) && forall e | e in some :: e in events
    ensures Caused(outcome, events, id, owner)
  {
    match outcome
    case Fulfilled(from, payload) =>
      var r :| Arrive(r) in some && r.channel == id && r.resolve && r.from == from
               && payload == if |r.args| > 0 then Some(r.args[0]) else None;
      assert Arrive(r) in events;
    case Failed(from, err) =>
      var r :| Arrive(r) in some && r.channel == id && !r.resolve && r.from == from
               && err == if |r.args| > 0 then r.args[0] else "{}";
      assert Arrive(r) in events;
    case TimedOut =>
  }

  /** The step that settles the request accounts for its outcome. */
  lemma StepCauses(l: Ledger, e: Event, id: Key)
    requires Balanced(l) && id in l.issued && id !in l.outcomes && id in Step(l, e).outcomes
    ensures Caused(Step(l, e).outcomes[id], [e], id, l.issued[id])
  {
    assert e in [e];
    match e
    case Arrive(r) => assert Arrive(r) in [e] && r.channel == id;
    case Cancel(client) => assert client == None || client == Some(l.issued[id]);
    case _ =>
  }

  /**
   A request is fulfilled only by a response to it that resolves, with the sender and the
   first argument of that response; it fails only by one that rejects; and it times out
   only by its timer or a cancellation that concerns its owner.
   */
  lemma {:induction false} OutcomeHasCause(l: Ledger, events: seq<Event>, id: Key)
    requires Balanced(l) && Possible(l, events)
    requires id !in l.outcomes && id in Run(l, events).outcomes
    ensures id in Run(l, events).issued
    ensures Caused(Run(l, events).outcomes[id], events, id, Run(l, events).issued[id])
    decreases |events|
  {
    RunKeepsBalance(l, events);
    var next, rest := Step(l, events[0]), events[1..];
    StepKeepsBalance(l, events[0]);
    assert events == [events[0]] + rest;
    if id in next.outcomes {
      RunKeepsBalance(next, rest);
      StepCauses(l, events[0], id);
      OwnerStays(next, rest, id);
      CauseStays(next.outcomes[id], [events[0]], events, id, l.issued[id]);
    } else {
      OutcomeHasCause(next, rest, id);
      CauseStays(Run(l, events).outcomes[id], rest, events, id, Run(l, events).issued[id]);
    }
  }

  lemma {:induction false} OwnerStays(l: Ledger, events: seq<Event>, id: Key)
    requires Possible(l, events) && id in l.issued
    ensures id in Run(l, events).issued && Run(l, events).issued[id] == l.issued[id]
    decreases |events|
  {
    if events != [] {
      OwnerStays(Step(l, events[0]), events[1..], id);
    }
  }

  // ----- Leaving and shutting down -----------------------------------------------------------

  /** A client that leaves takes exactly its own pending requests with it. */
  lemma LeavingCancelsOwn(l: Ledger, client: Client)
    requires Balanced(l)
    ensures var after := Step(l, Cancel(Some(client)));
            && Balanced(after)
            && (forall id | id in l.issued ::
                  Fate(after, id) == if id in l.table && l.issued[id] == client then Some(TimedOut) else Fate(l, id))
            && (forall id | id in l.issued && l.issued[id] != client :: Owner(after, id) == Owner(l, id))
            && (forall id | id in after.table :: after.table[id] != client)
  {
    StepKeepsBalance(l, Cancel(Some(client)));
  }

  /** Before the connector shuts down every pending request is rejected. */
  lemma ShutdownCancelsAll(l: Ledger)
    requires Balanced(l)
    ensures var after := Step(l, Cancel(None));
            && after.table == map[] && after.outcomes.Keys == l.issued.Keys
            && forall id | id in l.table :: Fate(after, id) == Some(TimedOut)
  {
    StepKeepsBalance(l, Cancel(None));
    assert Cancelled(l, None) == l.table.Keys;
  }
}

/** Pending requests as a transport keeps them: one promise object each. */
module Requests {
  import opened Common
  import opened RequestLedger

  class DeferredRequestPromise {
    const id: Key
    const client: Client
    var settled: bool
    // The state of the promise: the first resolution or rejection, if there was one.
    var outcome: Option<Outcome>

    ghost predicate Valid()
      reads this
    {
      settled ==> outcome.Some?
    }

    constructor (id: Key, client: Client)
      ensures Valid() && this.id == id && this.client == client && outcome == None
    {
      this.id, this.client, settled, outcome := id, client, false, None;
    }

    method ResolveOrReject(o: Outcome)
      modifies this`outcome
      ensures outcome == if old(outcome).Some? then old(outcome) else Some(o)
    {
      if outcome == None {
        outcome := Some(o);
      }
    }

    method Settled(r: Response)
      requires Valid()
      modifies this
      ensures Valid()
      ensures outcome == if old(outcome).Some? then old(outcome) else Some(Judge(r))
    {
      if !settled {
        if r.resolve {
          ResolveOrReject(Fulfilled(r.from, if r.args == [] then None else Some(r.args[0])));
        } else if r.args != [] {
          ResolveOrReject(Failed(r.from, r.args[0]));
        } else {
          ResolveOrReject(Failed(r.from, "{}"));
        }
        settled := true;
      }
    }

    method Timeout()
      requires Valid()
      modifies this
      ensures Valid()
      ensures outcome == if old(outcome).Some? then old(outcome) else Some(TimedOut)
    {
      ResolveOrReject(TimedOut);
    }
  }

  /** The transport's table; `ledger` is the value it stands for, promises handed out included. */
  class RequestTable {
    var requestFunctions: map<Key, DeferredRequestPromise>
    var timers: set<Key>
    ghost var issued: map<Key, DeferredRequestPromise>
    ghost var ledger: Ledger

    ghost predicate Valid()
      reads this, issued.Values
    {
      && ledger.issued.Keys == issued.Keys && ledger.outcomes.Keys <= issued.Keys
      && ledger.table.Keys == requestFunctions.Keys && ledger.timers == timers
      && (forall id | id in issued :: Tracks(id))
      && (forall id | id in requestFunctions ::
            id in issued && requestFunctions[id] == issued[id] && ledger.table[id] == issued[id].client)
    }

    /** The promise is in the state the ledger says. */
    ghost predicate Tracks(id: Key)
      requires id in issued
      reads this, issued[id]
    {
      && issued[id].Valid() && issued[id].id == id
      && id in ledger.issued && ledger.issued[id] == issued[id].client
      && issued[id].outcome == Fate(ledger, id)
    }

    constructor ()
      ensures Valid() && ledger == EMPTY && issued == map[]
    {
      requestFunctions, timers, issued, ledger := map[], {}, map[], EMPTY;
    }

    /** Registers the request before it is broadcast. */
    method Post(id: Key, client: Client) returns (promise: DeferredRequestPromise)
      requires Valid() && id !in issued
      modifies this
      ensures Valid() && fresh(promise) && issued == old(issued)[id := promise]
      ensures ledger == Step(old(ledger), RequestLedger.Post(id, client))
    {
      promise := new DeferredRequestPromise(id, client);
      requestFunctions := requestFunctions[id := promise];
      issued := issued[id := promise];
      ledger := Step(ledger, RequestLedger.Post(id, client));
      forall id' | id' in issued ensures Tracks(id') {
        assert id' != id ==> old(Tracks(id'));
      }
    }

    /** The request was not handled locally: a timer is armed unless the timeout is negative. */
    method PostGlobally(id: Key, timeout: int)
      requires Valid()
      modifies this`timers, this`ledger
      ensures Valid()
      ensures ledger == Step(old(ledger), RequestLedger.PostGlobally(id, timeout))
      ensures timeout >= 0 ==> id in timers
      ensures timeout < 0 ==> timers == old(timers)
    {
      if timeout >= 0 {
        timers := timers + {id};
      }
      ledger := Step(ledger, RequestLedger.PostGlobally(id, timeout));
      forall id' | id' in issued ensures Tracks(id') {
        assert old(Tracks(id'));
      }
    }

    method OnRequestResponseReceived(r: Response) returns (handled: bool)
      requires Valid()
      modifies this`requestFunctions, this`ledger, issued.Values
      ensures Valid()
      ensures handled == (r.channel in old(requestFunctions))
      ensures ledger == Step(old(ledger), Arrive(r))
    {
      ledger := Step(ledger, Arrive(r));
      if r.channel !in requestFunctions {
        return false;
      }
      var deferred := requestFunctions[r.channel];
      requestFunctions := requestFunctions - {r.requestId};
      assert old(Tracks(r.channel));
      deferred.Settled(r);
      handled := true;
      forall id | id in issued ensures Tracks(id) {
        assert old(Tracks(id));
      }
    }

    method OnTimer(id: Key)
      requires Valid() && id in timers
      modifies this`timers, this`requestFunctions, this`ledger, issued.Values
      ensures Valid()
      ensures ledger == Step(old(ledger), TimerFires(id))
    {
      timers := timers - {id};
      ledger := Step(ledger, TimerFires(id));
      if id in requestFunctions {
        assert old(Tracks(id));
        var deferred := requestFunctions[id];
        requestFunctions := requestFunctions - {id};
        deferred.Timeout();
      }
      forall id' | id' in issued ensures Tracks(id') {
        assert old(Tracks(id'));
      }
    }

    method CancelOne(id: Key)
      requires Valid() && id in requestFunctions
      modifies this`requestFunctions, this`ledger, issued.Values
      ensures Valid()
      ensures ledger == TimeOut(old(ledger), {id})
      ensures requestFunctions == old(requestFunctions) - {id}
    {
      assert Tracks(id);
      requestFunctions[id].Timeout();
      requestFunctions := requestFunctions - {id};
      ledger := TimeOut(ledger, {id});
      forall id' | id' in issued ensures Tracks(id') {
        assert old(Tracks(id'));
      }
    }

    /** Rejects and deletes the requests of one client, or all, while it visits the table. */
    method CancelRequest(client: Option<Client>)
      requires Valid()
      modifies this`requestFunctions, this`ledger, issued.Values
      ensures Valid()
      ensures ledger == Step(old(ledger), Cancel(client))
    {
      ghost var hit, done := Cancelled(ledger, client), {};
      var unvisited := requestFunctions.Keys;
      TimeOutNone(ledger);
      while unvisited != {}
        invariant Valid() && unvisited <= requestFunctions.Keys
        invariant done <= hit <= done + unvisited
        invariant ledger == TimeOut(old(ledger), done)
        decreases unvisited
      {
        var id :| id in unvisited;
        unvisited := unvisited - {id};
        assert ledger.table[id] == requestFunctions[id].client;
        if client == None || client == Some(requestFunctions[id].client) {
          TimeOutOneMore(old(ledger), done, id);
          CancelOne(id);
          done := done + {id};
        }
      }
      assert done == hit;
    }
  }
}
