/** The hub as the source writes it: maps and client objects updated in place, with loops over the
    subscriber snapshot and over the clients to evict. Every method ends in the state the
    corresponding step of HubStates gives, whatever order the loops pick. */
module Hubs {
  import opened Options
  import opened Messages
  import opened LogLevels
  import opened HubStates
  import opened HubRuns

  class Client {
    const cap: nat
    var send: seq<Item>
    var closed: bool
    var subscriptions: set<string>
    var levelFilter: LevelFilter
    var lastActivity: int
    ghost var taken: seq<Item>
    ghost var got: seq<BroadcastMessage>
    ghost var registered: bool
    ghost var unregistered: bool

    ghost function State(): ClientState
      reads this
    {
      ClientState(cap, send, closed, subscriptions, levelFilter, taken, got, registered, unregistered)
    }

    constructor (cap: nat, now: int)
      ensures State() == NewClient(cap)
    {
      this.cap := cap;
      send, closed, subscriptions, levelFilter, lastActivity := [], false, {}, None, now;
      taken, got, registered, unregistered := [], [], false, false;
    }
  }

  // ----- One more loop iteration, on values -----

  lemma WithoutClientMore<C>(subs: map<string, set<C>>, done: set<string>, c: C, e: string)
    requires e !in done
    ensures var t := WithoutClient(subs, done, c);
      WithoutClient(subs, done + {e}, c)
        == if e !in t then t else if t[e] - {c} == {} then t - {e} else t[e := t[e] - {c}]
  {
    var t := WithoutClient(subs, done, c);
    var r := if e !in t then t else if t[e] - {c} == {} then t - {e} else t[e := t[e] - {c}];
    assert WithoutClient(subs, done + {e}, c).Keys == r.Keys;
    assert WithoutClient(subs, done + {e}, c) == r;
  }

  lemma DecrementedMore(counts: map<string, nat>, done: set<string>, e: string)
    requires e !in done
    ensures var t := Decremented(counts, done);
      Decremented(counts, done + {e})
        == if e !in t || t[e] == 0 then t else if t[e] == 1 then t - {e} else t[e := t[e] - 1]
  {
    var t := Decremented(counts, done);
    var r := if e !in t || t[e] == 0 then t else if t[e] == 1 then t - {e} else t[e := t[e] - 1];
    assert Decremented(counts, done + {e}).Keys == r.Keys;
    assert Decremented(counts, done + {e}) == r;
  }

  lemma WithoutOne<C>(subs: map<string, set<C>>, c: C, e: string)
    ensures WithoutClient(subs, {e}, c)
      == if e !in subs then subs else if subs[e] - {c} == {} then subs - {e} else subs[e := subs[e] - {c}]
  {
    WithoutClientMore(subs, {}, c, e);
    assert WithoutClient(subs, {}, c) == subs && {} + {e} == {e};
  }

  lemma DecrementedOne(counts: map<string, nat>, e: string)
    ensures Decremented(counts, {e})
      == if e !in counts || counts[e] == 0 then counts
         else if counts[e] == 1 then counts - {e} else counts[e := counts[e] - 1]
  {
    DecrementedMore(counts, {}, e);
    assert Decremented(counts, {}) == counts && {} + {e} == {e};
  }

  // What one sender goroutine does.
  function Offered<C(==)>(s: HubState<C>, c: C, m: BroadcastMessage): HubState<C>
    requires c in s.cl
  {
    if !Passes(s.cl[c], m) then s
    else
      s.(crashed := s.crashed || s.cl[c].closed,
         cl := if |s.cl[c].queue| < s.cl[c].cap then s.cl[c := Push(s.cl[c], m)] else s.cl)
  }

  function PassingOf<C(==)>(s: HubState<C>, done: set<C>, m: BroadcastMessage): set<C>
    requires done <= s.cl.Keys
  {
    set c | c in done && Passes(s.cl[c], m)
  }

  // The clients of done whose goroutine found the channel full.
  function Evictees<C(==)>(s: HubState<C>, done: set<C>, m: BroadcastMessage): set<C>
    requires done <= s.cl.Keys
  {
    set c | c in done && Passes(s.cl[c], m) && |s.cl[c].queue| >= s.cl[c].cap
  }

  // The state once the goroutines of the clients in done have finished.
  function PartlySent<C(==)>(s: HubState<C>, done: set<C>, m: BroadcastMessage): HubState<C>
    requires done <= s.cl.Keys
  {
    var pass := PassingOf(s, done, m);
    Enqueued(s, pass - Overfull(s, pass), m).(crashed := s.crashed || exists c | c in pass :: s.cl[c].closed)
  }

  lemma NoneSent<C>(s: HubState<C>, m: BroadcastMessage)
    ensures PartlySent(s, {}, m) == s && Evictees(s, {}, m) == {}
  {
    assert PartlySent(s, {}, m).cl == s.cl;
  }

  lemma AllSent<C>(s: HubState<C>, m: BroadcastMessage)
    requires Known(s)
    ensures PartlySent(s, Subscribers(s, m.executionId), m) == AfterSends(s, m)
    ensures Evictees(s, Subscribers(s, m.executionId), m) == Overfull(s, Passing(s, m))
  {
    assert PassingOf(s, Subscribers(s, m.executionId), m) == Passing(s, m);
  }

  lemma OneMorePassing<C>(s: HubState<C>, done: set<C>, c: C, m: BroadcastMessage)
    requires done + {c} <= s.cl.Keys
    ensures PassingOf(s, done + {c}, m) == PassingOf(s, done, m) + (if Passes(s.cl[c], m) then {c} else {})
  {}

  // What one more goroutine makes of client d.
  lemma OneMoreSentTo<C>(s: HubState<C>, pass: set<C>, c: C, m: BroadcastMessage, d: C)
    requires pass + {c} <= s.cl.Keys && c !in pass && d in s.cl
    ensures var some, more := Enqueued(s, pass - Overfull(s, pass), m), pass + {c};
      Enqueued(s, more - Overfull(s, more), m).cl[d]
        == if d == c && |s.cl[c].queue| < s.cl[c].cap then Push(s.cl[c], m) else some.cl[d]
  {
    hide Push;
  }

  lemma OneMoreCrash<C>(s: HubState<C>, pass: set<C>, c: C)
    requires pass + {c} <= s.cl.Keys
    ensures (exists d | d in pass + {c} :: s.cl[d].closed)
      <==> (exists d | d in pass :: s.cl[d].closed) || s.cl[c].closed
  {
    if s.cl[c].closed {
      assert c in pass + {c};
    }
  }

  // Goroutines of different clients do not interfere, so their order does not matter.
  lemma OneMoreSent<C>(s: HubState<C>, done: set<C>, c: C, m: BroadcastMessage)
    requires done + {c} <= s.cl.Keys && c !in done
    ensures PartlySent(s, done + {c}, m) == Offered(PartlySent(s, done, m), c, m)
    ensures PartlySent(s, done, m).cl.Keys == s.cl.Keys && PartlySent(s, done, m).cl[c] == s.cl[c]
  {
    OneMorePassing(s, done, c, m);
    var pass := PassingOf(s, done, m);
    hide Passes, Push, Overfull;
    assert c !in pass;
    var a, b := PartlySent(s, done + {c}, m), Offered(PartlySent(s, done, m), c, m);
    if Passes(s.cl[c], m) {
      OneMoreCrash(s, pass, c);
      forall d | d in s.cl ensures a.cl[d] == b.cl[d] {
        OneMoreSentTo(s, pass, c, m, d);
      }
    } else {
      assert PassingOf(s, done + {c}, m) == pass;
    }
    assert a.cl == b.cl;
  }

  lemma OneMoreEvictee<C>(s: HubState<C>, done: set<C>, c: C, m: BroadcastMessage)
    requires done + {c} <= s.cl.Keys
    ensures Evictees(s, done + {c}, m) == Evictees(s, done, m)
      + (if Passes(s.cl[c], m) && |s.cl[c].queue| >= s.cl[c].cap then {c} else {})
  {}

  lemma NobodyListens<C>(s: HubState<C>, m: BroadcastMessage)
    requires Known(s) && Subscribers(s, m.executionId) == {}
    ensures BroadcastTo(s, m) == s
  {
    NoneSent(s, m);
    AllSent(s, m);
    assert Overfull(s, Passing(s, m)) == {};
    UnregisterNone(s);
  }

  // What a client may send.
  datatype Request = SubscribeTo(e: string) | UnsubscribeFrom(e: string) | Pong | Unknown | Malformed

  function Handled<C(==)>(s: HubState<C>, c: C, msg: Request): HubState<C>
    requires c in s.cl
  {
    match msg
    case SubscribeTo(e) =>
      if e == "" then Replied(s, c, "Execution ID is required for subscribe")
      else if LimitReached(s, e) then Replied(s, c, "Too many connections for this execution")
      else Replied(Subscribed(s, c, e), c, "subscribed")
    case UnsubscribeFrom(e) =>
      if e == "" then Replied(s, c, "Execution ID is required for unsubscribe")
      else Replied(Unsubscribed(s, c, e), c, "unsubscribed")
    case Pong => s
    case Unknown => Replied(s, c, "Unknown message type")
    case Malformed => Replied(s, c, "Invalid message format")
  }

  // Client c joins or leaves execution e, or does neither; of e and of the clients nothing else changes
  // but c's queue.
  ghost predicate Adjusts<C>(s: HubState<C>, t: HubState<C>, c: C, e: string, joins: bool, leaves: bool) {
    && c in s.cl && t.cl.Keys == s.cl.Keys && t.clients == s.clients
    && (forall d | d in s.cl && d != c :: t.cl[d] == s.cl[d])
    && (e in t.cl[c].subs <==> joins || (e in s.cl[c].subs && !leaves))
    && Subscribers(t, e)
       == (if joins then Subscribers(s, e) + {c} else if leaves then Subscribers(s, e) - {c} else Subscribers(s, e))
    && Count(t, e)
       == (if joins then Count(s, e) + 1 else if leaves && Count(s, e) > 0 then Count(s, e) - 1 else Count(s, e))
  }

  lemma AdjustsNothing<C>(s: HubState<C>, c: C, e: string)
    requires c in s.cl
    ensures Adjusts(s, s, c, e, false, false)
  {}

  lemma SubscribeAdjusts<C>(s: HubState<C>, c: C, e': string, e: string)
    requires c in s.cl
    ensures Adjusts(s, Subscribed(s, c, e'), c, e, e' == e, false)
  {}

  lemma UnsubscribeAdjusts<C>(s: HubState<C>, c: C, e': string, e: string)
    requires c in s.cl
    ensures Adjusts(s, Unsubscribed(s, c, e'), c, e, false, e' == e)
  {
    AfterUnsubscribe(s, c, e', e);
    hide Subscribers, Count;
  }

  ghost predicate Answered(before: ClientState, after: ClientState) {
    if before.closed || |before.queue| >= before.cap then after.queue == before.queue
    else |after.queue| == |before.queue| + 1 && before.queue < after.queue && after.queue[|before.queue|].Reply?
  }

  lemma ReplyAdjusts<C>(s: HubState<C>, t: HubState<C>, c: C, e: string, joins: bool, leaves: bool, text: string)
    requires Adjusts(s, t, c, e, joins, leaves) && t.cl[c] == s.cl[c].(subs := t.cl[c].subs)
    ensures Adjusts(s, Replied(t, c, text), c, e, joins, leaves)
    ensures Answered(s.cl[c], Replied(t, c, text).cl[c])
  {}

  // A request changes nothing but the requester's part in one execution: subscribing succeeds exactly
  // below the limit, and every request but a pong is answered if there is room.
  lemma HandlingEffect<C>(s: HubState<C>, c: C, msg: Request, e: string)
    requires c in s.cl
    ensures Adjusts(s, Handled(s, c, msg), c, e,
                    msg == SubscribeTo(e) && e != "" && (s.limit <= 0 || Count(s, e) < s.limit),
                    msg == UnsubscribeFrom(e) && e != "")
    ensures if msg.Pong? then Handled(s, c, msg) == s else Answered(s.cl[c], Handled(s, c, msg).cl[c])
  {
    hide Adjusts, Answered, Replied, Count, Subscribers, Decremented, WithoutClient;
    AdjustsNothing(s, c, e);
    match msg
    case SubscribeTo(e') =>
      SubscribeAdjusts(s, c, e', e);
      if e' == "" {
        ReplyAdjusts(s, s, c, e, false, false, "Execution ID is required for subscribe");
      } else if LimitReached(s, e') {
        ReplyAdjusts(s, s, c, e, false, false, "Too many connections for this execution");
      } else {
        ReplyAdjusts(s, Subscribed(s, c, e'), c, e, e' == e, false, "subscribed");
      }
    case UnsubscribeFrom(e') =>
      UnsubscribeAdjusts(s, c, e', e);
      if e' == "" {
        ReplyAdjusts(s, s, c, e, false, false, "Execution ID is required for unsubscribe");
      } else {
        ReplyAdjusts(s, Unsubscribed(s, c, e'), c, e, false, e' == e, "unsubscribed");
      }
    case Pong =>
    case Unknown => ReplyAdjusts(s, s, c, e, false, false, "Unknown message type");
    case Malformed => ReplyAdjusts(s, s, c, e, false, false, "Invalid message format");
  }

  // The request as steps of the hub: at most one change of subscriptions, guarded by the limit, and
  // at most one reply.
  function RequestSteps<C(==)>(s: HubState<C>, c: C, msg: Request): seq<Event<C>> {
    match msg
    case SubscribeTo(e) =>
      if e == "" then [SendReply(c, "Execution ID is required for subscribe")]
      else
        [RequestSubscribe(c, e, !LimitReached(s, e)),
         SendReply(c, if LimitReached(s, e) then "Too many connections for this execution" else "subscribed")]
    case UnsubscribeFrom(e) =>
      if e == "" then [SendReply(c, "Execution ID is required for unsubscribe")]
      else [Event.Unsubscribe(c, e), SendReply(c, "unsubscribed")]
    case Pong => []
    case Unknown => [SendReply(c, "Unknown message type")]
    case Malformed => [SendReply(c, "Invalid message format")]
  }

  lemma TwoStepRun<C>(limit: int, evs: seq<Event<C>>, a: Event<C>, b: Event<C>)
    requires ValidRun(limit, evs) && Enabled(Run(limit, evs), a)
    requires Index(Next(Run(limit, evs), a)) ==> Enabled(Next(Run(limit, evs), a), b)
    ensures Index(Next(Run(limit, evs), a)) && ValidRun(limit, evs + [a, b])
    ensures Run(limit, evs + [a, b]) == Next(Next(Run(limit, evs), a), b)
  {
    RunStep(limit, evs, a);
    NextKeepsIndex(Run(limit, evs), a);
    hide Next, Enabled, ValidRun, Run;
    RunStep(limit, evs + [a], b);
    assert evs + [a, b] == evs + [a] + [b];
  }

  lemma ReplyIsARun<C>(limit: int, evs: seq<Event<C>>, c: C, text: string)
    requires ValidRun(limit, evs) && c in Run(limit, evs).cl
    ensures var steps: seq<Event<C>> := [SendReply(c, text)];
      ValidRun(limit, evs + steps) && Run(limit, evs + steps) == Replied(Run(limit, evs), c, text)
  {
    hide ValidRun, Run, Replied, Index;
    RunStep(limit, evs, SendReply(c, text));
  }

  lemma ChangeAndReplyIsARun<C>(limit: int, evs: seq<Event<C>>, c: C, e: string, subscribe: bool, text: string)
    requires ValidRun(limit, evs) && c in Run(limit, evs).cl
    ensures var s := Run(limit, evs);
      var change := if subscribe then RequestSubscribe(c, e, !LimitReached(s, e)) else Event.Unsubscribe(c, e);
      var t := if !subscribe then Unsubscribed(s, c, e) else if LimitReached(s, e) then s else Subscribed(s, c, e);
      && c in t.cl && ValidRun(limit, evs + [change, SendReply(c, text)])
      && Run(limit, evs + [change, SendReply(c, text)]) == Replied(t, c, text)
  {
    hide ValidRun, Run, Index, Subscribed, Unsubscribed, Replied, LimitReached;
    var s := Run(limit, evs);
    SubscriptionsKeepClients(s, c, e);
    TwoStepRun(limit, evs,
               if subscribe then RequestSubscribe(c, e, !LimitReached(s, e)) else Event.Unsubscribe(c, e),
               SendReply(c, text));
  }

  // Handling a request in a reachable state extends the run by those steps.
  lemma HandlingIsARun<C>(limit: int, evs: seq<Event<C>>, c: C, msg: Request)
    requires ValidRun(limit, evs) && c in Run(limit, evs).cl
    ensures var steps := RequestSteps(Run(limit, evs), c, msg);
      ValidRun(limit, evs + steps) && Run(limit, evs + steps) == Handled(Run(limit, evs), c, msg)
  {
    hide ValidRun, Run, Index, Subscribed, Unsubscribed, Replied, LimitReached, Enabled, Next;
    var steps := RequestSteps(Run(limit, evs), c, msg);
    if steps == [] {
      assert evs + steps == evs;
    } else if |steps| == 1 {
      ReplyIsARun(limit, evs, c, steps[0].text);
    } else {
      ChangeAndReplyIsARun(limit, evs, c, msg.e, msg.SubscribeTo?, steps[1].text);
    }
  }

  lemma SubscriptionsKeepClients<C>(s: HubState<C>, c: C, e: string)
    requires c in s.cl
    ensures c in Subscribed(s, c, e).cl && c in Unsubscribed(s, c, e).cl
  {}

  class Hub {
    const maxConnectionsPerExecution: int
    const idleTimeout: int
    var clients: set<Client>
    var subscriptions: map<string, set<Client>>
    var executionConnCounts: map<string, nat>
    ghost var known: set<Client>  // every client created for this hub
    ghost var crashed: bool

    ghost function View(): HubState<Client>
      reads this, known
    {
      HubState(maxConnectionsPerExecution, clients, subscriptions, executionConnCounts,
               map c | c in known :: c.State(), crashed)
    }

    constructor (maxConnectionsPerExecution: int, idleTimeout: int)
      ensures View() == NewHub(maxConnectionsPerExecution) && this.idleTimeout == idleTimeout
    {
      this.maxConnectionsPerExecution, this.idleTimeout := maxConnectionsPerExecution, idleTimeout;
      clients, subscriptions, executionConnCounts := {}, map[], map[];
      known, crashed := {}, false;
    }

    method RegisterClient(client: Client)
      requires Known(View()) && client in known
      modifies this`clients, client`registered
      ensures View() == Next(old(View()), Event.Register(client))
    {
      clients := clients + {client};
      client.registered := true;
      assert View().cl == old(View()).cl[client := client.State()];
    }

    // The first critical section of unregisterClient.
    method CloseSend(client: Client)
      requires client in known
      modifies this`clients, this`crashed, client`closed, client`unregistered
      ensures var s := old(View());
        View() == s.(clients := s.clients - {client},
                     cl := s.cl[client := s.cl[client].(closed := s.cl[client].closed || client in s.clients,
                                                        unregistered := true)],
                     crashed := s.crashed || (client in s.clients && s.cl[client].closed))
    {
      client.unregistered := true;
      if client in clients {
        clients := clients - {client};
        crashed := crashed || client.closed;
        client.closed := true;
      }
      assert View().cl == old(View()).cl[client := client.State()];
    }

    // The second: the client leaves every execution in its own subscription set.
    method LeaveAll(client: Client)
      modifies this`subscriptions, this`executionConnCounts
      ensures subscriptions == WithoutClient(old(subscriptions), client.subscriptions, client)
      ensures executionConnCounts == Decremented(old(executionConnCounts), client.subscriptions)
    {
      ghost var done: set<string> := {};
      var rest := client.subscriptions;
      while rest != {}
        invariant done !! rest && done + rest == client.subscriptions
        invariant subscriptions == WithoutClient(old(subscriptions), done, client)
        invariant executionConnCounts == Decremented(old(executionConnCounts), done)
        decreases |rest|
      {
        var executionId :| executionId in rest;
        WithoutClientMore(old(subscriptions), done, client, executionId);
        DecrementedMore(old(executionConnCounts), done, executionId);
        LeaveOne(client, executionId);
        done, rest := done + {executionId}, rest - {executionId};
      }
    }

    // Removes client from the subscribers of executionId and decrements its connection count.
    method LeaveOne(client: Client, executionId: string)
      modifies this`subscriptions, this`executionConnCounts
      ensures var t := old(subscriptions);
        subscriptions == if executionId !in t then t
                         else if t[executionId] - {client} == {} then t - {executionId}
                         else t[executionId := t[executionId] - {client}]
      ensures var t := old(executionConnCounts);
        executionConnCounts == if executionId !in t || t[executionId] == 0 then t
                               else if t[executionId] == 1 then t - {executionId}
                               else t[executionId := t[executionId] - 1]
    {
      if executionId in subscriptions {
        var left := subscriptions[executionId] - {client};
        subscriptions := if |left| == 0 then subscriptions - {executionId} else subscriptions[executionId := left];
      }
      if executionId in executionConnCounts && executionConnCounts[executionId] > 0 {
        executionConnCounts := executionConnCounts[executionId := executionConnCounts[executionId] - 1];
        if executionConnCounts[executionId] == 0 {
          executionConnCounts := executionConnCounts - {executionId};
        }
      }
    }

    method UnregisterClient(client: Client)
      requires client in known
      modifies this`clients, this`crashed, this`subscriptions, this`executionConnCounts
      modifies client`closed, client`unregistered
      ensures View() == Unregistered(old(View()), client)
    {
      CloseSend(client);
      label closed:
      LeaveAll(client);
      assert View().cl == old@closed(View()).cl;
    }

    // Unregisters the given clients one after the other, in any order.
    method Evict(toEvict: set<Client>)
      requires toEvict <= known
      modifies this`clients, this`crashed, this`subscriptions, this`executionConnCounts
      modifies toEvict`closed, toEvict`unregistered
      ensures View() == UnregisteredAll(old(View()), toEvict)
    {
      hide UnregisteredAll, Unregistered, Index;
      ghost var start, gone: set<Client> := View(), {};
      var rest := toEvict;
      UnregisterNone(start);
      while rest != {}
        invariant rest <= toEvict && gone == toEvict - rest
        invariant View() == UnregisteredAll(start, gone)
        decreases |rest|
      {
        var c :| c in rest;
        UnregisterOneMore(start, gone, c);
        UnregisterClient(c);
        rest := rest - {c};
        assert toEvict - rest == gone + {c};
        gone := gone + {c};
      }
      assert gone == toEvict;
    }

    // The body of one sender goroutine of broadcastMessage: full reports a client to evict.
    method Send(client: Client, message: BroadcastMessage) returns (full: bool)
      modifies this`crashed, client`send, client`got
      ensures var c := old(client.State());
        && full == (Passes(c, message) && |c.queue| >= c.cap)
        && client.State() == (if Passes(c, message) && !full then Push(c, message) else c)
        && crashed == (old(crashed) || (Passes(c, message) && c.closed))
    {
      full := false;
      if message.level != "" && !MatchesFilter(message.level, client.levelFilter) {
        return;
      }
      crashed := crashed || client.closed;
      if |client.send| < client.cap {
        client.send := client.send + [Broadcasted(message)];
        client.got := client.got + [message];
      } else {
        full := true;
      }
    }

    // The same, as a step of the whole hub.
    method Offer(client: Client, message: BroadcastMessage) returns (full: bool)
      requires client in known
      modifies this`crashed, client`send, client`got
      ensures View() == Offered(old(View()), client, message)
      ensures full == (Passes(old(client.State()), message) && old(|client.send| >= client.cap))
    {
      full := Send(client, message);
      assert View().cl == old(View()).cl[client := client.State()];
    }

    // Runs a sender for every client of the snapshot, in any order, and waits for all of them.
    method SendToAll(snapshot: set<Client>, message: BroadcastMessage) returns (toEvict: set<Client>)
      requires snapshot <= known
      modifies this`crashed, snapshot`send, snapshot`got
      ensures View() == PartlySent(old(View()), snapshot, message)
      ensures toEvict == Evictees(old(View()), snapshot, message)
    {
      hide PartlySent, Evictees, Offered, Passes, Index;
      toEvict := {};
      ghost var start, done: set<Client> := View(), {};
      var rest := snapshot;
      NoneSent(start, message);
      while rest != {}
        invariant rest <= snapshot && done == snapshot - rest
        invariant View() == PartlySent(start, done, message)
        invariant toEvict == Evictees(start, done, message)
        decreases |rest|
      {
        var c :| c in rest;
        OneMoreSent(start, done, c, message);
        OneMoreEvictee(start, done, c, message);
        assert c.State() == start.cl[c] by { assert c.State() == View().cl[c]; }
        var full := Offer(c, message);
        toEvict := if full then toEvict + {c} else toEvict;
        rest := rest - {c};
        assert snapshot - rest == done + {c};
        done := done + {c};
      }
      assert done == snapshot;
    }

    method BroadcastMessage(message: BroadcastMessage)
      requires Known(View())
      modifies this, known
      ensures known == old(known) && View() == Next(old(View()), Event.Broadcast(message))
    {
      hide UnregisteredAll, PartlySent;
      if message.executionId !in subscriptions || |subscriptions[message.executionId]| == 0 {
        NobodyListens(View(), message);
        return;
      }
      AllSent(View(), message);
      var toEvict := SendToAll(subscriptions[message.executionId], message);
      Evict(toEvict);
    }

    method EvictIdleClients(now: int)
      requires Known(View())
      modifies this, known
      ensures known == old(known)
      ensures View() == if idleTimeout <= 0 then old(View())
        else Next(old(View()), Event.EvictIdle(set c | c in old(clients) && old(c.lastActivity) < now - idleTimeout))
    {
      hide UnregisteredAll, Index, Leaving;
      if idleTimeout <= 0 {
        return;
      }
      var cutoff := now - idleTimeout;
      var toEvict := set c | c in clients && c.lastActivity < cutoff;
      Evict(toEvict);
    }

    // Adds client to the subscribers of executionId and increments its connection count.
    method JoinOne(client: Client, executionId: string)
      modifies this`subscriptions, this`executionConnCounts
      ensures var t := old(subscriptions);
        subscriptions == t[executionId := (if executionId in t then t[executionId] else {}) + {client}]
      ensures var t := old(executionConnCounts);
        executionConnCounts == t[executionId := (if executionId in t then t[executionId] else 0) + 1]
    {
      if executionId !in subscriptions {
        subscriptions := subscriptions[executionId := {}];
      }
      subscriptions := subscriptions[executionId := subscriptions[executionId] + {client}];
      var count := if executionId in executionConnCounts then executionConnCounts[executionId] else 0;
      executionConnCounts := executionConnCounts[executionId := count + 1];
    }

    method Subscribe(client: Client, executionId: string)
      requires client in known
      modifies this`subscriptions, this`executionConnCounts, client`subscriptions
      ensures View() == Subscribed(old(View()), client, executionId)
    {
      client.subscriptions := client.subscriptions + {executionId};
      JoinOne(client, executionId);
      assert View().cl == old(View()).cl[client := client.State()];
    }

    method Unsubscribe(client: Client, executionId: string)
      requires client in known
      modifies this`subscriptions, this`executionConnCounts, client`subscriptions
      ensures View() == Unsubscribed(old(View()), client, executionId)
    {
      hide WithoutClient, Decremented;
      client.subscriptions := client.subscriptions - {executionId};
      WithoutOne(subscriptions, client, executionId);
      DecrementedOne(executionConnCounts, executionId);
      LeaveOne(client, executionId);
      assert View().cl == old(View()).cl[client := client.State()];
    }

    method ConnectionLimitReached(executionId: string) returns (reached: bool)
      ensures reached <==> LimitReached(View(), executionId)
    {
      if maxConnectionsPerExecution <= 0 {
        return false;
      }
      var count := if executionId in executionConnCounts then executionConnCounts[executionId] else 0;
      reached := count >= maxConnectionsPerExecution;
    }

    method SendMessage(client: Client, text: string)
      requires client in known
      modifies client`send
      ensures View() == Replied(old(View()), client, text)
    {
      if !client.closed && |client.send| < client.cap {
        client.send := client.send + [Reply(text)];
        assert View().cl == old(View()).cl[client := client.State()];
      }
    }

    // A subscribe request is checked against the connection limit and answered either way.
    method HandleMessage(client: Client, msg: Request)
      requires client in known
      modifies this`subscriptions, this`executionConnCounts, client`subscriptions, client`send
      ensures View() == Handled(old(View()), client, msg)
    {
      hide Subscribed, Unsubscribed, Replied, LimitReached;
      match msg
      case SubscribeTo(executionId) =>
        if executionId == "" {
          SendMessage(client, "Execution ID is required for subscribe");
          return;
        }
        var reached := ConnectionLimitReached(executionId);
        if reached {
          SendMessage(client, "Too many connections for this execution");
          return;
        }
        Subscribe(client, executionId);
        SendMessage(client, "subscribed");
      case UnsubscribeFrom(executionId) =>
        if executionId == "" {
          SendMessage(client, "Execution ID is required for unsubscribe");
          return;
        }
        Unsubscribe(client, executionId);
        SendMessage(client, "unsubscribed");
      case Pong =>
      case Unknown => SendMessage(client, "Unknown message type");
      case Malformed => SendMessage(client, "Invalid message format");
    }
  }
}
