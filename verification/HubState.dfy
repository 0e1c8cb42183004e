/** The hub's state and operations on values: the three linked structures (registered clients,
    subscriptions, connection counts), the clients' own subscription sets and Send queues, and
    every operation as one step. C identifies clients (pointers in the source). */
module HubStates {
  import opened Options
  import opened Messages
  import opened LogLevels

  datatype ClientState = ClientState(
    cap: nat,                        // capacity of Send
    queue: seq<Item>,                // contents of Send
    closed: bool,                    // Send has been closed
    subs: set<string>,               // the client's own subscription set
    filter: LevelFilter,
    taken: seq<Item>,                // history: items received from Send
    got: seq<BroadcastMessage>,      // history: broadcasts put on Send
    registered: bool,                // history: registerClient has run for it
    unregistered: bool)              // history: unregisterClient has run for it

  datatype HubState<C(==)> = HubState(
    limit: int,                      // MaxConnectionsPerExecution
    clients: set<C>,
    subs: map<string, set<C>>,
    counts: map<string, nat>,
    cl: map<C, ClientState>,         // every client ever created
    crashed: bool)                   // a send on, or a second close of, a closed channel

  function NewClient(cap: nat): ClientState {
    ClientState(cap, [], false, {}, None, [], [], false, false)
  }

  function NewHub<C(==)>(limit: int): HubState<C> {
    HubState(limit, {}, map[], map[], map[], false)
  }

  function Subscribers<C(==)>(s: HubState<C>, e: string): set<C> {
    if e in s.subs then s.subs[e] else {}
  }

  function Count<C(==)>(s: HubState<C>, e: string): nat {
    if e in s.counts then s.counts[e] else 0
  }

  // Everyone the hub refers to exists.
  ghost predicate Known<C>(s: HubState<C>) {
    s.clients <= s.cl.Keys && forall e | e in s.subs :: s.subs[e] <= s.cl.Keys
  }

  // ----- Unregistration -----

  function WithoutClient<C(==)>(subs: map<string, set<C>>, es: set<string>, c: C): map<string, set<C>> {
    map e | e in subs && !(e in es && subs[e] - {c} == {}) ::
      if e in es then subs[e] - {c} else subs[e]
  }

  function Decremented(counts: map<string, nat>, es: set<string>): map<string, nat> {
    map e | e in counts && !(e in es && counts[e] == 1) ::
      if e in es && counts[e] > 0 then counts[e] - 1 else counts[e]
  }

  function Unregistered<C(==)>(s: HubState<C>, c: C): HubState<C>
    requires c in s.cl
  {
    s.(clients := s.clients - {c},
       subs := WithoutClient(s.subs, s.cl[c].subs, c),
       counts := Decremented(s.counts, s.cl[c].subs),
       cl := s.cl[c := s.cl[c].(closed := s.cl[c].closed || c in s.clients, unregistered := true)],
       crashed := s.crashed || (c in s.clients && s.cl[c].closed))
  }

  // The clients among gone that have e in their own subscription set.
  function Leaving<C(==)>(s: HubState<C>, gone: set<C>, e: string): set<C>
    requires gone <= s.cl.Keys
  {
    set c | c in gone && e in s.cl[c].subs
  }

  // Unregistering a set of clients, described without any order.
  function UnregisteredAll<C(==)>(s: HubState<C>, gone: set<C>): HubState<C>
    requires gone <= s.cl.Keys
  {
    s.(clients := s.clients - gone,
       subs := map e | e in s.subs && !(Leaving(s, gone, e) != {} && s.subs[e] - Leaving(s, gone, e) == {}) ::
                 s.subs[e] - Leaving(s, gone, e),
       counts := map e | e in s.counts && !(0 < s.counts[e] <= |Leaving(s, gone, e)|) ::
                   if s.counts[e] > |Leaving(s, gone, e)| then s.counts[e] - |Leaving(s, gone, e)| else s.counts[e],
       cl := map c | c in s.cl ::
               if c in gone then s.cl[c].(closed := s.cl[c].closed || c in s.clients, unregistered := true)
               else s.cl[c],
       crashed := s.crashed || exists c | c in gone :: c in s.clients && s.cl[c].closed)
  }

  lemma UnregisterNone<C>(s: HubState<C>)
    ensures UnregisteredAll(s, {}) == s
  {
    var t := UnregisteredAll(s, {});
    assert forall e :: Leaving(s, {}, e) == {};
    assert forall e | e in s.subs :: s.subs[e] - Leaving(s, {}, e) == s.subs[e];
    assert t.subs == s.subs;
    assert t.counts == s.counts;
    assert t.cl == s.cl;
  }

  lemma LeavingMore<C>(s: HubState<C>, gone: set<C>, c: C, e: string)
    requires gone + {c} <= s.cl.Keys && c !in gone
    ensures Leaving(s, gone + {c}, e) == Leaving(s, gone, e) + (if e in s.cl[c].subs then {c} else {})
    ensures |Leaving(s, gone + {c}, e)| == |Leaving(s, gone, e)| + (if e in s.cl[c].subs then 1 else 0)
  {
    var a, b := Leaving(s, gone + {c}, e), Leaving(s, gone, e);
    if e in s.cl[c].subs {
      assert a == b + {c};
    } else {
      assert a == b;
    }
  }

  lemma SubsMoreAt<C>(s: HubState<C>, gone: set<C>, c: C, e: string)
    requires gone + {c} <= s.cl.Keys && c !in gone && e in s.subs
    ensures var a := UnregisteredAll(s, gone + {c}).subs;
      var b := WithoutClient(UnregisteredAll(s, gone).subs, s.cl[c].subs, c);
      (e in a <==> e in b) && (e in a ==> a[e] == b[e])
  {
    hide Leaving;
    LeavingMore(s, gone, c, e);
    assert s.subs[e] - Leaving(s, gone, e) - {c} == s.subs[e] - (Leaving(s, gone, e) + {c});
  }

  lemma SubsMore<C>(s: HubState<C>, gone: set<C>, c: C)
    requires gone + {c} <= s.cl.Keys && c !in gone
    ensures UnregisteredAll(s, gone + {c}).subs
         == WithoutClient(UnregisteredAll(s, gone).subs, s.cl[c].subs, c)
  {
    hide Leaving;
    var a := UnregisteredAll(s, gone + {c}).subs;
    var b := WithoutClient(UnregisteredAll(s, gone).subs, s.cl[c].subs, c);
    forall e | e in s.subs ensures (e in a <==> e in b) && (e in a ==> a[e] == b[e]) {
      SubsMoreAt(s, gone, c, e);
    }
    assert forall e | e in a || e in b :: e in s.subs;
    assert a == b;
  }

  lemma CountsMore<C>(s: HubState<C>, gone: set<C>, c: C)
    requires gone + {c} <= s.cl.Keys && c !in gone
    ensures UnregisteredAll(s, gone + {c}).counts
         == Decremented(UnregisteredAll(s, gone).counts, s.cl[c].subs)
  {
    var a := UnregisteredAll(s, gone + {c}).counts;
    var b := Decremented(UnregisteredAll(s, gone).counts, s.cl[c].subs);
    forall e | e in s.counts
      ensures (e in a <==> e in b) && (e in a ==> a[e] == b[e])
    {
      LeavingMore(s, gone, c, e);
    }
    assert a.Keys == b.Keys;
  }

  // Unregistering one more client is unregistering the larger set: truncated count decrements
  // and the removal of empty subscriber sets included.
  lemma UnregisterOneMore<C>(s: HubState<C>, gone: set<C>, c: C)
    requires gone + {c} <= s.cl.Keys && c !in gone
    ensures Unregistered(UnregisteredAll(s, gone), c) == UnregisteredAll(s, gone + {c})
  {
    var t := UnregisteredAll(s, gone);
    SubsMore(s, gone, c);
    CountsMore(s, gone, c);
    assert t.cl[c] == s.cl[c];
    assert s.clients - gone - {c} == s.clients - (gone + {c});
    assert Unregistered(t, c).cl == UnregisteredAll(s, gone + {c}).cl;
    assert Unregistered(t, c).crashed == UnregisteredAll(s, gone + {c}).crashed;
  }

  function InOrder<C(==)>(s: HubState<C>, cs: seq<C>): HubState<C>
    requires forall c <- cs :: c in s.cl
  {
    if cs == [] then s
    else
      var t := InOrder(s, cs[..|cs| - 1]);
      if cs[|cs| - 1] in t.cl then Unregistered(t, cs[|cs| - 1]) else t
  }

  // Unregistering distinct clients one by one, in any order, has the same result.
  lemma {:induction false} UnregisterOrderIrrelevant<C>(s: HubState<C>, cs: seq<C>)
    requires forall c <- cs :: c in s.cl
    requires forall i, j | 0 <= i < j < |cs| :: cs[i] != cs[j]
    ensures InOrder(s, cs) == UnregisteredAll(s, set c | c in cs)
  {
    if cs == [] {
      UnregisterNone(s);
      assert (set c | c in cs) == {};
    } else {
      var p, c := cs[..|cs| - 1], cs[|cs| - 1];
      UnregisterOrderIrrelevant(s, p);
      var gone := set d | d in p;
      assert cs == p + [c];
      assert (set d | d in cs) == gone + {c};
      assert c !in gone;
      UnregisterOneMore(s, gone, c);
    }
  }

  // ----- Broadcast -----

  predicate Passes(c: ClientState, m: BroadcastMessage) {
    m.level == "" || MatchesFilter(m.level, c.filter)
  }

  function Passing<C(==)>(s: HubState<C>, m: BroadcastMessage): set<C>
    requires Known(s)
  {
    set c | c in Subscribers(s, m.executionId) && Passes(s.cl[c], m)
  }

  // Those of cs whose Send channel is full.
  function Overfull<C(==)>(s: HubState<C>, cs: set<C>): set<C>
    requires cs <= s.cl.Keys
  {
    set c | c in cs && |s.cl[c].queue| >= s.cl[c].cap
  }

  function Push(c: ClientState, m: BroadcastMessage): ClientState {
    c.(queue := c.queue + [Broadcasted(m)], got := c.got + [m])
  }

  function Enqueued<C(==)>(s: HubState<C>, cs: set<C>, m: BroadcastMessage): HubState<C> {
    s.(cl := map c | c in s.cl :: if c in cs then Push(s.cl[c], m) else s.cl[c])
  }

  // Those with room have the message; a send on a closed channel panics.
  function AfterSends<C(==)>(s: HubState<C>, m: BroadcastMessage): HubState<C>
    requires Known(s)
  {
    var pass := Passing(s, m);
    Enqueued(s, pass - Overfull(s, pass), m).(crashed := s.crashed || exists c | c in pass :: s.cl[c].closed)
  }

  function BroadcastTo<C(==)>(s: HubState<C>, m: BroadcastMessage): HubState<C>
    requires Known(s)
  {
    UnregisteredAll(AfterSends(s, m), Overfull(s, Passing(s, m)))
  }

  // ----- Subscriptions -----

  function Subscribed<C(==)>(s: HubState<C>, c: C, e: string): HubState<C>
    requires c in s.cl
  {
    s.(subs := s.subs[e := Subscribers(s, e) + {c}],
       counts := s.counts[e := Count(s, e) + 1],
       cl := s.cl[c := s.cl[c].(subs := s.cl[c].subs + {e})])
  }

  function Unsubscribed<C(==)>(s: HubState<C>, c: C, e: string): HubState<C>
    requires c in s.cl
  {
    s.(subs := WithoutClient(s.subs, {e}, c),
       counts := Decremented(s.counts, {e}),
       cl := s.cl[c := s.cl[c].(subs := s.cl[c].subs - {e})])
  }

  predicate LimitReached<C(==)>(s: HubState<C>, e: string) {
    s.limit > 0 && Count(s, e) >= s.limit
  }

  // A reply is dropped when Send is full.
  function Replied<C(==)>(s: HubState<C>, c: C, text: string): HubState<C>
    requires c in s.cl
  {
    if s.cl[c].closed || |s.cl[c].queue| >= s.cl[c].cap then s
    else s.(cl := s.cl[c := s.cl[c].(queue := s.cl[c].queue + [Reply(text)])])
  }

  // ----- Steps -----

  datatype Event<C> =
    | Create(c: C, cap: nat)
    | Register(c: C)
    | Unregister(c: C)
    | Subscribe(c: C, e: string)
    | RequestSubscribe(c: C, e: string, granted: bool)  // handleMessage: limit check, then subscribe
    | Unsubscribe(c: C, e: string)
    | Broadcast(m: BroadcastMessage)
    | EvictIdle(idle: set<C>)
    | SetFilter(c: C, filter: LevelFilter)
    | Take(c: C)                                        // the write pump receives from Send
    | SendReply(c: C, text: string)                     // sendMessage: dropped when Send is full

  ghost predicate Enabled<C>(s: HubState<C>, ev: Event<C>) {
    match ev
    case Create(c, _) => c !in s.cl
    case Broadcast(_) => true
    case EvictIdle(idle) => idle <= s.clients
    case RequestSubscribe(c, e, granted) => c in s.cl && granted == !LimitReached(s, e)
    case Take(c) => c in s.cl && s.cl[c].queue != []
    case _ => ev.c in s.cl
  }

  ghost function Next<C>(s: HubState<C>, ev: Event<C>): HubState<C>
    requires Known(s) && Enabled(s, ev)
  {
    match ev
    case Create(c, cap) => s.(cl := s.cl[c := NewClient(cap)])
    case Register(c) => s.(clients := s.clients + {c}, cl := s.cl[c := s.cl[c].(registered := true)])
    case Unregister(c) => Unregistered(s, c)
    case Subscribe(c, e) => Subscribed(s, c, e)
    case RequestSubscribe(c, e, granted) => if granted then Subscribed(s, c, e) else s
    case Unsubscribe(c, e) => Unsubscribed(s, c, e)
    case Broadcast(m) => BroadcastTo(s, m)
    case EvictIdle(idle) => UnregisteredAll(s, idle)
    case SetFilter(c, f) => s.(cl := s.cl[c := s.cl[c].(filter := f)])
    case Take(c) =>
      s.(cl := s.cl[c := s.cl[c].(queue := s.cl[c].queue[1..], taken := s.cl[c].taken + [s.cl[c].queue[0]])])
    case SendReply(c, text) => Replied(s, c, text)
  }
}
