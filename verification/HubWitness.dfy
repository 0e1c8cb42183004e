/** What goes wrong in the hub, exactly when, and runs in which it does: the disciplines that ChannelSafety
    and LimitHolds ask for are needed. */
module HubWitnesses {
  import opened Options
  import opened Messages
  import opened LogLevels
  import opened HubStates
  import opened HubRuns
  import opened HubCounts
  import opened HubStreams

  // A broadcast sends on a closed channel exactly when a subscriber that passes the filter has been
  // unregistered and has its channel closed; evicting full clients adds no other way.
  lemma BroadcastCrashesIff<C>(s: HubState<C>, m: BroadcastMessage)
    requires Index(s) && !s.crashed
    ensures BroadcastTo(s, m).crashed <==> exists c :: c in Passing(s, m) && s.cl[c].closed
  {
    SendsChangeQueuesOnly(s, m);
    var t, full := AfterSends(s, m), Overfull(s, Passing(s, m));
    if c :| c in full && c in t.clients && t.cl[c].closed {
      assert c in Passing(s, m) && s.cl[c].closed;
    }
  }

  // One more step of a run.
  lemma Extend<C>(limit: int, evs: seq<Event<C>>, ev: Event<C>) returns (more: seq<Event<C>>, t: HubState<C>)
    requires ValidRun(limit, evs) && Enabled(Run(limit, evs), ev)
    ensures ValidRun(limit, more) && Run(limit, more) == t && Index(t)
    ensures t == Next(Run(limit, evs), ev) && more == evs + [ev]
    ensures OrderlyRun(limit, evs) && Orderly(Run(limit, evs), ev) ==> OrderlyRun(limit, more)
    ensures ClosesOnceRun(limit, evs) && ClosesOnce(Run(limit, evs), ev) ==> ClosesOnceRun(limit, more)
    ensures AllGuarded(evs) && !ev.Subscribe? ==> AllGuarded(more)
  {
    more := evs + [ev];
    RunStep(limit, evs, ev);
    assert more[..|evs|] == evs;
    t := Run(limit, more);
  }

  // A client that subscribes after its unregistration makes the next broadcast to it panic.
  lemma LateSubscribeCrashes<C>(c: C, cap: nat, m: BroadcastMessage) returns (evs: seq<Event<C>>)
    requires m.level == ""
    ensures ValidRun(0, evs) && Run(0, evs).crashed
  {
    evs := [];
    var s;
    evs, s := Extend(0, evs, Create(c, cap));
    evs, s := Extend(0, evs, Register(c));
    evs, s := Extend(0, evs, Unregister(c));
    assert s.cl[c].closed;
    evs, s := Extend(0, evs, Subscribe(c, m.executionId));
    assert c in Subscribers(s, m.executionId) && s.cl[c].closed;
    var before := s;
    evs, s := Extend(0, evs, Broadcast(m));
    assert c in Passing(before, m);
    if !before.crashed {
      BroadcastCrashesIff(before, m);
    }
  }

  // ----- Eviction and the handler's clean-up -----

  // How a client joins an execution: unchecked, as the routed handler does it, or through the limit check.
  function Join<C>(c: C, e: string, checked: bool): Event<C> {
    if checked then RequestSubscribe(c, e, true) else Subscribe(c, e)
  }

  // Two clients that have registered and not yet joined anything.
  ghost predicate Ready<C>(s: HubState<C>, b: C, d: C) {
    && {b, d} <= s.cl.Keys && {b, d} <= s.clients
    && !s.cl[b].unregistered && !s.cl[d].unregistered && s.cl[b].subs == {} == s.cl[d].subs
  }

  // Under a limit of one, the registered client a is the only subscriber to e; k items wait in its Send.
  ghost predicate Slow<C>(s: HubState<C>, a: C, e: string, cap: nat, k: nat) {
    && s.limit == 1 && a in s.cl && a in s.clients && Subscribers(s, e) == {a} && Count(s, e) == 1
    && s.cl[a].subs == {e} && s.cl[a].cap == cap && |s.cl[a].queue| == k && s.cl[a].filter.None?
  }

  // A run within all disciplines but that of closing each subscription once.
  ghost predicate Proper<C>(evs: seq<Event<C>>, checked: bool) {
    ValidRun(1, evs) && OrderlyRun(1, evs) && (checked ==> AllGuarded(evs))
  }

  // Nobody has subscribed; those who registered are new clients otherwise.
  ghost predicate Fresh<C>(s: HubState<C>, cap: nat, registered: set<C>) {
    && s.limit == 1 && s.subs == map[] && s.counts == map[] && registered <= s.clients
    && forall c | c in registered :: c in s.cl && s.cl[c] == NewClient(cap).(registered := true)
  }

  lemma Enter<C>(evs: seq<Event<C>>, c: C, cap: nat, registered: set<C>) returns (more: seq<Event<C>>)
    requires Proper(evs, true) && Fresh(Run(1, evs), cap, registered) && c !in Run(1, evs).cl
    ensures Proper(more, true) && Fresh(Run(1, more), cap, registered + {c})
    ensures Run(1, more).cl.Keys == Run(1, evs).cl.Keys + {c}
  {
    hide Run, ValidRun, OrderlyRun, AllGuarded, Index;
    var s;
    more, s := Extend(1, evs, Create(c, cap));
    more, s := Extend(1, more, Register(c));
  }

  lemma JoinFresh<C>(s: HubState<C>, a: C, b: C, d: C, cap: nat, e: string, checked: bool)
    requires Fresh(s, cap, {a, b, d}) && a != b && b != d && a != d && Index(s)
    ensures Enabled(s, Join(a, e, checked)) && Orderly(s, Join(a, e, checked))
    ensures var t := Next(s, Join(a, e, checked)); Slow(t, a, e, cap, 0) && Ready(t, b, d)
  {
    assert a in {a, b, d} && b in {a, b, d} && d in {a, b, d};
    hide Index;
  }

  lemma Arrive<C>(a: C, b: C, d: C, cap: nat, e: string, checked: bool) returns (evs: seq<Event<C>>)
    requires a != b && b != d && a != d
    ensures Proper(evs, checked) && Slow(Run(1, evs), a, e, cap, 0) && Ready(Run(1, evs), b, d)
  {
    evs := [];
    assert Proper(evs, true) && Fresh(Run(1, evs), cap, {});
    hide Run, ValidRun, OrderlyRun, AllGuarded, Index, Fresh, Slow, Ready;
    evs := Enter(evs, a, cap, {});
    evs := Enter(evs, b, cap, {} + {a});
    evs := Enter(evs, d, cap, {} + {a} + {b});
    assert {} + {a} + {b} + {d} == {a, b, d};
    JoinFresh(Run(1, evs), a, b, d, cap, e, checked);
    var s;
    evs, s := Extend(1, evs, Join(a, e, checked));
  }

  lemma OthersStayReady<C>(s: HubState<C>, a: C, b: C, d: C, e: string, m: BroadcastMessage)
    requires Index(s) && Ready(s, b, d) && Subscribers(s, e) == {a} && m.executionId == e && a != b && a != d
    ensures Ready(BroadcastTo(s, m), b, d)
  {
    BroadcastKeepsClients(s, m);
    BroadcastEffect(s, m, b);
    BroadcastEffect(s, m, d);
    SendsChangeQueuesOnly(s, m);
    assert Overfull(s, Passing(s, m)) <= {a};
  }

  // A broadcast that finds room waits in the slow client's Send ...
  lemma SlowFills<C>(s: HubState<C>, a: C, cap: nat, k: nat, m: BroadcastMessage)
    requires Index(s) && m.level == "" && Slow(s, a, m.executionId, cap, k) && k < cap
    ensures Slow(BroadcastTo(s, m), a, m.executionId, cap, k + 1)
  {
    BroadcastKeepsClients(s, m);
    BroadcastEffect(s, m, a);
    BroadcastCounts(s, m, m.executionId);
    assert Overfull(s, Passing(s, m)) == {};
    assert Leaving(s, {}, m.executionId) == {};
    SendsChangeQueuesOnly(s, m);
  }

  // ... and one that does not evicts it.
  lemma SlowEvicted<C>(s: HubState<C>, a: C, cap: nat, m: BroadcastMessage)
    requires Index(s) && m.level == "" && Slow(s, a, m.executionId, cap, cap)
    ensures var t := BroadcastTo(s, m);
      a in t.cl && t.limit == 1 && Subscribers(t, m.executionId) == {} && Count(t, m.executionId) == 0
  {
    BroadcastKeepsClients(s, m);
    BroadcastCounts(s, m, m.executionId);
    assert Passing(s, m) == {a} && Overfull(s, {a}) == {a};
    assert Leaving(s, {a}, m.executionId) == {a};
  }

  lemma {:induction false} Fill<C>(evs: seq<Event<C>>, a: C, b: C, d: C, cap: nat, k: nat, m: BroadcastMessage,
                                   checked: bool) returns (more: seq<Event<C>>)
    requires Proper(evs, checked) && m.level == "" && k <= cap && a != b && a != d
    requires Slow(Run(1, evs), a, m.executionId, cap, k) && Ready(Run(1, evs), b, d)
    ensures Proper(more, checked) && Slow(Run(1, more), a, m.executionId, cap, cap) && Ready(Run(1, more), b, d)
    decreases cap - k
  {
    hide BroadcastTo, Slow, Ready, Index;
    more := evs;
    if k < cap {
      var s;
      more, s := Extend(1, evs, Broadcast(m));
      SlowFills(Run(1, evs), a, cap, k, m);
      SlowKnown(Run(1, evs), a, m.executionId, cap, k);
      OthersStayReady(Run(1, evs), a, b, d, m.executionId, m);
      more := Fill(more, a, b, d, cap, k + 1, m, checked);
    }
  }

  lemma SlowKnown<C>(s: HubState<C>, a: C, e: string, cap: nat, k: nat)
    requires Slow(s, a, e, cap, k)
    ensures Subscribers(s, e) == {a}
  {}

  // The evicted client a still lists e, of which b is the only subscriber.
  ghost predicate Replaced<C>(s: HubState<C>, a: C, b: C, d: C, e: string, count: nat) {
    && s.limit == 1 && a in s.cl && s.cl[a].subs <= {e} && Subscribers(s, e) == {b} && Count(s, e) == count
    && d in s.cl && d in s.clients && !s.cl[d].unregistered
  }

  lemma EvictedKeepsOwnSubscriptions<C>(s: HubState<C>, a: C, m: BroadcastMessage)
    requires Index(s) && a in s.cl
    ensures a in BroadcastTo(s, m).cl && BroadcastTo(s, m).cl[a].subs == s.cl[a].subs
  {
    BroadcastKeepsClients(s, m);
    BroadcastEffect(s, m, a);
  }

  // The evicted client still lists e, of which nobody is a subscriber.
  ghost predicate Evicted<C>(s: HubState<C>, a: C, b: C, d: C, e: string) {
    && s.limit == 1 && a in s.cl && s.cl[a].subs == {e} && Subscribers(s, e) == {} && Count(s, e) == 0
    && Ready(s, b, d)
  }

  lemma Evict<C>(s: HubState<C>, a: C, b: C, d: C, cap: nat, m: BroadcastMessage)
    requires Index(s) && m.level == "" && a != b && a != d
    requires Slow(s, a, m.executionId, cap, cap) && Ready(s, b, d)
    ensures Evicted(BroadcastTo(s, m), a, b, d, m.executionId)
  {
    SlowEvicted(s, a, cap, m);
    OthersStayReady(s, a, b, d, m.executionId, m);
    EvictedKeepsOwnSubscriptions(s, a, m);
    hide BroadcastTo, Index, Ready;
  }

  lemma JoinReplaces<C>(s: HubState<C>, a: C, b: C, d: C, e: string, checked: bool)
    requires Index(s) && Evicted(s, a, b, d, e) && a != b && b != d && a != d
    ensures Enabled(s, Join(b, e, checked)) && Orderly(s, Join(b, e, checked))
    ensures Replaced(Next(s, Join(b, e, checked)), a, b, d, e, 1)
  {
    AfterSubscribe(s, b, e, e);
    hide Index, Subscribers, Count;
    assert {} + {b} == {b};
  }

  lemma EvictAndJoin<C>(evs: seq<Event<C>>, a: C, b: C, d: C, cap: nat, m: BroadcastMessage, checked: bool)
      returns (more: seq<Event<C>>)
    requires Proper(evs, checked) && m.level == "" && a != b && b != d && a != d
    requires Slow(Run(1, evs), a, m.executionId, cap, cap) && Ready(Run(1, evs), b, d)
    ensures Proper(more, checked) && Replaced(Run(1, more), a, b, d, m.executionId, 1)
  {
    Evict(Run(1, evs), a, b, d, cap, m);
    hide BroadcastTo, Index, Slow, Ready, Evicted, Replaced;
    var s;
    more, s := Extend(1, evs, Broadcast(m));
    JoinReplaces(s, a, b, d, m.executionId, checked);
    more, s := Extend(1, more, Join(b, m.executionId, checked));
  }

  // The evicted client's handler cleans up.
  lemma CleanUp<C>(evs: seq<Event<C>>, a: C, b: C, d: C, e: string, checked: bool) returns (more: seq<Event<C>>)
    requires Proper(evs, checked) && Replaced(Run(1, evs), a, b, d, e, 1) && a != b && a != d
    ensures Proper(more, checked) && Replaced(Run(1, more), a, b, d, e, 0)
  {
    var s, t := Run(1, evs), Run(1, evs);
    more, s := Extend(1, evs, Unsubscribe(a, e));
    AfterUnsubscribe(t, a, e, e);
    assert Replaced(s, a, b, d, e, 0) && s.cl[a].subs == {};
    more, t := Extend(1, more, Unregister(a));
    UnregisterOne(s, a);
    AfterUnregister(s, {a}, e);
    assert Leaving(s, {a}, e) == {};
  }

  // What the routed handler does: a slow client is evicted, another one joins, and the evicted client's
  // deferred Unsubscribe and Unregister take the other one's count. The execution then has a subscriber
  // and a count of zero, so that its limit of one does not read as reached.
  lemma HandlerTakesACount<C>(a: C, b: C, d: C, cap: nat, m: BroadcastMessage, checked: bool)
      returns (evs: seq<Event<C>>)
    requires a != b && b != d && a != d && m.level == ""
    ensures Proper(evs, checked) && Replaced(Run(1, evs), a, b, d, m.executionId, 0)
    ensures !LimitReached(Run(1, evs), m.executionId)
  {
    hide Slow, Ready, Run, ValidRun, OrderlyRun;
    evs := Arrive(a, b, d, cap, m.executionId, checked);
    evs := Fill(evs, a, b, d, cap, 0, m, checked);
    evs := EvictAndJoin(evs, a, b, d, cap, m, checked);
    evs := CleanUp(evs, a, b, d, m.executionId, checked);
  }

  // Without the discipline of closing once the limit fails in a run that is orderly, for every channel
  // capacity and registered clients, whether the clients subscribe unchecked or all of them are checked:
  // a further check lets a second subscriber through under a limit of one.
  lemma LimitNeedsClosesOnce<C>(a: C, b: C, d: C, cap: nat, m: BroadcastMessage, checked: bool)
      returns (evs: seq<Event<C>>)
    requires a != b && b != d && a != d && m.level == ""
    ensures Proper(evs, checked) && evs != [] && evs[|evs| - 1] == RequestSubscribe(d, m.executionId, true)
    ensures |Subscribers(Run(1, evs), m.executionId)| == 2
  {
    evs := HandlerTakesACount(a, b, d, cap, m, checked);
    var s;
    evs, s := Extend(1, evs, RequestSubscribe(d, m.executionId, true));
    assert Subscribers(s, m.executionId) == {b, d};
  }

  // The routed handler subscribes without a check, so that two of its clients exceed a limit of one.
  lemma UncheckedIgnoresTheLimit<C>(b: C, d: C, cap: nat, e: string) returns (evs: seq<Event<C>>)
    requires b != d
    ensures ValidRun(1, evs) && OrderlyRun(1, evs) && ClosesOnceRun(1, evs)
    ensures evs != [] && ValidRun(1, evs[..|evs| - 1]) && LimitReached(Run(1, evs[..|evs| - 1]), e)
    ensures |Subscribers(Run(1, evs), e)| == 2
  {
    evs := [];
    var s;
    evs, s := Extend(1, evs, Create(b, cap));
    evs, s := Extend(1, evs, Register(b));
    evs, s := Extend(1, evs, Create(d, cap));
    evs, s := Extend(1, evs, Register(d));
    assert s.subs == map[] && s.counts == map[] && s.limit == 1;
    evs, s := Extend(1, evs, Subscribe(b, e));
    evs, s := Extend(1, evs, Subscribe(d, e));
    assert Subscribers(s, e) == {b, d};
  }
}
