/** What the hub keeps over whole runs: the subscription indexes agree, Send channels are used
    safely, connection counts are right under a stated discipline, and clients see no gaps. */
module HubRuns {
  import opened Options
  import opened Messages
  import opened LogLevels
  import opened HubStates

  ghost predicate ValidRun<C>(limit: int, evs: seq<Event<C>>)
    decreases |evs|, 0
  {
    evs == [] ||
    (var p := evs[..|evs| - 1];
     ValidRun(limit, p) && Enabled(Run(limit, p), evs[|evs| - 1]))
  }

  ghost function Run<C>(limit: int, evs: seq<Event<C>>): (s: HubState<C>)
    requires ValidRun(limit, evs)
    ensures Index(s)
    decreases |evs|, 1
  {
    if evs == [] then NewHub(limit)
    else
      var s := Run(limit, evs[..|evs| - 1]);
      NextKeepsIndex(s, evs[|evs| - 1]);
      Next(s, evs[|evs| - 1])
  }

  // ----- The two subscription indexes agree -----

  ghost predicate HubInClient<C>(s: HubState<C>) {
    forall e, c | e in s.subs && c in s.subs[e] :: c in s.cl && e in s.cl[c].subs
  }

  ghost predicate NoEmptySets<C>(s: HubState<C>) {
    forall e | e in s.subs :: s.subs[e] != {}
  }

  ghost predicate ClientInHub<C>(s: HubState<C>) {
    forall c, e | c in s.cl && e in s.cl[c].subs && !s.cl[c].unregistered :: c in Subscribers(s, e)
  }

  // Every subscriber set is reflected in the clients' own sets, no empty set is stored, and the
  // converse holds for clients that were never unregistered.
  ghost predicate Index<C>(s: HubState<C>): (agree: bool)
    ensures agree ==> Known(s)
  {
    s.clients <= s.cl.Keys && HubInClient(s) && NoEmptySets(s) && ClientInHub(s)
  }

  lemma UnregisterOne<C>(s: HubState<C>, c: C)
    requires c in s.cl
    ensures Unregistered(s, c) == UnregisteredAll(s, {c})
  {
    UnregisterNone(s);
    UnregisterOneMore(s, {}, c);
    assert {} + {c} == {c};
  }

  // Exactly the leaving clients leave a subscriber set, and the count drops by their number.
  lemma AfterUnregister<C>(s: HubState<C>, gone: set<C>, e: string)
    requires gone <= s.cl.Keys
    ensures Subscribers(UnregisteredAll(s, gone), e) == Subscribers(s, e) - Leaving(s, gone, e)
    ensures Count(UnregisteredAll(s, gone), e)
      == if Count(s, e) > |Leaving(s, gone, e)| then Count(s, e) - |Leaving(s, gone, e)| else 0
  {}

  lemma AfterUnsubscribe<C>(s: HubState<C>, c: C, e: string, e': string)
    requires c in s.cl
    ensures Subscribers(Unsubscribed(s, c, e), e')
      == if e' == e then Subscribers(s, e) - {c} else Subscribers(s, e')
    ensures Count(Unsubscribed(s, c, e), e')
      == if e' == e && Count(s, e) > 0 then Count(s, e) - 1 else Count(s, e')
  {}

  lemma UnregisterKeepsIndex<C>(s: HubState<C>, gone: set<C>)
    requires Index(s) && gone <= s.cl.Keys
    ensures Index(UnregisteredAll(s, gone))
  {
    var t := UnregisteredAll(s, gone);
    forall e | e in t.subs
      ensures t.subs[e] != {} && forall c | c in t.subs[e] :: c in t.cl && e in t.cl[c].subs
    {
      AfterUnregister(s, gone, e);
    }
    forall c, e | c in t.cl && e in t.cl[c].subs && !t.cl[c].unregistered
      ensures c in Subscribers(t, e)
    {
      AfterUnregister(s, gone, e);
    }
  }

  lemma SubscribeKeepsIndex<C>(s: HubState<C>, c: C, e: string)
    requires Index(s) && c in s.cl
    ensures Index(Subscribed(s, c, e))
  {
    var t := Subscribed(s, c, e);
    forall d, e' | d in t.cl && e' in t.cl[d].subs && !t.cl[d].unregistered
      ensures d in Subscribers(t, e')
    {
      assert e' in s.cl[d].subs ==> d in Subscribers(s, e');
    }
  }

  lemma UnsubscribeKeepsIndex<C>(s: HubState<C>, c: C, e: string)
    requires Index(s) && c in s.cl
    ensures Index(Unsubscribed(s, c, e))
  {
    var t := Unsubscribed(s, c, e);
    forall e' | e' in t.subs
      ensures t.subs[e'] != {} && forall d | d in t.subs[e'] :: d in t.cl && e' in t.cl[d].subs
    {
      AfterUnsubscribe(s, c, e, e');
    }
    forall d, e' | d in t.cl && e' in t.cl[d].subs && !t.cl[d].unregistered
      ensures d in Subscribers(t, e')
    {
      AfterUnsubscribe(s, c, e, e');
    }
  }

  // Steps that touch neither subscription index.
  ghost predicate SameIndexes<C>(s: HubState<C>, t: HubState<C>) {
    && t.clients <= t.cl.Keys && t.subs == s.subs && s.cl.Keys <= t.cl.Keys
    && (forall c | c in s.cl :: t.cl[c].subs == s.cl[c].subs && t.cl[c].unregistered == s.cl[c].unregistered)
    && (forall c | c in t.cl && c !in s.cl :: t.cl[c].subs == {})
  }

  lemma SameIndexesKeep<C>(s: HubState<C>, t: HubState<C>)
    requires Index(s) && SameIndexes(s, t)
    ensures Index(t)
  {
    forall c, e | c in t.cl && e in t.cl[c].subs && !t.cl[c].unregistered
      ensures c in Subscribers(t, e)
    {
      assert c in Subscribers(s, e);
    }
  }

  // Sending changes only queues.
  lemma SendsChangeQueuesOnly<C>(s: HubState<C>, m: BroadcastMessage)
    requires Index(s)
    ensures SameIndexes(s, AfterSends(s, m)) && Index(AfterSends(s, m))
    ensures var t := AfterSends(s, m);
      && t.clients == s.clients && t.counts == s.counts && t.cl.Keys == s.cl.Keys
      && forall c | c in s.cl :: t.cl[c].closed == s.cl[c].closed && t.cl[c].registered == s.cl[c].registered
    ensures Overfull(s, Passing(s, m)) <= Subscribers(s, m.executionId) <= s.cl.Keys
  {
    SameIndexesKeep(s, AfterSends(s, m));
  }

  lemma BroadcastKeepsIndex<C>(s: HubState<C>, m: BroadcastMessage)
    requires Index(s)
    ensures Index(BroadcastTo(s, m))
  {
    SendsChangeQueuesOnly(s, m);
    UnregisterKeepsIndex(AfterSends(s, m), Overfull(s, Passing(s, m)));
  }

  // Steps that touch neither subscriptions nor registrations.
  predicate Quiet<C>(ev: Event<C>) {
    ev.Create? || ev.Register? || ev.SetFilter? || ev.Take? || ev.SendReply?
  }

  lemma QuietKeepsIndex<C>(s: HubState<C>, ev: Event<C>)
    requires Index(s) && Enabled(s, ev) && Quiet(ev)
    ensures Index(Next(s, ev))
  {
    SameIndexesKeep(s, Next(s, ev));
  }

  lemma NextKeepsIndex<C>(s: HubState<C>, ev: Event<C>)
    requires Index(s) && Enabled(s, ev)
    ensures Index(Next(s, ev))
  {
    hide Index, BroadcastTo, UnregisteredAll, Unregistered, Subscribed, Unsubscribed;
    if Quiet(ev) {
      hide Next;
      QuietKeepsIndex(s, ev);
    } else if ev.Unregister? {
      UnregisterOne(s, ev.c);
      UnregisterKeepsIndex(s, {ev.c});
    } else if ev.EvictIdle? {
      UnregisterKeepsIndex(s, ev.idle);
    } else if ev.Broadcast? {
      BroadcastKeepsIndex(s, ev.m);
    } else if ev.Unsubscribe? {
      UnsubscribeKeepsIndex(s, ev.c, ev.e);
    } else {
      SubscribeKeepsIndex(s, ev.c, ev.e);
    }
  }

  // ----- Send channels are closed once and never written to afterwards -----

  // Each client registers once and never subscribes after an unregistration.
  ghost predicate Orderly<C>(s: HubState<C>, ev: Event<C>)
    requires Enabled(s, ev)
  {
    match ev
    case Register(c) => !s.cl[c].registered
    case Subscribe(c, _) => !s.cl[c].unregistered
    case RequestSubscribe(c, _, granted) => granted ==> !s.cl[c].unregistered
    case _ => true
  }

  ghost predicate OrderlyRun<C>(limit: int, evs: seq<Event<C>>)
    requires ValidRun(limit, evs)
  {
    evs == [] ||
    (var p := evs[..|evs| - 1]; OrderlyRun(limit, p) && Orderly(Run(limit, p), evs[|evs| - 1]))
  }

  // Subscribers were never unregistered; closed channels belong to unregistered clients.
  ghost predicate Safe<C>(s: HubState<C>) {
    && !s.crashed
    && (forall e, c | e in s.subs && c in s.subs[e] :: c in s.cl && !s.cl[c].unregistered)
    && (forall c | c in s.cl && s.cl[c].closed :: s.cl[c].registered && s.cl[c].unregistered && c !in s.clients)
    && (forall c | c in s.clients :: c in s.cl && s.cl[c].registered)
  }

  lemma UnregisterKeepsSafe<C>(s: HubState<C>, gone: set<C>)
    requires Index(s) && Safe(s) && gone <= s.cl.Keys
    ensures Safe(UnregisteredAll(s, gone))
  {
    var t := UnregisteredAll(s, gone);
    forall e, c | e in t.subs && c in t.subs[e] ensures c in t.cl && !t.cl[c].unregistered {
      AfterUnregister(s, gone, e);
    }
  }

  lemma BroadcastKeepsSafe<C>(s: HubState<C>, m: BroadcastMessage)
    requires Index(s) && Safe(s)
    ensures Safe(BroadcastTo(s, m))
  {
    SendsChangeQueuesOnly(s, m);
    assert !exists c | c in Passing(s, m) :: s.cl[c].closed;
    UnregisterKeepsSafe(AfterSends(s, m), Overfull(s, Passing(s, m)));
  }

  lemma UnsubscribeKeepsSafe<C>(s: HubState<C>, c: C, e: string)
    requires Index(s) && Safe(s) && c in s.cl
    ensures Safe(Unsubscribed(s, c, e))
  {
    var t := Unsubscribed(s, c, e);
    forall e', d | e' in t.subs && d in t.subs[e'] ensures d in t.cl && !t.cl[d].unregistered {
      AfterUnsubscribe(s, c, e, e');
    }
  }

  lemma SubscribeKeepsSafe<C>(s: HubState<C>, c: C, e: string)
    requires Index(s) && Safe(s) && c in s.cl && !s.cl[c].unregistered
    ensures Safe(Subscribed(s, c, e))
  {}

  lemma QuietKeepsSafe<C>(s: HubState<C>, ev: Event<C>)
    requires Index(s) && Safe(s) && Enabled(s, ev) && Orderly(s, ev) && Quiet(ev)
    ensures Safe(Next(s, ev))
  {}

  lemma NextKeepsSafe<C>(s: HubState<C>, ev: Event<C>)
    requires Index(s) && Safe(s) && Enabled(s, ev) && Orderly(s, ev)
    ensures Safe(Next(s, ev))
  {
    hide Safe, BroadcastTo, UnregisteredAll, Unregistered, Subscribed, Unsubscribed;
    if Quiet(ev) {
      hide Next;
      QuietKeepsSafe(s, ev);
    } else if ev.Unregister? {
      UnregisterOne(s, ev.c);
      UnregisterKeepsSafe(s, {ev.c});
    } else if ev.EvictIdle? {
      UnregisterKeepsSafe(s, ev.idle);
    } else if ev.Broadcast? {
      BroadcastKeepsSafe(s, ev.m);
    } else if ev.Unsubscribe? {
      UnsubscribeKeepsSafe(s, ev.c, ev.e);
    } else if ev.Subscribe? || ev.granted {
      SubscribeKeepsSafe(s, ev.c, ev.e);
    }
  }

  // In an orderly run no Send channel is closed twice and no broadcast hits a closed one.
  lemma {:induction false} ChannelSafety<C>(limit: int, evs: seq<Event<C>>)
    requires ValidRun(limit, evs) && OrderlyRun(limit, evs)
    ensures Safe(Run(limit, evs))
  {
    if evs != [] {
      var p := evs[..|evs| - 1];
      ChannelSafety(limit, p);
      NextKeepsSafe(Run(limit, p), evs[|evs| - 1]);
    }
  }

  // A second unregisterClient changes no hub structure except the counts.
  lemma SecondUnregister<C>(s: HubState<C>, c: C)
    requires Index(s) && Safe(s) && c in s.cl && s.cl[c].unregistered && c !in s.clients
    ensures Unregistered(s, c) == s.(counts := Decremented(s.counts, s.cl[c].subs))
  {
    var t := Unregistered(s, c);
    assert forall e | e in s.subs :: c !in s.subs[e];
    assert forall e | e in s.subs :: s.subs[e] - {c} == s.subs[e];
    assert t.subs == s.subs;
    assert t.clients == s.clients;
    assert t.cl == s.cl;
  }

  lemma RunStep<C>(limit: int, evs: seq<Event<C>>, ev: Event<C>)
    requires ValidRun(limit, evs) && Enabled(Run(limit, evs), ev)
    ensures ValidRun(limit, evs + [ev])
    ensures Run(limit, evs + [ev]) == Next(Run(limit, evs), ev)
  {
    assert (evs + [ev])[..|evs|] == evs;
  }
}
