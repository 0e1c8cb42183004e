/** Connection counts: how far executionConnCounts can be from the number of subscribers, and
    when the connection limit therefore holds. */
module HubCounts {
  import opened Options
  import opened Messages
  import opened HubStates
  import opened HubRuns

  // Every subscription that is closed was open, once: a client registers once, is unregistered
  // once, neither subscribes nor unsubscribes afterwards, and unsubscribes only what it has.
  ghost predicate ClosesOnce<C>(s: HubState<C>, ev: Event<C>)
    requires Enabled(s, ev)
  {
    match ev
    case Register(c) => !s.cl[c].registered && !s.cl[c].unregistered
    case Unregister(c) => !s.cl[c].unregistered
    case Subscribe(c, _) => !s.cl[c].unregistered
    case RequestSubscribe(c, _, granted) => granted ==> !s.cl[c].unregistered
    case Unsubscribe(c, e) => !s.cl[c].unregistered && e in s.cl[c].subs
    case _ => true
  }

  ghost predicate ClosesOnceRun<C>(limit: int, evs: seq<Event<C>>)
    requires ValidRun(limit, evs)
  {
    evs == [] ||
    (var p := evs[..|evs| - 1]; ClosesOnceRun(limit, p) && ClosesOnce(Run(limit, p), evs[|evs| - 1]))
  }

  // A successful subscribe of c to e.
  predicate Opens<C(==)>(ev: Event<C>, e: string) {
    (ev.Subscribe? && ev.e == e) || (ev.RequestSubscribe? && ev.e == e && ev.granted)
  }

  // The number of subscribes to e by clients that were subscribed to it already.
  ghost function Repeats<C>(limit: int, evs: seq<Event<C>>, e: string): nat
    requires ValidRun(limit, evs)
  {
    if evs == [] then 0
    else
      var p, ev := evs[..|evs| - 1], evs[|evs| - 1];
      Repeats(limit, p, e)
      + (if Opens(ev, e) && ev.c in Subscribers(Run(limit, p), e) then 1 else 0)
  }

  // Registered clients and subscribers were never unregistered.
  ghost predicate Alive<C>(s: HubState<C>) {
    && (forall c | c in s.clients :: c in s.cl && !s.cl[c].unregistered)
    && (forall e, c | e in s.subs && c in s.subs[e] :: c in s.cl && !s.cl[c].unregistered)
  }

  lemma UnregisterKeepsAlive<C>(s: HubState<C>, gone: set<C>)
    requires Index(s) && Alive(s) && gone <= s.cl.Keys
    ensures Alive(UnregisteredAll(s, gone))
  {
    var t := UnregisteredAll(s, gone);
    forall e, c | e in t.subs && c in t.subs[e] ensures c in t.cl && !t.cl[c].unregistered {
      AfterUnregister(s, gone, e);
    }
  }

  lemma BroadcastKeepsAlive<C>(s: HubState<C>, m: BroadcastMessage)
    requires Index(s) && Alive(s)
    ensures Alive(BroadcastTo(s, m))
  {
    SendsChangeQueuesOnly(s, m);
    UnregisterKeepsAlive(AfterSends(s, m), Overfull(s, Passing(s, m)));
  }

  lemma UnsubscribeKeepsAlive<C>(s: HubState<C>, c: C, e: string)
    requires Index(s) && Alive(s) && c in s.cl
    ensures Alive(Unsubscribed(s, c, e))
  {
    var t := Unsubscribed(s, c, e);
    forall e', d | e' in t.subs && d in t.subs[e'] ensures d in t.cl && !t.cl[d].unregistered {
      AfterUnsubscribe(s, c, e, e');
    }
  }

  lemma SubscribeKeepsAlive<C>(s: HubState<C>, c: C, e: string)
    requires Index(s) && Alive(s) && c in s.cl && !s.cl[c].unregistered
    ensures Alive(Subscribed(s, c, e))
  {}

  lemma QuietKeepsAlive<C>(s: HubState<C>, ev: Event<C>)
    requires Index(s) && Alive(s) && Enabled(s, ev) && ClosesOnce(s, ev) && Quiet(ev)
    ensures Alive(Next(s, ev))
  {}

  lemma NextKeepsAlive<C>(s: HubState<C>, ev: Event<C>)
    requires Index(s) && Alive(s) && Enabled(s, ev) && ClosesOnce(s, ev)
    ensures Alive(Next(s, ev))
  {
    hide Alive, BroadcastTo, UnregisteredAll, Unregistered, Subscribed, Unsubscribed;
    if Quiet(ev) {
      hide Next;
      QuietKeepsAlive(s, ev);
    } else if ev.Unregister? {
      UnregisterOne(s, ev.c);
      UnregisterKeepsAlive(s, {ev.c});
    } else if ev.EvictIdle? {
      UnregisterKeepsAlive(s, ev.idle);
    } else if ev.Broadcast? {
      BroadcastKeepsAlive(s, ev.m);
    } else if ev.Unsubscribe? {
      UnsubscribeKeepsAlive(s, ev.c, ev.e);
    } else if ev.Subscribe? || ev.granted {
      SubscribeKeepsAlive(s, ev.c, ev.e);
    }
  }

  // ----- What one step does to one execution -----

  // The clients by which a step closes a subscription to e: each of them costs the count one, whether
  // it is a subscriber or not.
  ghost function Closers<C>(s: HubState<C>, ev: Event<C>, e: string): set<C>
    requires Index(s) && Enabled(s, ev)
  {
    match ev
    case Unregister(c) => Leaving(s, {c}, e)
    case EvictIdle(idle) => Leaving(s, idle, e)
    case Broadcast(m) => Leaving(s, Overfull(s, Passing(s, m)), e)
    case Unsubscribe(c, e') => if e' == e then {c} else {}
    case _ => {}
  }

  function Lowered(n: nat, k: nat): nat {
    if n > k then n - k else 0
  }

  // t is s as far as e is concerned, but for one subscriber more or for closers less.
  ghost predicate Effect<C>(s: HubState<C>, t: HubState<C>, ev: Event<C>, e: string)
    requires Index(s) && Enabled(s, ev)
  {
    if Opens(ev, e) then
      Subscribers(t, e) == Subscribers(s, e) + {ev.c} && Count(t, e) == Count(s, e) + 1
    else
      && Subscribers(t, e) == Subscribers(s, e) - Closers(s, ev, e)
      && Count(t, e) == Lowered(Count(s, e), |Closers(s, ev, e)|)
  }

  lemma UnsubscribeEffect<C>(s: HubState<C>, c: C, e': string, e: string)
    requires Index(s) && c in s.cl
    ensures Effect(s, Unsubscribed(s, c, e'), Unsubscribe(c, e'), e)
  {
    AfterUnsubscribe(s, c, e', e);
    hide Unsubscribed, Index;
    if e' != e {
      assert Subscribers(s, e) - {} == Subscribers(s, e);
    }
  }

  lemma BroadcastCounts<C>(s: HubState<C>, m: BroadcastMessage, e: string)
    requires Index(s)
    ensures var t, gone := BroadcastTo(s, m), Overfull(s, Passing(s, m));
      && gone <= s.cl.Keys
      && Subscribers(t, e) == Subscribers(s, e) - Leaving(s, gone, e)
      && Count(t, e) == Lowered(Count(s, e), |Leaving(s, gone, e)|)
  {
    SendsChangeQueuesOnly(s, m);
    var t, gone := AfterSends(s, m), Overfull(s, Passing(s, m));
    assert Leaving(t, gone, e) == Leaving(s, gone, e);
    hide AfterSends, UnregisteredAll, Index, Overfull, Passing, Leaving;
    AfterUnregister(t, gone, e);
  }

  lemma AfterSubscribe<C>(s: HubState<C>, c: C, e': string, e: string)
    requires c in s.cl
    ensures var t := Subscribed(s, c, e');
      && Subscribers(t, e) == Subscribers(s, e) + (if e' == e then {c} else {})
      && Count(t, e) == Count(s, e) + if e' == e then 1 else 0
  {}

  lemma UntouchedEffect<C>(s: HubState<C>, t: HubState<C>, ev: Event<C>, e: string)
    requires Index(s) && Enabled(s, ev) && !Opens(ev, e) && Closers(s, ev, e) == {}
    requires Subscribers(t, e) == Subscribers(s, e) && Count(t, e) == Count(s, e)
    ensures Effect(s, t, ev, e)
  {
    hide Subscribers, Count, Index, Enabled, Closers;
    assert Subscribers(s, e) - {} == Subscribers(s, e);
  }

  lemma SubscribeEffect<C>(s: HubState<C>, ev: Event<C>, e: string)
    requires Index(s) && Enabled(s, ev) && (ev.Subscribe? || ev.RequestSubscribe?)
    ensures Effect(s, Next(s, ev), ev, e)
  {
    hide Subscribed, Index, Subscribers, Count;
    AfterSubscribe(s, ev.c, ev.e, e);
    if !Opens(ev, e) {
      UntouchedEffect(s, Next(s, ev), ev, e);
    }
  }

  lemma QuietEffect<C>(s: HubState<C>, ev: Event<C>, e: string)
    requires Index(s) && Enabled(s, ev) && Quiet(ev)
    ensures Effect(s, Next(s, ev), ev, e)
  {
    UntouchedEffect(s, Next(s, ev), ev, e);
  }

  lemma StepEffect<C>(s: HubState<C>, ev: Event<C>, e: string)
    requires Index(s) && Enabled(s, ev)
    ensures Effect(s, Next(s, ev), ev, e)
  {
    hide BroadcastTo, UnregisteredAll, Unregistered, Unsubscribed, Subscribed, Index;
    if ev.Unregister? {
      UnregisterOne(s, ev.c);
      AfterUnregister(s, {ev.c}, e);
    } else if ev.EvictIdle? {
      AfterUnregister(s, ev.idle, e);
    } else if ev.Broadcast? {
      BroadcastCounts(s, ev.m, e);
    } else if ev.Unsubscribe? {
      UnsubscribeEffect(s, ev.c, ev.e, e);
    } else if ev.Subscribe? || ev.RequestSubscribe? {
      SubscribeEffect(s, ev, e);
    } else {
      QuietEffect(s, ev, e);
    }
  }

  lemma Removed<T>(s: set<T>, l: set<T>)
    ensures |s - l| == |s| - |l * s|
  {
    assert s == (s - l) + (l * s);
  }

  // ----- The balance of every run -----

  // Decrements that took no subscriber, less subscribers that left without a decrement.
  function Stray<C(==)>(subscribers: set<C>, count: nat, closers: set<C>): int {
    (if |closers| < count then |closers| else count) - |closers * subscribers|
  }

  ghost function Strays<C>(limit: int, evs: seq<Event<C>>, e: string): int
    requires ValidRun(limit, evs)
  {
    if evs == [] then 0
    else
      var p, ev := evs[..|evs| - 1], evs[|evs| - 1];
      var s := Run(limit, p);
      Strays(limit, p, e) + Stray(Subscribers(s, e), Count(s, e), Closers(s, ev, e))
  }

  lemma OpenersCloseNothing<C>(s: HubState<C>, ev: Event<C>, e: string)
    requires Index(s) && Enabled(s, ev)
    ensures Opens(ev, e) ==> Closers(s, ev, e) == {}
  {}

  lemma BalanceStep<C>(s: HubState<C>, ev: Event<C>, e: string)
    requires Index(s) && Enabled(s, ev)
    ensures var t := Next(s, ev);
      Count(t, e) - |Subscribers(t, e)|
        == Count(s, e) - |Subscribers(s, e)|
           + (if Opens(ev, e) && ev.c in Subscribers(s, e) then 1 else 0)
           - Stray(Subscribers(s, e), Count(s, e), Closers(s, ev, e))
  {
    StepEffect(s, ev, e);
    OpenersCloseNothing(s, ev, e);
    hide Next, Enabled, Index, Subscribers, Count, Closers;
    var subscribers := Subscribers(s, e);
    if Opens(ev, e) {
      assert {} * subscribers == {};
      if ev.c in subscribers {
        assert subscribers + {ev.c} == subscribers;
      }
    } else {
      Removed(subscribers, Closers(s, ev, e));
    }
  }

  // In every run, an execution's count is its number of subscribers, plus the repeated subscribes, minus
  // the decrements that took no subscriber.
  lemma {:induction false} CountBalance<C>(limit: int, evs: seq<Event<C>>, e: string)
    requires ValidRun(limit, evs)
    ensures var s := Run(limit, evs);
      Count(s, e) == |Subscribers(s, e)| + Repeats(limit, evs, e) - Strays(limit, evs, e)
  {
    hide Next, Enabled, Closers, Stray, Index;
    if evs == [] {
      NobodySubscribed<C>(limit, e);
    } else {
      var p := evs[..|evs| - 1];
      CountBalance(limit, p, e);
      BalanceStep(Run(limit, p), evs[|evs| - 1], e);
    }
  }

  lemma NobodySubscribed<C>(limit: int, e: string)
    ensures Count(NewHub<C>(limit), e) == 0 && Subscribers(NewHub<C>(limit), e) == {}
  {}

  lemma NoStray<C>(s: HubState<C>, ev: Event<C>, e: string)
    requires Index(s) && Alive(s) && Enabled(s, ev) && ClosesOnce(s, ev) && |Subscribers(s, e)| <= Count(s, e)
    ensures Stray(Subscribers(s, e), Count(s, e), Closers(s, ev, e)) == 0
  {
    ClosersSubscribe(s, ev, e);
    hide Index, Alive, Enabled, ClosesOnce, Closers, Subscribers, Count;
    var subscribers, closers := Subscribers(s, e), Closers(s, ev, e);
    Removed(subscribers, closers);
    assert closers * subscribers == closers;
  }

  // When subscriptions are closed once, only subscribers close them.
  lemma ClosersSubscribe<C>(s: HubState<C>, ev: Event<C>, e: string)
    requires Index(s) && Alive(s) && Enabled(s, ev) && ClosesOnce(s, ev)
    ensures Closers(s, ev, e) <= Subscribers(s, e)
  {
    forall c | c in Closers(s, ev, e) ensures c in s.cl && e in s.cl[c].subs && !s.cl[c].unregistered {}
  }

  // In a run that closes each subscription once, the count of an execution exceeds its number of
  // subscribers by exactly the number of repeated subscribes.
  lemma {:induction false} CountIsSubscribersPlusRepeats<C>(limit: int, evs: seq<Event<C>>, e: string)
    requires ValidRun(limit, evs) && ClosesOnceRun(limit, evs)
    ensures Alive(Run(limit, evs)) && Strays(limit, evs, e) == 0
    ensures Count(Run(limit, evs), e) == |Subscribers(Run(limit, evs), e)| + Repeats(limit, evs, e)
  {
    CountBalance(limit, evs, e);
    hide Next, Enabled, Closers, Stray, Index, ClosesOnce;
    if evs == [] {
      assert Alive(NewHub<C>(limit));
    } else {
      var p := evs[..|evs| - 1];
      CountIsSubscribersPlusRepeats(limit, p, e);
      hide Alive;
      NextKeepsAlive(Run(limit, p), evs[|evs| - 1]);
      NoStray(Run(limit, p), evs[|evs| - 1], e);
    }
  }

  // ----- The limit -----

  // All subscribes go through the limit check of handleMessage.
  predicate AllGuarded<C>(evs: seq<Event<C>>) {
    forall i | 0 <= i < |evs| :: !evs[i].Subscribe?
  }

  lemma LimitIsFixed<C>(s: HubState<C>, ev: Event<C>)
    requires Index(s) && Enabled(s, ev)
    ensures Next(s, ev).limit == s.limit
  {}

  lemma {:induction false} RunLimit<C>(limit: int, evs: seq<Event<C>>)
    requires ValidRun(limit, evs)
    ensures Run(limit, evs).limit == limit
  {
    hide Next, Enabled, Index;
    if evs != [] {
      RunLimit(limit, evs[..|evs| - 1]);
      LimitIsFixed(Run(limit, evs[..|evs| - 1]), evs[|evs| - 1]);
    }
  }

  lemma CountStaysBelow<C>(s: HubState<C>, ev: Event<C>, e: string)
    requires Index(s) && Enabled(s, ev) && s.limit > 0 && Count(s, e) <= s.limit && !ev.Subscribe?
    ensures Count(Next(s, ev), e) <= s.limit
  {
    StepEffect(s, ev, e);
    hide Next, Index, Closers;
  }

  lemma {:induction false} CountsStayBelow<C>(limit: int, evs: seq<Event<C>>, e: string)
    requires ValidRun(limit, evs) && limit > 0 && AllGuarded(evs)
    ensures Count(Run(limit, evs), e) <= limit
  {
    hide Next, Enabled, Index;
    if evs != [] {
      var p := evs[..|evs| - 1];
      CountsStayBelow(limit, p, e);
      RunLimit(limit, p);
      CountStaysBelow(Run(limit, p), evs[|evs| - 1], e);
    }
  }

  // With atomic check-then-subscribe and subscriptions closed once, no execution ever has more
  // subscribers than MaxConnectionsPerExecution.
  lemma LimitHolds<C>(limit: int, evs: seq<Event<C>>, e: string)
    requires ValidRun(limit, evs) && ClosesOnceRun(limit, evs) && limit > 0 && AllGuarded(evs)
    ensures |Subscribers(Run(limit, evs), e)| <= limit
  {
    CountIsSubscribersPlusRepeats(limit, evs, e);
    CountsStayBelow(limit, evs, e);
  }

  // A new subscriber to an execution that is at its limit.
  ghost predicate Overfills<C>(limit: int, s: HubState<C>, ev: Event<C>, e: string) {
    Opens(ev, e) && ev.c !in Subscribers(s, e) && |Subscribers(s, e)| == limit
  }

  // Subscribers within the limit stay so exactly if the step does not overfill.
  lemma StepExceedsIff<C>(limit: int, s: HubState<C>, ev: Event<C>, e: string)
    requires Index(s) && Enabled(s, ev) && |Subscribers(s, e)| <= limit
    ensures |Subscribers(Next(s, ev), e)| > limit <==> Overfills(limit, s, ev, e)
  {
    StepEffect(s, ev, e);
    hide Next, Enabled, Index, Subscribers, Count, Closers;
    var subscribers := Subscribers(s, e);
    if Opens(ev, e) {
      if ev.c in subscribers {
        assert subscribers + {ev.c} == subscribers;
      }
    } else {
      Removed(subscribers, Closers(s, ev, e));
    }
  }

  ghost predicate WithinLimit<C>(limit: int, evs: seq<Event<C>>, e: string)
    requires ValidRun(limit, evs)
  {
    |Subscribers(Run(limit, evs), e)| <= limit && (evs == [] || WithinLimit(limit, evs[..|evs| - 1], e))
  }

  ghost predicate NeverOverfills<C>(limit: int, evs: seq<Event<C>>, e: string)
    requires ValidRun(limit, evs)
  {
    evs == []
    || (var p := evs[..|evs| - 1];
        NeverOverfills(limit, p, e) && !Overfills(limit, Run(limit, p), evs[|evs| - 1], e))
  }

  // Whatever the run, an execution stays within the limit throughout if and only if no client subscribes
  // to it that is not a subscriber while it is at the limit.
  lemma {:induction false} LimitHoldsIff<C>(limit: int, evs: seq<Event<C>>, e: string)
    requires ValidRun(limit, evs) && limit >= 0
    ensures WithinLimit(limit, evs, e) <==> NeverOverfills(limit, evs, e)
  {
    hide Next, Enabled, Overfills, Index;
    if evs == [] {
      NobodySubscribed<C>(limit, e);
    } else {
      var p := evs[..|evs| - 1];
      LimitHoldsIff(limit, p, e);
      if WithinLimit(limit, p, e) {
        StepExceedsIff(limit, Run(limit, p), evs[|evs| - 1], e);
      }
    }
  }

  // The check of handleMessage lets a client through at the limit exactly if more decrements took no
  // subscriber than there were repeated subscribes.
  lemma CheckedSubscribeOverfillsIff<C>(limit: int, evs: seq<Event<C>>, c: C, e: string)
    requires ValidRun(limit, evs) && limit > 0 && |Subscribers(Run(limit, evs), e)| <= limit
    requires c in Run(limit, evs).cl
    ensures var s := Run(limit, evs);
      var ev := RequestSubscribe(c, e, !LimitReached(s, e));
      (|Subscribers(Next(s, ev), e)| > limit
       <==> c !in Subscribers(s, e) && |Subscribers(s, e)| == limit
            && Strays(limit, evs, e) > Repeats(limit, evs, e))
  {
    RunLimit(limit, evs);
    CountBalance(limit, evs, e);
    hide Next, Index, Run, ValidRun, Strays, Repeats, Count, Subscribers;
    var s := Run(limit, evs);
    StepExceedsIff(limit, s, RequestSubscribe(c, e, !LimitReached(s, e)), e);
  }

  // ----- Exactly when one step keeps an exact count exact -----

  // A step keeps an exact count exact if and only if it is not a repeated subscribe, and its closers are
  // all subscribers or include all of them.
  lemma CountStaysExactIff<C>(s: HubState<C>, ev: Event<C>, e: string)
    requires Index(s) && Enabled(s, ev) && Count(s, e) == |Subscribers(s, e)|
    ensures var t, subscribers, closers := Next(s, ev), Subscribers(s, e), Closers(s, ev, e);
      (Count(t, e) == |Subscribers(t, e)|
       <==> !(Opens(ev, e) && ev.c in subscribers) && (closers <= subscribers || subscribers <= closers))
  {
    BalanceStep(s, ev, e);
    ExactlyWithoutStray(Subscribers(s, e), Closers(s, ev, e));
    OpenersCloseNothing(s, ev, e);
    hide Next, Enabled, Index, Subscribers, Count, Stray, Closers;
  }

  lemma ExactlyWithoutStray<T>(subscribers: set<T>, closers: set<T>)
    ensures Stray(subscribers, |subscribers|, closers) == 0 <==> closers <= subscribers || subscribers <= closers
  {
    var both := closers * subscribers;
    assert both <= closers && both <= subscribers;
    EqualSize(both, closers);
    EqualSize(both, subscribers);
  }

  lemma EqualSize<T>(a: set<T>, b: set<T>)
    requires a <= b
    ensures |a| <= |b| && (|a| == |b| <==> a == b)
  {
    assert b == a + (b - a);
  }

  // Evicting or unregistering a set of clients, in particular.
  lemma UnregisterStaysExactIff<C>(s: HubState<C>, gone: set<C>, e: string)
    requires Index(s) && gone <= s.cl.Keys && Count(s, e) == |Subscribers(s, e)|
    ensures var t, leaving := UnregisteredAll(s, gone), Leaving(s, gone, e);
      Count(t, e) == |Subscribers(t, e)| <==> leaving <= Subscribers(s, e) || Subscribers(s, e) <= leaving
  {
    AfterUnregister(s, gone, e);
    hide UnregisteredAll, Index, Leaving, Subscribers, Count;
    Removed(Subscribers(s, e), Leaving(s, gone, e));
    ExactlyWithoutStray(Subscribers(s, e), Leaving(s, gone, e));
  }
}
