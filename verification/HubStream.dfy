/** What one client sees: exactly the broadcasts it asked for, without gaps, up to its eviction. */
module HubStreams {
  import opened Options
  import opened Messages
  import opened LogLevels
  import opened HubStates
  import opened HubRuns

  // A client's stream as it can be read off its own requests: the executions it wants, its
  // filter, and the broadcasts that match them. The hub's structures play no part.
  datatype Wish = Wish(wants: set<string>, filter: LevelFilter, out: seq<BroadcastMessage>)

  function Asked<C(==)>(evs: seq<Event<C>>, c: C): Wish {
    if evs == [] then Wish({}, None, [])
    else
      var w := Asked(evs[..|evs| - 1], c);
      match evs[|evs| - 1]
      case Subscribe(d, e) => if d == c then w.(wants := w.wants + {e}) else w
      case RequestSubscribe(d, e, granted) => if d == c && granted then w.(wants := w.wants + {e}) else w
      case Unsubscribe(d, e) => if d == c then w.(wants := w.wants - {e}) else w
      case SetFilter(d, f) => if d == c then w.(filter := f) else w
      case Broadcast(m) =>
        if m.executionId in w.wants && (m.level == "" || w.filter.None? || m.level in w.filter.value)
        then w.(out := w.out + [m]) else w
      case _ => w
  }

  function Processed<C(==)>(evs: seq<Event<C>>): seq<BroadcastMessage> {
    if evs == [] then []
    else
      var ev := evs[|evs| - 1];
      Processed(evs[..|evs| - 1]) + (if ev.Broadcast? then [ev.m] else [])
  }

  // A broadcast gives each passing client with room the message as its last queue item,
  // unregisters each passing client without room, and leaves every other client alone.
  lemma BroadcastEffect<C>(s: HubState<C>, m: BroadcastMessage, c: C)
    requires Index(s) && c in s.cl
    ensures var x, y := s.cl[c], BroadcastTo(s, m).cl[c];
      if c !in Subscribers(s, m.executionId) || !Passes(x, m) then y == x
      else if |x.queue| < x.cap then y == x.(queue := x.queue + [Broadcasted(m)], got := x.got + [m])
      else y == x.(closed := x.closed || c in s.clients, unregistered := true)
    ensures |s.cl[c].queue| >= s.cl[c].cap && c in Passing(s, m) ==>
      c !in BroadcastTo(s, m).clients && forall e :: c !in Subscribers(BroadcastTo(s, m), e)
  {
    SendsChangeQueuesOnly(s, m);
    var full := Overfull(s, Passing(s, m));
    if c in full {
      forall e ensures c !in Subscribers(BroadcastTo(s, m), e) {
        AfterUnregister(AfterSends(s, m), full, e);
      }
    }
  }

  lemma BroadcastKeepsClients<C>(s: HubState<C>, m: BroadcastMessage)
    requires Index(s)
    ensures BroadcastTo(s, m).cl.Keys == s.cl.Keys
  {
    SendsChangeQueuesOnly(s, m);
    var t, full := AfterSends(s, m), Overfull(s, Passing(s, m));
    assert forall c :: c in UnregisteredAll(t, full).cl <==> c in t.cl;
  }

  ghost predicate Follows<C>(s: HubState<C>, c: C, w: Wish) {
    if c in s.cl then
      !s.cl[c].unregistered ==>
        s.cl[c].subs == w.wants && s.cl[c].filter == w.filter && s.cl[c].got == w.out
    else w == Wish({}, None, [])
  }

  lemma FollowBroadcast<C>(limit: int, p: seq<Event<C>>, m: BroadcastMessage, c: C)
    requires ValidRun(limit, p) && Follows(Run(limit, p), c, Asked(p, c))
    ensures Follows(BroadcastTo(Run(limit, p), m), c, Asked(p + [Broadcast(m)], c))
  {
    hide BroadcastTo, Run, ValidRun, Passing;
    var s := Run(limit, p);
    assert (p + [Broadcast(m)])[..|p|] == p;
    BroadcastKeepsClients(s, m);
    if c in s.cl {
      BroadcastEffect(s, m, c);
      assert !s.cl[c].unregistered ==> (c in Subscribers(s, m.executionId) <==> m.executionId in s.cl[c].subs);
    }
  }

  lemma FollowStep<C>(limit: int, p: seq<Event<C>>, ev: Event<C>, c: C)
    requires ValidRun(limit, p) && Enabled(Run(limit, p), ev)
    requires Follows(Run(limit, p), c, Asked(p, c))
    ensures Follows(Next(Run(limit, p), ev), c, Asked(p + [ev], c))
  {
    hide BroadcastTo, Run, ValidRun, WithoutClient, Decremented, Leaving;
    if ev.Broadcast? {
      FollowBroadcast(limit, p, ev.m, c);
    } else {
      assert (p + [ev])[..|p|] == p;
    }
  }

  // As long as a client has not been unregistered, the hub has put on its Send channel exactly
  // the broadcasts it asked for, in order.
  lemma {:induction false} FollowsWish<C>(limit: int, evs: seq<Event<C>>, c: C)
    requires ValidRun(limit, evs)
    ensures Follows(Run(limit, evs), c, Asked(evs, c))
  {
    if evs != [] {
      var p, ev := evs[..|evs| - 1], evs[|evs| - 1];
      FollowsWish(limit, p, c);
      FollowStep(limit, p, ev, c);
      assert evs == p + [ev];
    }
  }

  // The messages for wanted executions that have no level or one that the parameter lists.
  function Selected(ms: seq<BroadcastMessage>, wants: set<string>, param: string): seq<BroadcastMessage> {
    if ms == [] then []
    else
      var m := ms[|ms| - 1];
      Selected(ms[..|ms| - 1], wants, param)
      + if m.executionId in wants && (m.level == "" || (m.level in VALID_LEVELS && Listed(param, m.level)))
        then [m] else []
  }

  // The event is none of c's own requests.
  predicate LeavesWish<C(==)>(ev: Event<C>, c: C) {
    !((ev.Subscribe? || ev.RequestSubscribe? || ev.Unsubscribe? || ev.SetFilter?) && ev.c == c)
  }

  lemma LeftWish<C>(r: seq<Event<C>>, ev: Event<C>, c: C)
    requires LeavesWish(ev, c)
    ensures var w, v := Asked(r, c), Asked(r + [ev], c);
      v.wants == w.wants && v.filter == w.filter
      && v.out == w.out + if ev.Broadcast? && ev.m.executionId in w.wants
                             && (ev.m.level == "" || w.filter.None? || ev.m.level in w.filter.value)
                          then [ev.m] else []
  {
    assert (r + [ev])[..|r + [ev]| - 1] == r;
  }

  lemma SelectedStep<C>(q: seq<Event<C>>, ev: Event<C>, wants: set<string>, param: string)
    ensures Selected(Processed(q + [ev]), wants, param)
            == Selected(Processed(q), wants, param)
               + if ev.Broadcast? && ev.m.executionId in wants
                    && (ev.m.level == "" || (ev.m.level in VALID_LEVELS && Listed(param, ev.m.level)))
                 then [ev.m] else []
  {
    hide Listed;
    var ms := Processed(q);
    assert (q + [ev])[..|q + [ev]| - 1] == q;
    if ev.Broadcast? {
      assert (ms + [ev.m])[..|ms + [ev.m]| - 1] == ms;
    } else {
      assert ms + [] == ms;
    }
  }

  lemma {:induction false} SelectedIsAsked<C>(p: seq<Event<C>>, q: seq<Event<C>>, c: C, param: string)
    requires forall i | 0 <= i < |q| :: LeavesWish(q[i], c)
    requires Asked(p, c).filter == FilterOf(param) && FilterOf(param).Some?
    ensures var w, v := Asked(p, c), Asked(p + q, c);
      v.wants == w.wants && v.filter == w.filter && v.out == w.out + Selected(Processed(q), w.wants, param)
    decreases |q|
  {
    hide FilterOf, Listed, LeavesWish;
    if q == [] {
      assert p + q == p;
    } else {
      hide Asked, Processed, Selected;
      var most, ev := q[..|q| - 1], q[|q| - 1];
      SelectedIsAsked(p, most, c, param);
      assert p + q == (p + most) + [ev] && q == most + [ev];
      LeftWish(p + most, ev, c);
      SelectedStep(most, ev, Asked(p, c).wants, param);
      FilterIsListed(param);
    }
  }

  // A client that has set the filter of a parameter listing some of the four levels, and makes no request
  // after that, has been sent from then on exactly the broadcasts for its executions whose level is
  // listed, and those without a level.
  lemma FilteredStream<C>(limit: int, p: seq<Event<C>>, q: seq<Event<C>>, c: C, param: string)
    requires ValidRun(limit, p + q) && ValidRun(limit, p) && c in Run(limit, p).cl && c in Run(limit, p + q).cl
    requires !Run(limit, p).cl[c].unregistered && !Run(limit, p + q).cl[c].unregistered
    requires Run(limit, p).cl[c].filter == FilterOf(param) && FilterOf(param).Some?
    requires forall i | 0 <= i < |q| :: LeavesWish(q[i], c)
    ensures var before, after := Run(limit, p).cl[c], Run(limit, p + q).cl[c];
      after.got == before.got + Selected(Processed(q), before.subs, param)
  {
    FollowsWish(limit, p, c);
    FollowsWish(limit, p + q, c);
    hide ValidRun, Run, FilterOf, Asked, Selected, Processed, LeavesWish;
    SelectedIsAsked(p, q, c, param);
  }

  lemma {:induction false} ValidPrefix<C>(limit: int, evs: seq<Event<C>>, k: nat)
    requires ValidRun(limit, evs) && k <= |evs|
    ensures ValidRun(limit, evs[..k])
    decreases |evs|
  {
    if k < |evs| {
      assert evs[..|evs| - 1][..k] == evs[..k];
      ValidPrefix(limit, evs[..|evs| - 1], k);
    } else {
      assert evs[..k] == evs;
    }
  }

  predicate SubscribesClient<C(==)>(ev: Event<C>, c: C) {
    (ev.Subscribe? && ev.c == c) || (ev.RequestSubscribe? && ev.granted && ev.c == c)
  }

  // An unregistered client that is in no subscriber set.
  ghost predicate Detached<C>(s: HubState<C>, c: C) {
    c in s.cl && s.cl[c].unregistered && forall e | e in s.subs :: c !in s.subs[e]
  }

  lemma UnregisterKeepsDetached<C>(s: HubState<C>, gone: set<C>, c: C)
    requires Index(s) && gone <= s.cl.Keys && (Detached(s, c) || c in gone)
    ensures Detached(UnregisteredAll(s, gone), c)
    ensures UnregisteredAll(s, gone).cl[c].got == s.cl[c].got
  {
    var t := UnregisteredAll(s, gone);
    forall e | e in t.subs ensures c !in t.subs[e] {
      AfterUnregister(s, gone, e);
    }
  }

  lemma BroadcastKeepsDetached<C>(s: HubState<C>, m: BroadcastMessage, c: C)
    requires Index(s) && c in s.cl
    requires Detached(s, c) || (!s.cl[c].unregistered && BroadcastTo(s, m).cl[c].unregistered)
    ensures Detached(BroadcastTo(s, m), c) && BroadcastTo(s, m).cl[c].got == s.cl[c].got
  {
    SendsChangeQueuesOnly(s, m);
    BroadcastEffect(s, m, c);
    if Detached(s, c) {
      assert Detached(AfterSends(s, m), c);
    }
    UnregisterKeepsDetached(AfterSends(s, m), Overfull(s, Passing(s, m)), c);
  }

  lemma UnsubscribeKeepsDetached<C>(s: HubState<C>, d: C, e: string, c: C)
    requires Index(s) && d in s.cl && Detached(s, c)
    ensures var t := Unsubscribed(s, d, e); Detached(t, c) && t.cl[c].got == s.cl[c].got
  {
    var t := Unsubscribed(s, d, e);
    forall e' | e' in t.subs ensures c !in t.subs[e'] {
      AfterUnsubscribe(s, d, e, e');
    }
  }

  lemma SubscribeKeepsDetached<C>(s: HubState<C>, d: C, e: string, c: C)
    requires Index(s) && d in s.cl && Detached(s, c) && d != c
    ensures var t := Subscribed(s, d, e); Detached(t, c) && t.cl[c].got == s.cl[c].got
  {}

  lemma QuietKeepsDetached<C>(s: HubState<C>, ev: Event<C>, c: C)
    requires Index(s) && Enabled(s, ev) && c in s.cl && Quiet(ev)
    ensures Next(s, ev).cl[c].unregistered == s.cl[c].unregistered
    ensures Detached(s, c) ==> Detached(Next(s, ev), c) && Next(s, ev).cl[c].got == s.cl[c].got
  {}

  // Subscription changes unregister nobody.
  lemma SubscriptionsUnregisterNobody<C>(s: HubState<C>, ev: Event<C>, c: C)
    requires Index(s) && Enabled(s, ev) && c in s.cl && (ev.Subscribe? || ev.RequestSubscribe? || ev.Unsubscribe?)
    ensures c in Next(s, ev).cl && Next(s, ev).cl[c].unregistered == s.cl[c].unregistered
  {}

  // The step that unregisters a client, and every later one, gives it no broadcast.
  lemma DetachedStep<C>(s: HubState<C>, ev: Event<C>, c: C)
    requires Index(s) && Enabled(s, ev) && c in s.cl
    requires Detached(s, c) || (!s.cl[c].unregistered && Next(s, ev).cl[c].unregistered)
    requires !SubscribesClient(ev, c)
    ensures Detached(Next(s, ev), c) && Next(s, ev).cl[c].got == s.cl[c].got
  {
    if Quiet(ev) {
      hide Next, Detached;
      QuietKeepsDetached(s, ev, c);
    } else if ev.Unregister? {
      UnregisterOne(s, ev.c);
      hide Detached, UnregisteredAll;
      UnregisterKeepsDetached(s, {ev.c}, c);
    } else if ev.EvictIdle? {
      UnregisterKeepsDetached(s, ev.idle, c);
    } else if ev.Broadcast? {
      hide Detached, BroadcastTo;
      BroadcastKeepsDetached(s, ev.m, c);
    } else {
      SubscriptionsUnregisterNobody(s, ev, c);
      hide Detached, Subscribed, Unsubscribed;
      if ev.Unsubscribe? {
        UnsubscribeKeepsDetached(s, ev.c, ev.e, c);
      } else if ev.Subscribe? || ev.granted {
        SubscribeKeepsDetached(s, ev.c, ev.e, c);
      }
    }
  }

  // The client is unregistered by event k of the run, or not at all when k is its length.
  ghost predicate UnregisteredAt<C>(limit: int, evs: seq<Event<C>>, c: C, k: nat)
    requires ValidRun(limit, evs) && k <= |evs|
  {
    ValidPrefix(limit, evs, k);
    && c in Run(limit, evs[..k]).cl && !Run(limit, evs[..k]).cl[c].unregistered
    && (k < |evs| ==>
          (ValidPrefix(limit, evs, k + 1);
           c in Run(limit, evs[..k + 1]).cl && Run(limit, evs[..k + 1]).cl[c].unregistered))
  }

  lemma {:induction false} StaysDetached<C>(limit: int, evs: seq<Event<C>>, c: C, k: nat)
    requires ValidRun(limit, evs) && k < |evs| && UnregisteredAt(limit, evs, c, k)
    requires forall i | k <= i < |evs| :: !SubscribesClient(evs[i], c)
    ensures Detached(Run(limit, evs), c)
    ensures ValidRun(limit, evs[..k]) && c in Run(limit, evs[..k]).cl
    ensures Run(limit, evs).cl[c].got == Run(limit, evs[..k]).cl[c].got
    decreases |evs|
  {
    ValidPrefix(limit, evs, k);
    ValidPrefix(limit, evs, k + 1);
    var p, ev := evs[..|evs| - 1], evs[|evs| - 1];
    assert p[..k] == evs[..k];
    if k + 1 < |evs| {
      assert p[..k + 1] == evs[..k + 1];
      StaysDetached(limit, p, c, k);
    } else {
      assert evs[..k + 1] == evs && p == evs[..k];
    }
    DetachedStep(Run(limit, p), ev, c);
  }

  // No silent gaps: a client that does not subscribe again after its unregistration has been sent
  // exactly the processed broadcasts it asked for until then, and none afterwards.
  lemma NoGaps<C>(limit: int, evs: seq<Event<C>>, c: C, k: nat)
    requires ValidRun(limit, evs) && k <= |evs| && UnregisteredAt(limit, evs, c, k)
    requires forall i | k <= i < |evs| :: !SubscribesClient(evs[i], c)
    ensures c in Run(limit, evs).cl
    ensures Run(limit, evs).cl[c].got == Asked(evs[..k], c).out
  {
    ValidPrefix(limit, evs, k);
    FollowsWish(limit, evs[..k], c);
    if k < |evs| {
      StaysDetached(limit, evs, c, k);
    } else {
      assert evs[..k] == evs;
    }
  }

  // A reply becomes the client's last queue item exactly if its channel is open and has room; nothing
  // else changes.
  lemma ReplyEffect<C>(s: HubState<C>, c: C, text: string)
    requires c in s.cl
    ensures var x, t := s.cl[c], Replied(s, c, text);
      && t == s.(cl := t.cl) && t.cl.Keys == s.cl.Keys && (forall d | d in s.cl && d != c :: t.cl[d] == s.cl[d])
      && t.cl[c] == x.(queue := t.cl[c].queue)
      && t.cl[c].queue == x.queue + if x.closed || |x.queue| >= x.cap then [] else [Reply(text)]
  {}

  // ----- The Send channel is a FIFO of what was sent -----

  function OnlyBroadcasts(items: seq<Item>): seq<BroadcastMessage> {
    if items == [] then []
    else
      var i := items[|items| - 1];
      OnlyBroadcasts(items[..|items| - 1]) + (if i.Broadcasted? then [i.message] else [])
  }

  predicate Fifo(c: ClientState) {
    OnlyBroadcasts(c.taken + c.queue) == c.got
  }

  lemma FifoPush(c: ClientState, i: Item)
    requires Fifo(c)
    ensures OnlyBroadcasts(c.taken + (c.queue + [i])) == c.got + (if i.Broadcasted? then [i.message] else [])
  {
    var items := c.taken + c.queue;
    assert c.taken + (c.queue + [i]) == items + [i];
    assert (items + [i])[..|items|] == items;
  }

  lemma FifoBroadcast<C>(s: HubState<C>, m: BroadcastMessage, c: C)
    requires Index(s) && c in s.cl && Fifo(s.cl[c])
    ensures c in BroadcastTo(s, m).cl && Fifo(BroadcastTo(s, m).cl[c])
  {
    hide OnlyBroadcasts, BroadcastTo, Passing, Index;
    BroadcastKeepsClients(s, m);
    BroadcastEffect(s, m, c);
    FifoPush(s.cl[c], Broadcasted(m));
  }

  lemma FifoTake(c: ClientState)
    requires Fifo(c) && c.queue != []
    ensures Fifo(c.(queue := c.queue[1..], taken := c.taken + [c.queue[0]]))
  {
    assert c.taken + [c.queue[0]] + c.queue[1..] == c.taken + c.queue;
  }

  lemma FifoStep<C>(s: HubState<C>, ev: Event<C>, c: C)
    requires Index(s) && Enabled(s, ev) && c in s.cl && Fifo(s.cl[c])
    ensures c in Next(s, ev).cl && Fifo(Next(s, ev).cl[c])
  {
    hide OnlyBroadcasts;
    match ev
    case Broadcast(m) => FifoBroadcast(s, m, c);
    case SendReply(d, text) => FifoPush(s.cl[c], Reply(text));
    case Take(d) => if d == c { FifoTake(s.cl[c]); }
    case _ => SameQueue(s, ev, c);
  }

  lemma SameQueue<C>(s: HubState<C>, ev: Event<C>, c: C)
    requires Known(s) && Enabled(s, ev) && c in s.cl && !ev.Broadcast? && !ev.SendReply? && !ev.Take?
    ensures var x, t := s.cl[c], Next(s, ev);
      c in t.cl && t.cl[c].queue == x.queue && t.cl[c].taken == x.taken && t.cl[c].got == x.got
  {}

  lemma NewClientIsFifo(cap: nat)
    ensures Fifo(NewClient(cap))
  {}

  // Only Create makes a client, and makes it new.
  lemma Created<C>(s: HubState<C>, ev: Event<C>, c: C)
    requires Index(s) && Enabled(s, ev) && c !in s.cl && c in Next(s, ev).cl
    ensures ev.Create? && Next(s, ev).cl[c] == NewClient(ev.cap)
  {
    if ev.Broadcast? {
      BroadcastKeepsClients(s, ev.m);
    }
  }

  // What a client has taken from Send, and then what is waiting in it, are the broadcasts sent to
  // it in the order they were processed.
  lemma {:induction false} SendIsFifo<C>(limit: int, evs: seq<Event<C>>, c: C)
    requires ValidRun(limit, evs) && c in Run(limit, evs).cl
    ensures Fifo(Run(limit, evs).cl[c])
  {
    hide Fifo, Next, Enabled, NewClient;
    if evs == [] {
      NobodyAtFirst(limit, c);
    } else {
      var p, ev := evs[..|evs| - 1], evs[|evs| - 1];
      if c in Run(limit, p).cl {
        SendIsFifo(limit, p, c);
        FifoStep(Run(limit, p), ev, c);
      } else {
        Created(Run(limit, p), ev, c);
        NewClientIsFifo(ev.cap);
      }
    }
  }

  lemma NobodyAtFirst<C>(limit: int, c: C)
    ensures c !in NewHub<C>(limit).cl
  {}
}
