/** The per-IP rate limiter on values: a fixed window per visitor, a cleanup of stale visitors, and
    what any trace of requests can get out of it. Times are integers. An operation of a trace reads the
    clock once; an Allow that reads it a second time, as the source does, is Retry at the first reading
    followed by Request at the second. */
module RateLimits {

  datatype Visitor = Visitor(count: int, lastSeen: int, resetTime: int)

  type Visitors = map<string, Visitor>

  datatype Config = Config(rate: int, window: int)

  datatype Op =
    | Request(ip: string, at: int)  // Allow
    | Retry(ip: string, at: int)    // GetRetryAfter, or getVisitor alone
    | Cleanup(at: int, found: set<string>)  // one tick of cleanupVisitors, which found these to be stale

  // getVisitor.
  function Visit(c: Config, vs: Visitors, ip: string, now: int): Visitor {
    if ip in vs then vs[ip] else Visitor(0, now, now + c.window)
  }

  // Allow up to the limit check: the counter restarts once the window is over.
  function Refreshed(c: Config, v: Visitor, now: int): Visitor {
    if now > v.resetTime then Visitor(0, now, now + c.window) else v.(lastSeen := now)
  }

  predicate Granted(c: Config, vs: Visitors, ip: string, now: int) {
    Refreshed(c, Visit(c, vs, ip, now), now).count < c.rate
  }

  function Counted(c: Config, v: Visitor, now: int): Visitor {
    var r := Refreshed(c, v, now);
    if r.count < c.rate then r.(count := r.count + 1) else r
  }

  function Allowed(c: Config, vs: Visitors, ip: string, now: int): Visitors {
    vs[ip := Counted(c, Visit(c, vs, ip, now), now)]
  }

  function RetryAfter(c: Config, vs: Visitors, ip: string, now: int): int {
    var v := Visit(c, vs, ip, now);
    if now > v.resetTime then 0 else v.resetTime - now
  }

  predicate Stale(c: Config, v: Visitor, now: int) {
    now - v.lastSeen > c.window * 2
  }

  // Each visitor has a clock reading of its own, at the latest now.
  function Cleaned(c: Config, vs: Visitors, now: int, found: set<string>): Visitors {
    map ip | ip in vs && !(ip in found && Stale(c, vs[ip], now)) :: vs[ip]
  }

  function Step(c: Config, vs: Visitors, op: Op): Visitors {
    match op
    case Request(ip, now) => Allowed(c, vs, ip, now)
    case Retry(ip, now) => vs[ip := Visit(c, vs, ip, now)]
    case Cleanup(now, found) => Cleaned(c, vs, now, found)
  }

  function RunFrom(c: Config, vs: Visitors, ops: seq<Op>): Visitors {
    if ops == [] then vs else Step(c, RunFrom(c, vs, ops[..|ops| - 1]), ops[|ops| - 1])
  }

  function Run(c: Config, ops: seq<Op>): Visitors {
    RunFrom(c, map[], ops)
  }

  // A monotone clock.
  predicate Sorted(ops: seq<Op>) {
    forall i, j | 0 <= i < j < |ops| :: ops[i].at <= ops[j].at
  }

  // The last operation of ops is an allowed request of ip within [from, to].
  predicate Hit(c: Config, ops: seq<Op>, ip: string, from: int, to: int)
    requires ops != []
  {
    var op := ops[|ops| - 1];
    op.Request? && op.ip == ip && from <= op.at <= to && Granted(c, Run(c, ops[..|ops| - 1]), ip, op.at)
  }

  function AllowedIn(c: Config, ops: seq<Op>, ip: string, from: int, to: int): nat {
    if ops == [] then 0
    else AllowedIn(c, ops[..|ops| - 1], ip, from, to) + (if Hit(c, ops, ip, from, to) then 1 else 0)
  }

  // Every GetRetryAfter finds its visitor, as the middleware's call right after a denied Allow does.
  ghost predicate RetriesFindVisitor(c: Config, ops: seq<Op>) {
    forall i | 0 <= i < |ops| && ops[i].Retry? :: ops[i].ip in Run(c, ops[..i])
  }

  lemma PrefixFindsVisitor(c: Config, ops: seq<Op>)
    requires ops != [] && RetriesFindVisitor(c, ops)
    ensures RetriesFindVisitor(c, ops[..|ops| - 1])
  {
    var p := ops[..|ops| - 1];
    forall i | 0 <= i < |p| && p[i].Retry? ensures p[i].ip in Run(c, p[..i]) {
      assert p[..i] == ops[..i] && ops[i] == p[i];
    }
  }

  // What every visitor satisfies in every run: a period never outlasts its last request by more than
  // the window.
  ghost predicate Timely(c: Config, vs: Visitors, now: int) {
    forall ip | ip in vs ::
      vs[ip].resetTime <= vs[ip].lastSeen + c.window && vs[ip].lastSeen <= now && vs[ip].count >= 0
  }

  lemma {:induction false} RunIsTimely(c: Config, ops: seq<Op>, now: int)
    requires Sorted(ops) && (ops != [] ==> ops[|ops| - 1].at <= now)
    ensures Timely(c, Run(c, ops), now)
  {
    if ops != [] {
      RunIsTimely(c, ops[..|ops| - 1], ops[|ops| - 1].at);
    }
  }

  // A visitor seen at time t is still there within two windows: GetRetryAfter finds it even when
  // other requests and cleanups come between the denied Allow and the call.
  lemma {:induction false} VisitorStays(c: Config, vs: Visitors, ops: seq<Op>, ip: string, t: int)
    requires ip in vs && t <= vs[ip].lastSeen
    requires forall i | 0 <= i < |ops| :: t <= ops[i].at <= t + 2 * c.window
    ensures ip in RunFrom(c, vs, ops) && t <= RunFrom(c, vs, ops)[ip].lastSeen
  {
    if ops != [] {
      VisitorStays(c, vs, ops[..|ops| - 1], ip, t);
    }
  }

  lemma {:induction false} RunFromBoth(c: Config, vs: Visitors, a: seq<Op>, b: seq<Op>)
    ensures RunFrom(c, vs, a + b) == RunFrom(c, RunFrom(c, vs, a), b)
    decreases |b|
  {
    if b == [] {
      assert a + b == a;
    } else {
      var ops := a + b;
      assert ops[..|ops| - 1] == a + b[..|b| - 1];
      RunFromBoth(c, vs, a, b[..|b| - 1]);
    }
  }

  // Every GetRetryAfter comes within two windows of an Allow for the same address, as in the middleware.
  predicate RetriesFollowRequests(c: Config, ops: seq<Op>) {
    forall i | 0 <= i < |ops| && ops[i].Retry? :: exists j ::
      0 <= j < i && ops[j].Request? && ops[j].ip == ops[i].ip && ops[i].at <= ops[j].at + 2 * c.window
  }

  // Then it finds the visitor.
  lemma FollowingRequestsIsEnough(c: Config, ops: seq<Op>)
    requires Sorted(ops) && RetriesFollowRequests(c, ops)
    ensures RetriesFindVisitor(c, ops)
  {
    forall i | 0 <= i < |ops| && ops[i].Retry? ensures ops[i].ip in Run(c, ops[..i]) {
      var j :| 0 <= j < i && ops[j].Request? && ops[j].ip == ops[i].ip && ops[i].at <= ops[j].at + 2 * c.window;
      RequestIsRemembered(c, ops, j, i);
    }
  }

  lemma RequestIsRemembered(c: Config, ops: seq<Op>, j: nat, i: nat)
    requires Sorted(ops) && j < i < |ops| && ops[j].Request? && ops[i].at <= ops[j].at + 2 * c.window
    ensures ops[j].ip in Run(c, ops[..i])
  {
    var before, between := ops[..j + 1], ops[j + 1..i];
    assert ops[..i] == before + between;
    assert before[..|before| - 1] == ops[..j];
    RunFromBoth(c, map[], before, between);
    VisitorStays(c, Run(c, before), between, ops[j].ip, ops[j].at);
  }

  // An Allow with two clock readings; a single reading makes it the one operation.
  lemma TwoReadings(c: Config, vs: Visitors, ip: string, seen: int, now: int)
    ensures Step(c, Step(c, vs, Retry(ip, seen)), Request(ip, now)) == vs[ip := Counted(c, Visit(c, vs, ip, seen), now)]
    ensures Step(c, Step(c, vs, Retry(ip, now)), Request(ip, now)) == Step(c, vs, Request(ip, now))
    ensures Granted(c, Step(c, vs, Retry(ip, now)), ip, now) == Granted(c, vs, ip, now)
  {}

  // ----- The bound over any interval of one window -----

  // n requests of ip were allowed in [from, from + window] up to the time now. A period that began
  // before from holds all of them; one that began later holds all but a previous period's worth.
  // With slack 1, the request that opened the earlier period lies before from and is one of its count.
  predicate Budget(c: Config, vs: Visitors, ip: string, from: int, now: int, n: int, slack: int) {
    && n <= 2 * c.rate - slack
    && (now <= from + c.window ==>
          if ip in vs then
            var v := vs[ip];
            && slack <= v.count <= c.rate
            && v.lastSeen <= now
            && n <= v.count + (if v.resetTime - c.window < from then 0 else c.rate) - (if n > 0 then slack else 0)
            && (n > 0 ==> v.lastSeen >= from)
          else n == 0)
  }

  lemma BudgetStep(c: Config, vs: Visitors, op: Op, ip: string, from: int, now: int, n: int, slack: int)
    requires c.window >= 0 && c.rate >= slack && (slack == 0 || slack == 1) && op.at >= now
    requires Budget(c, vs, ip, from, now, n, slack) && n >= 0
    requires slack == 1 && op.Retry? ==> op.ip in vs
    ensures var hit := op.Request? && op.ip == ip && from <= op.at <= from + c.window && Granted(c, vs, ip, op.at);
      Budget(c, Step(c, vs, op), ip, from, op.at, n + (if hit then 1 else 0), slack)
  {}

  lemma {:induction false} BudgetRun(c: Config, ops: seq<Op>, ip: string, from: int, slack: int, now: int)
    requires c.window >= 0 && c.rate >= slack && (slack == 0 || slack == 1) && Sorted(ops)
    requires slack == 1 ==> RetriesFindVisitor(c, ops)
    requires ops != [] ==> now == ops[|ops| - 1].at
    ensures Budget(c, Run(c, ops), ip, from, now, AllowedIn(c, ops, ip, from, from + c.window), slack)
  {
    if ops != [] {
      var p, op := ops[..|ops| - 1], ops[|ops| - 1];
      var before := if p == [] then op.at else p[|p| - 1].at;
      if slack == 1 {
        PrefixFindsVisitor(c, ops);
      }
      BudgetRun(c, p, ip, from, slack, before);
      BudgetStep(c, Run(c, p), op, ip, from, before, AllowedIn(c, p, ip, from, from + c.window), slack);
    }
  }

  lemma {:induction false} NoRateNothingAllowed(c: Config, ops: seq<Op>, ip: string, from: int, to: int)
    requires c.rate <= 0 && Sorted(ops)
    ensures AllowedIn(c, ops, ip, from, to) == 0
  {
    if ops != [] {
      var op := ops[|ops| - 1];
      RunIsTimely(c, ops[..|ops| - 1], op.at);
      NoRateNothingAllowed(c, ops[..|ops| - 1], ip, from, to);
    }
  }

  // Whatever the trace, an interval of one window holds at most twice the rate; one less as long as
  // no GetRetryAfter creates a visitor.
  lemma WindowBound(c: Config, ops: seq<Op>, ip: string, from: int)
    requires c.window >= 0 && Sorted(ops)
    ensures var n := AllowedIn(c, ops, ip, from, from + c.window);
      && n <= 2 * (if c.rate > 0 then c.rate else 0)
      && (c.rate > 0 && RetriesFindVisitor(c, ops) ==> n <= 2 * c.rate - 1)
  {
    var now := if ops == [] then 0 else ops[|ops| - 1].at;
    if c.rate <= 0 {
      NoRateNothingAllowed(c, ops, ip, from, from + c.window);
    } else {
      BudgetRun(c, ops, ip, from, 0, now);
      if RetriesFindVisitor(c, ops) {
        BudgetRun(c, ops, ip, from, 1, now);
      }
    }
  }

  // ----- No early denial -----

  // A period that began at from or later has counted no more than was allowed since then.
  lemma {:induction false} CountIsAllowed(c: Config, ops: seq<Op>, ip: string, from: int, to: int)
    requires Sorted(ops) && (ops != [] ==> ops[|ops| - 1].at <= to)
    requires ip in Run(c, ops) && Run(c, ops)[ip].resetTime - c.window >= from
    ensures Run(c, ops)[ip].count <= AllowedIn(c, ops, ip, from, to)
  {
    if ops != [] {
      var p, op := ops[..|ops| - 1], ops[|ops| - 1];
      RunIsTimely(c, p, op.at);
      if ip in Run(c, p) && Run(c, p)[ip].resetTime - c.window >= from {
        CountIsAllowed(c, p, ip, from, to);
      }
    }
  }

  // A request is denied only if as many as the rate were allowed within the window before it.
  lemma NeverDeniedEarly(c: Config, ops: seq<Op>, ip: string, now: int)
    requires Sorted(ops) && (ops != [] ==> ops[|ops| - 1].at <= now)
    requires AllowedIn(c, ops, ip, now - c.window, now) < c.rate
    ensures Granted(c, Run(c, ops), ip, now)
  {
    if ip in Run(c, ops) && now <= Run(c, ops)[ip].resetTime {
      CountIsAllowed(c, ops, ip, now - c.window, now);
    }
  }

  // ----- Both bounds are reached -----

  function Burst(ip: string, n: nat, at: int): (ops: seq<Op>)
    ensures |ops| == n && forall i | 0 <= i < n :: ops[i] == Request(ip, at)
  {
    seq(n, _ => Request(ip, at))
  }

  lemma OneMore(c: Config, pre: seq<Op>, op: Op, ip: string, from: int, to: int)
    ensures Run(c, pre + [op]) == Step(c, Run(c, pre), op)
    ensures AllowedIn(c, pre + [op], ip, from, to) == AllowedIn(c, pre, ip, from, to)
      + (if op.Request? && op.ip == ip && from <= op.at <= to && Granted(c, Run(c, pre), ip, op.at) then 1 else 0)
  {
    var ops := pre + [op];
    assert ops[..|ops| - 1] == pre && ops[|ops| - 1] == op;
  }

  // A visitor that the count has brought to count in a period that lasts until reset.
  predicate At(c: Config, ops: seq<Op>, ip: string, count: int, reset: int) {
    var vs := Run(c, ops);
    ip in vs && vs[ip].count == count && vs[ip].resetTime == reset
  }

  lemma BurstByOne(pre: seq<Op>, ip: string, n: nat, at: int)
    ensures pre + Burst(ip, 0, at) == pre
    ensures pre + Burst(ip, n + 1, at) == pre + Burst(ip, n, at) + [Request(ip, at)]
  {}

  lemma OneInPeriod(c: Config, ops: seq<Op>, ip: string, count: int, reset: int, at: int, from: int, to: int)
    requires from <= at <= to && at <= reset && 0 <= count < c.rate && At(c, ops, ip, count, reset)
    ensures At(c, ops + [Request(ip, at)], ip, count + 1, reset)
    ensures AllowedIn(c, ops + [Request(ip, at)], ip, from, to) == AllowedIn(c, ops, ip, from, to) + 1
  {
    OneMore(c, ops, Request(ip, at), ip, from, to);
    hide AllowedIn, RunFrom;
  }

  // n requests at one time within the limit of the running period are all allowed.
  lemma {:induction false} BurstAllowed(c: Config, pre: seq<Op>, ip: string, count: int, reset: int, n: nat,
                                        at: int, from: int, to: int)
    requires from <= at <= to && at <= reset && 0 <= count <= c.rate - n && At(c, pre, ip, count, reset)
    ensures At(c, pre + Burst(ip, n, at), ip, count + n, reset)
    ensures AllowedIn(c, pre + Burst(ip, n, at), ip, from, to) == AllowedIn(c, pre, ip, from, to) + n
  {
    hide At, AllowedIn, Burst;
    if n == 0 {
      BurstByOne(pre, ip, 0, at);
    } else {
      BurstAllowed(c, pre, ip, count, reset, n - 1, at, from, to);
      BurstByOne(pre, ip, n - 1, at);
      OneInPeriod(c, pre + Burst(ip, n - 1, at), ip, count + n - 1, reset, at, from, to);
    }
  }

  // A visitor made by opener at time 0, its requests left over made at time window, and a new period
  // spent at time window + 1.
  ghost function Doubled(c: Config, ip: string, opener: Op, left: nat): seq<Op>
    requires c.rate > 0
  {
    [opener] + Burst(ip, left, c.window) + [Request(ip, c.window + 1)] + Burst(ip, c.rate - 1, c.window + 1)
  }

  lemma DoubledIsSorted(c: Config, ip: string, opener: Op, left: nat)
    requires c.rate > 0 && c.window >= 1 && opener.at == 0
    ensures Sorted(Doubled(c, ip, opener, left))
  {
    var ops := Doubled(c, ip, opener, left);
    assert forall i | 0 <= i < |ops| ::
      ops[i].at == if i == 0 then 0 else if i <= left then c.window else c.window + 1;
  }

  lemma FirstHalf(c: Config, ip: string, opener: Op, used: nat)
    requires c.rate > 0 && c.window >= 1 && used <= c.rate && opener.at == 0 && !opener.Cleanup?
    requires Step(c, map[], opener) == map[ip := Visitor(used, 0, c.window)]
    ensures var ops := [opener] + Burst(ip, c.rate - used, c.window);
      At(c, ops, ip, c.rate, c.window) && AllowedIn(c, ops, ip, 1, 1 + c.window) == c.rate - used
  {
    OneMore(c, [], opener, ip, 1, 1 + c.window);
    assert [] + [opener] == [opener];
    BurstAllowed(c, [opener], ip, used, c.window, c.rate - used, c.window, 1, 1 + c.window);
  }

  lemma SecondHalf(c: Config, spent: seq<Op>, ip: string)
    requires c.rate > 0 && c.window >= 1 && At(c, spent, ip, c.rate, c.window)
    ensures AllowedIn(c, spent + [Request(ip, c.window + 1)] + Burst(ip, c.rate - 1, c.window + 1), ip, 1, 1 + c.window)
         == AllowedIn(c, spent, ip, 1, 1 + c.window) + c.rate
  {
    hide AllowedIn;
    OneMore(c, spent, Request(ip, c.window + 1), ip, 1, 1 + c.window);
    var renewed := spent + [Request(ip, c.window + 1)];
    BurstAllowed(c, renewed, ip, 1, 2 * c.window + 1, c.rate - 1, c.window + 1, 1, 1 + c.window);
  }

  lemma DoubledCount(c: Config, ip: string, opener: Op, used: nat)
    requires c.rate > 0 && c.window >= 1 && used <= c.rate && opener.at == 0 && !opener.Cleanup?
    requires Step(c, map[], opener) == map[ip := Visitor(used, 0, c.window)]
    ensures AllowedIn(c, Doubled(c, ip, opener, c.rate - used), ip, 1, 1 + c.window) == 2 * c.rate - used
  {
    hide AllowedIn, Run, Step, Burst, At;
    FirstHalf(c, ip, opener, used);
    SecondHalf(c, [opener] + Burst(ip, c.rate - used, c.window), ip);
  }

  lemma OnlyRequests(c: Config, ops: seq<Op>)
    requires forall i | 0 <= i < |ops| :: ops[i].Request?
    ensures RetriesFindVisitor(c, ops)
  {}

  lemma DoubledHasNoRetry(c: Config, ip: string)
    requires c.rate > 0
    ensures RetriesFindVisitor(c, Doubled(c, ip, Request(ip, 0), c.rate - 1))
  {
    OnlyRequests(c, Doubled(c, ip, Request(ip, 0), c.rate - 1));
  }

  // Twice the rate is reached when GetRetryAfter creates the visitor; otherwise one less is.
  lemma BoundsAreReached(c: Config, ip: string)
    requires c.rate > 0 && c.window >= 1
    ensures var ops := Doubled(c, ip, Retry(ip, 0), c.rate);
      Sorted(ops) && AllowedIn(c, ops, ip, 1, 1 + c.window) == 2 * c.rate
    ensures var ops := Doubled(c, ip, Request(ip, 0), c.rate - 1);
      && Sorted(ops) && RetriesFindVisitor(c, ops)
      && AllowedIn(c, ops, ip, 1, 1 + c.window) == 2 * c.rate - 1
  {
    hide Doubled, AllowedIn, Sorted, RetriesFindVisitor;
    DoubledIsSorted(c, ip, Retry(ip, 0), c.rate);
    DoubledCount(c, ip, Retry(ip, 0), 0);
    DoubledIsSorted(c, ip, Request(ip, 0), c.rate - 1);
    DoubledCount(c, ip, Request(ip, 0), 1);
    DoubledHasNoRetry(c, ip);
  }

  // ----- Cleanup is invisible -----

  function Uncleaned(ops: seq<Op>): seq<Op> {
    if ops == [] then []
    else
      var p, op := Uncleaned(ops[..|ops| - 1]), ops[|ops| - 1];
      if op.Cleanup? then p else p + [op]
  }

  // vs is us without some visitors whose period is over.
  ghost predicate Forgets(vs: Visitors, us: Visitors, now: int) {
    && (forall ip | ip in vs :: ip in us && vs[ip] == us[ip])
    && (forall ip | ip in us && ip !in vs :: us[ip].resetTime < now)
  }

  lemma ForgetsStep(c: Config, vs: Visitors, us: Visitors, op: Op, now: int)
    requires now <= op.at && Forgets(vs, us, now) && Timely(c, vs, op.at)
    requires op.Retry? ==> op.ip in vs
    ensures Forgets(Step(c, vs, op), if op.Cleanup? then us else Step(c, us, op), op.at)
  {}

  lemma {:induction false} CleanupForgets(c: Config, ops: seq<Op>, now: int)
    requires Sorted(ops) && RetriesFindVisitor(c, ops) && (ops != [] ==> ops[|ops| - 1].at <= now)
    ensures Forgets(Run(c, ops), Run(c, Uncleaned(ops)), now)
  {
    if ops != [] {
      var p, op := ops[..|ops| - 1], ops[|ops| - 1];
      PrefixFindsVisitor(c, ops);
      CleanupForgets(c, p, op.at);
      RunIsTimely(c, p, op.at);
      ForgetsStep(c, Run(c, p), Run(c, Uncleaned(p)), op, op.at);
      if !op.Cleanup? {
        assert Uncleaned(ops)[..|Uncleaned(ops)| - 1] == Uncleaned(p);
      }
    }
  }

  // Every answer of Allow, and every delay GetRetryAfter reports for a visitor it finds, is the one
  // a limiter that never cleans up would have given.
  lemma CleanupIsInvisible(c: Config, ops: seq<Op>, ip: string, now: int)
    requires Sorted(ops) && RetriesFindVisitor(c, ops) && (ops != [] ==> ops[|ops| - 1].at <= now)
    ensures Granted(c, Run(c, ops), ip, now) <==> Granted(c, Run(c, Uncleaned(ops)), ip, now)
    ensures ip in Run(c, ops) ==>
      RetryAfter(c, Run(c, ops), ip, now) == RetryAfter(c, Run(c, Uncleaned(ops)), ip, now)
  {
    CleanupForgets(c, ops, now);
  }

  // A visitor was last seen by one of its own requests.
  lemma {:induction false} SeenAtARequest(c: Config, ops: seq<Op>, ip: string) returns (j: nat)
    requires ip in Run(c, ops)
    ensures j < |ops| && !ops[j].Cleanup? && ops[j].ip == ip && ops[j].at == Run(c, ops)[ip].lastSeen
  {
    var p, op := ops[..|ops| - 1], ops[|ops| - 1];
    if ip in Run(c, p) && Run(c, ops)[ip].lastSeen == Run(c, p)[ip].lastSeen {
      j := SeenAtARequest(c, p, ip);
    } else {
      j := |ops| - 1;
    }
  }

  // A cleanup that looks at every visitor at time now leaves those who have called within the last two
  // windows and nobody else.
  lemma OnlyRecentVisitorsStay(c: Config, ops: seq<Op>, now: int, found: set<string>, ip: string)
    requires Sorted(ops) && Run(c, ops).Keys <= found
    ensures ip in Run(c, ops + [Cleanup(now, found)])
      <==> ip in Run(c, ops) && now - Run(c, ops)[ip].lastSeen <= 2 * c.window
    ensures ip in Run(c, ops + [Cleanup(now, found)]) ==>
      exists j :: 0 <= j < |ops| && !ops[j].Cleanup? && ops[j].ip == ip && now - 2 * c.window <= ops[j].at
  {
    OneMore(c, ops, Cleanup(now, found), ip, now, now);
    if ip in Run(c, ops) {
      var j := SeenAtARequest(c, ops, ip);
    }
  }

  // ----- The reported delay -----

  // While ip makes no request, its visitor is gone, has spent nothing, or keeps its reset time.
  lemma {:induction false} QuietVisitor(c: Config, vs: Visitors, ops: seq<Op>, ip: string, reset: int)
    requires ip in vs && vs[ip].resetTime == reset
    requires forall i | 0 <= i < |ops| && ops[i].Request? :: ops[i].ip != ip
    ensures var us := RunFrom(c, vs, ops); ip in us ==> us[ip].count == 0 || us[ip].resetTime == reset
  {
    if ops != [] {
      QuietVisitor(c, vs, ops[..|ops| - 1], ip, reset);
    }
  }

  // Within its period a visitor is not cleaned up either.
  lemma {:induction false} QuietPeriod(c: Config, vs: Visitors, ops: seq<Op>, ip: string, until: int)
    requires ip in vs && vs[ip].resetTime <= vs[ip].lastSeen + c.window && until <= vs[ip].resetTime && c.window >= 0
    requires forall i | 0 <= i < |ops| && ops[i].Request? :: ops[i].ip != ip
    requires forall i | 0 <= i < |ops| :: ops[i].at <= until
    ensures ip in RunFrom(c, vs, ops) && RunFrom(c, vs, ops)[ip] == vs[ip]
  {
    if ops != [] {
      QuietPeriod(c, vs, ops[..|ops| - 1], ip, until);
    }
  }

  // A request denied at time t, the delay read at time asked, and whatever others do until time later:
  // the next request is allowed if it comes strictly after the delay, and denied if it comes sooner.
  lemma RetryDelayIsExact(c: Config, pre: seq<Op>, ip: string, t: int, asked: int, mid: seq<Op>, later: int)
    requires c.rate > 0 && c.window >= 0 && Sorted(pre) && (pre != [] ==> pre[|pre| - 1].at <= t)
    requires t <= asked <= later && (forall i | 0 <= i < |mid| :: t <= mid[i].at <= later)
    requires forall i | 0 <= i < |mid| && mid[i].Request? :: mid[i].ip != ip
    requires !Granted(c, Run(c, pre), ip, t)
    ensures var vs := Allowed(c, Run(c, pre), ip, t);
      var d := RetryAfter(c, vs, ip, asked);
      && d >= 0
      && (later > asked + d ==> Granted(c, RunFrom(c, vs, mid), ip, later))
      && (d > 0 && later <= asked + d ==> !Granted(c, RunFrom(c, vs, mid), ip, later))
  {
    RunIsTimely(c, pre, t);
    var vs := Allowed(c, Run(c, pre), ip, t);
    var d := RetryAfter(c, vs, ip, asked);
    if later > asked + d {
      QuietVisitor(c, vs, mid, ip, vs[ip].resetTime);
    } else if d > 0 {
      QuietPeriod(c, vs, mid, ip, later);
    }
  }

  const NANOSECONDS := 1_000_000_000

  // formatDuration: whole seconds, truncated, at least one.
  function HeaderSeconds(d: nat): (seconds: nat)
    ensures d < NANOSECONDS ==> seconds == 1
    ensures d >= NANOSECONDS ==> seconds * NANOSECONDS <= d < (seconds + 1) * NANOSECONDS
  {
    if d / NANOSECONDS < 1 then 1 else d / NANOSECONDS
  }

  // A client that waits exactly as long as the Retry-After header says is let in if and only if the
  // delay was less than a second: truncation never rounds up.
  lemma HeaderSufficesIff(c: Config, pre: seq<Op>, ip: string, t: int, asked: int, d: nat, mid: seq<Op>)
    requires c.rate > 0 && c.window >= 0 && Sorted(pre) && (pre != [] ==> pre[|pre| - 1].at <= t) && t <= asked
    requires !Granted(c, Run(c, pre), ip, t) && d == RetryAfter(c, Allowed(c, Run(c, pre), ip, t), ip, asked)
    requires forall i | 0 <= i < |mid| && mid[i].Request? :: mid[i].ip != ip
    requires forall i | 0 <= i < |mid| :: t <= mid[i].at <= asked + HeaderSeconds(d) * NANOSECONDS
    ensures var vs := RunFrom(c, Allowed(c, Run(c, pre), ip, t), mid);
      Granted(c, vs, ip, asked + HeaderSeconds(d) * NANOSECONDS) <==> d < NANOSECONDS
  {
    assert d >= NANOSECONDS ==> HeaderSeconds(d) * NANOSECONDS <= d;
    RetryDelayIsExact(c, pre, ip, t, asked, mid, asked + HeaderSeconds(d) * NANOSECONDS);
  }

  // ----- The limiter's code -----

  class VisitorRecord {
    var count: int
    var lastSeen: int
    var resetTime: int

    constructor (now: int, window: int)
      ensures View() == Visitor(0, now, now + window)
    {
      count, lastSeen, resetTime := 0, now, now + window;
    }

    function View(): Visitor
      reads this
    {
      Visitor(count, lastSeen, resetTime)
    }

    // The part of Allow under the visitor's own lock.
    method CountRequest(config: Config, now: int) returns (ok: bool)
      modifies this
      ensures ok == (Refreshed(config, old(View()), now).count < config.rate)
      ensures View() == Counted(config, old(View()), now)
    {
      lastSeen := now;
      if now > resetTime {
        count := 0;
        resetTime := now + config.window;
      }
      ok := count < config.rate;
      if ok {
        count := count + 1;
      }
    }
  }

  class Limiter {
    var visitors: map<string, VisitorRecord>
    const config: Config

    constructor (rate: int, window: int)
      ensures View() == map[] && Valid() && config == Config(rate, window)
    {
      visitors, config := map[], Config(rate, window);
    }

    // No record serves two addresses.
    ghost predicate Valid()
      reads this
    {
      forall a, b | a in visitors && b in visitors && a != b :: visitors[a] != visitors[b]
    }

    ghost function View(): Visitors
      reads this, visitors.Values
    {
      map ip | ip in visitors :: visitors[ip].View()
    }

    method GetVisitor(ip: string, now: int) returns (v: VisitorRecord)
      requires Valid()
      modifies this`visitors
      ensures Valid() && ip in visitors && visitors[ip] == v
      ensures fresh(visitors.Values - old(visitors.Values))
      ensures View() == Step(config, old(View()), Retry(ip, now))
      ensures v.View() == Visit(config, old(View()), ip, now)
    {
      if ip in visitors {
        v := visitors[ip];
      } else {
        v := new VisitorRecord(now, config.window);
        visitors := visitors[ip := v];
      }
    }

    // getVisitor reads the clock first, Allow itself afterwards.
    method Allow(ip: string, seen: int, now: int) returns (ok: bool)
      requires Valid()
      modifies this`visitors, visitors.Values
      ensures Valid() && fresh(visitors.Values - old(visitors.Values))
      ensures ok == Granted(config, Step(config, old(View()), Retry(ip, seen)), ip, now)
      ensures View() == Step(config, Step(config, old(View()), Retry(ip, seen)), Request(ip, now))
    {
      var v := GetVisitor(ip, seen);
      ghost var found := View();
      ok := v.CountRequest(config, now);
      assert View() == found[ip := v.View()];
    }

    // getVisitor reads the clock, then the comparison, then time.Until.
    method GetRetryAfter(ip: string, seen: int, now: int, later: int) returns (d: int)
      requires Valid()
      modifies this`visitors
      ensures Valid() && fresh(visitors.Values - old(visitors.Values))
      ensures var reset := Visit(config, old(View()), ip, seen).resetTime; d == if now > reset then 0 else reset - later
      ensures seen == now == later ==> d == RetryAfter(config, old(View()), ip, now)
      ensures View() == Step(config, old(View()), Retry(ip, seen))
    {
      var v := GetVisitor(ip, seen);
      d := if now > v.resetTime then 0 else v.resetTime - later;
    }

    // One tick of cleanupVisitors, with a clock reading for each visitor.
    method CleanupVisitors(readings: string -> int, ghost now: int)
      requires Valid() && forall ip | ip in visitors :: readings(ip) <= now
      modifies this`visitors
      ensures Valid() && visitors.Values <= old(visitors.Values)
      ensures View() == Step(config, old(View()), Cleanup(now,
        set ip | ip in old(visitors) && Stale(config, old(visitors[ip].View()), readings(ip))))
      ensures visitors.Keys <= old(visitors.Keys)
      ensures forall ip | ip in old(visitors) ::
        ip in visitors <==> readings(ip) - old(visitors[ip].lastSeen) <= 2 * config.window
    {
      var ips := visitors.Keys;
      while ips != {}
        invariant ips <= old(visitors.Keys)
        invariant visitors.Keys <= old(visitors.Keys)
        invariant forall ip | ip in old(visitors) :: ip in visitors <==>
          ip in ips || !Stale(config, old(visitors[ip].View()), readings(ip))
        invariant forall ip | ip in visitors :: visitors[ip] == old(visitors)[ip]
        decreases |ips|
      {
        var ip :| ip in ips;
        if readings(ip) - visitors[ip].lastSeen > config.window * 2 {
          visitors := visitors - {ip};
        }
        ips := ips - {ip};
      }
    }
  }
}
