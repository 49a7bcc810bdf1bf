/**
 * The browser client's token refresh: two entry points that share one lock, one queue of waiters and one rate limit,
 * and the retry loop of requests answered with 401. Each stretch of code between two awaits is one step.
 */
module TokenRefresh {
  const MIN_REFRESH_INTERVAL: nat := 5000
  const AUTH_FAILURE_COOLDOWN: nat := 10000
  const RETRY_DELAY: nat := 1000

  /** Who waits for or runs a refresh: a proactive call, or a request answered with 401. */
  datatype Owner = Call | Retry(request: nat)

  datatype Waiter = Waiter(ticket: nat, joined: nat, owner: Owner)

  /** A refresh that was started; it is in flight while it runs. */
  datatype Refresh = Refresh(start: nat, owner: Owner, running: bool)

  datatype Settlement = Settlement(ticket: nat, joined: nat, settler: nat, resolved: bool)

  /** Why a request was sent again, and in the period of which refresh. */
  datatype Resend = FromQueue(refresh: nat) | AfterWait(refresh: nat) | AfterRefresh(refresh: nat)

  datatype Phase = InFlight | Queued | Sleeping(until: nat) | Refreshing | Done

  datatype Request = Request(retried: bool, phase: Phase, resends: seq<Resend>)

  /** What has happened and what is still pending outside the client's own variables. */
  datatype World = World(
    clock: nat, refreshes: seq<Refresh>, tickets: nat, settled: seq<Settlement>, requests: seq<Request>, clears: seq<nat>)

  datatype Client = Client(
    isRefreshing: bool, failedQueue: seq<Waiter>, lastRefreshAttempt: nat, lastAuthFailureTime: nat, world: World)

  /** How the refresh request ends: a token, a 400 or 401, or any other failure. */
  datatype Answer = Token | Invalid | Broken

  datatype Event =
    | Tick(now: nat)                        // time passes
    | Send                                  // a new request
    | Proactive                             // a call of proactiveRefreshToken
    | Unauthorized(request: nat)            // a 401 for a request in flight
    | Answered(request: nat)                // any other end of a request in flight
    | Finish(refresh: nat, answer: Answer)  // the end of a refresh
    | Wake(request: nat)                    // the end of the one-second wait

  /** The module as it is loaded. */
  function Loaded(now: nat): Client {
    Client(false, [], 0, 0, World(now, [], 0, [], [], []))
  }

  predicate Enabled(c: Client, e: Event) {
    match e
    case Tick(now) => now >= c.world.clock
    case Send => true
    case Proactive => true
    case Unauthorized(r) => r < |c.world.requests| && c.world.requests[r].phase.InFlight?
    case Answered(r) => r < |c.world.requests| && c.world.requests[r].phase.InFlight?
    case Finish(k, _) => k < |c.world.refreshes| && c.world.refreshes[k].running
    case Wake(r) => r < |c.world.requests| && c.world.requests[r].phase.Sleeping? && c.world.requests[r].phase.until <= c.world.clock
  }

  function Latest(refreshes: seq<Refresh>): nat {
    if refreshes == [] then 0 else |refreshes| - 1
  }

  function Join(c: Client, owner: Owner): Client {
    c.(failedQueue := c.failedQueue + [Waiter(c.world.tickets, Latest(c.world.refreshes), owner)],
       world := c.world.(tickets := c.world.tickets + 1))
  }

  function StartRefresh(c: Client, owner: Owner): Client {
    c.(isRefreshing := true, lastRefreshAttempt := c.world.clock,
       world := c.world.(refreshes := c.world.refreshes + [Refresh(c.world.clock, owner, true)]))
  }

  function WithRequest(c: Client, r: nat, q: Request): Client
    requires r < |c.world.requests|
  {
    c.(world := c.world.(requests := c.world.requests[r := q]))
  }

  /** Clearing the stored session, at most once per cooldown. */
  function ClearAuth(c: Client): Client {
    if c.world.clock - c.lastAuthFailureTime > AUTH_FAILURE_COOLDOWN then
      c.(lastAuthFailureTime := c.world.clock, world := c.world.(clears := c.world.clears + [c.world.clock]))
    else c
  }

  predicate TooSoon(c: Client) {
    c.world.clock - c.lastRefreshAttempt < MIN_REFRESH_INTERVAL
  }

  function ProactiveStep(c: Client): Client {
    if c.isRefreshing then Join(c, Call)
    else if TooSoon(c) then c
    else StartRefresh(c, Call)
  }

  function UnauthorizedStep(c: Client, r: nat): Client
    requires r < |c.world.requests|
  {
    var q := c.world.requests[r];
    if q.retried then WithRequest(ClearAuth(c), r, q.(phase := Done))
    else if c.isRefreshing then WithRequest(Join(c, Retry(r)), r, q.(phase := Queued))
    else if TooSoon(c) && c.lastRefreshAttempt > 0 then
      WithRequest(c, r, q.(phase := Sleeping(c.world.clock + RETRY_DELAY), resends := q.resends + [AfterWait(Latest(c.world.refreshes))]))
    else WithRequest(StartRefresh(c, Retry(r)), r, q.(phase := Refreshing, retried := true))
  }

  /** The owner, if it is a request, is sent again or given up. */
  function Resume(requests: seq<Request>, owner: Owner, resend: Resend, ok: bool): (r: seq<Request>)
    ensures |r| == |requests|
  {
    if owner.Retry? && owner.request < |requests| then
      var q := requests[owner.request];
      requests[owner.request := if ok then q.(phase := InFlight, resends := q.resends + [resend]) else q.(phase := Done)]
    else requests
  }

  function SettleOne(w: World, x: Waiter, k: nat, ok: bool): World {
    w.(settled := w.settled + [Settlement(x.ticket, x.joined, k, ok)], requests := Resume(w.requests, x.owner, FromQueue(k), ok))
  }

  /** `processQueue`: every waiter in order. */
  function SettleAll(w: World, queue: seq<Waiter>, k: nat, ok: bool): World {
    if queue == [] then w
    else SettleOne(SettleAll(w, queue[..|queue| - 1], k, ok), queue[|queue| - 1], k, ok)
  }

  function Ended(c: Client, k: nat): World
    requires k < |c.world.refreshes|
  {
    c.world.(refreshes := c.world.refreshes[k := c.world.refreshes[k].(running := false)])
  }

  /** The queue is settled and the owner goes on. */
  function Resumed(c: Client, k: nat, answer: Answer): World
    requires k < |c.world.refreshes|
  {
    var settled := SettleAll(Ended(c, k), c.failedQueue, k, answer.Token?);
    settled.(requests := Resume(settled.requests, c.world.refreshes[k].owner, AfterRefresh(k), answer.Token?))
  }

  function FinishStep(c: Client, k: nat, answer: Answer): Client
    requires k < |c.world.refreshes|
  {
    var open := c.(isRefreshing := false, failedQueue := [], world := Resumed(c, k, answer));
    if answer.Invalid? && c.world.refreshes[k].owner.Retry? then ClearAuth(open) else open
  }

  function Step(c: Client, e: Event): Client
    requires Enabled(c, e)
  {
    match e
    case Tick(now) => c.(world := c.world.(clock := now))
    case Send => c.(world := c.world.(requests := c.world.requests + [Request(false, InFlight, [])]))
    case Proactive => ProactiveStep(c)
    case Unauthorized(r) => UnauthorizedStep(c, r)
    case Answered(r) => WithRequest(c, r, c.world.requests[r].(phase := Done))
    case Finish(k, answer) => FinishStep(c, k, answer)
    case Wake(r) => WithRequest(c, r, c.world.requests[r].(phase := InFlight))
  }

  // ---- What every step keeps ----

  /** The lock is taken exactly while a refresh is in flight, and only the latest one can be. */
  ghost predicate OneRefresh(c: Client) {
    && (c.isRefreshing <==> c.world.refreshes != [] && c.world.refreshes[Latest(c.world.refreshes)].running)
    && (forall i :: 0 <= i < |c.world.refreshes| && c.world.refreshes[i].running ==> i == Latest(c.world.refreshes))
    && (!c.isRefreshing ==> c.failedQueue == [])
  }

  /** Tickets are numbered in order: first those of the settled waiters, then those of the queue. */
  ghost predicate TicketsInOrder(w: World, queue: seq<Waiter>) {
    && w.tickets == |w.settled| + |queue|
    && (forall i :: 0 <= i < |w.settled| ==> w.settled[i].ticket == i && w.settled[i].settler == w.settled[i].joined)
    && (forall j :: 0 <= j < |queue| ==> queue[j].ticket == |w.settled| + j && queue[j].joined == Latest(w.refreshes))
  }

  /** Two refreshes in a row start at least the interval apart. */
  ghost predicate Paced(c: Client) {
    && c.world.clock > 0 && (forall i :: 0 <= i < |c.world.refreshes| ==> c.world.refreshes[i].start > 0)
    && c.lastRefreshAttempt == (if c.world.refreshes == [] then 0 else c.world.refreshes[Latest(c.world.refreshes)].start)
    && c.lastRefreshAttempt <= c.world.clock
    && forall i :: 0 < i < |c.world.refreshes| ==>
      c.world.refreshes[i].start - c.world.refreshes[i - 1].start >= MIN_REFRESH_INTERVAL
  }

  ghost predicate ClearsPaced(c: Client) {
    && c.lastAuthFailureTime == (if c.world.clears == [] then 0 else c.world.clears[|c.world.clears| - 1])
    && c.lastAuthFailureTime <= c.world.clock
    && forall i :: 0 < i < |c.world.clears| ==> c.world.clears[i] - c.world.clears[i - 1] > AUTH_FAILURE_COOLDOWN
  }

  function Count(resends: seq<Resend>, x: Resend): nat {
    if resends == [] then 0
    else Count(resends[..|resends| - 1], x) + if resends[|resends| - 1] == x then 1 else 0
  }

  function OwnCount(resends: seq<Resend>): nat {
    if resends == [] then 0
    else OwnCount(resends[..|resends| - 1]) + if resends[|resends| - 1].AfterRefresh? then 1 else 0
  }

  /** The earliest time at which the request's next 401 can arrive. */
  function NotBefore(q: Request, clock: nat): nat {
    if q.phase.Sleeping? && q.phase.until > clock then q.phase.until else clock
  }

  /** At most one resend from the queue and five after a wait in the period of refresh k. */
  predicate WithinLimits(resends: seq<Resend>, k: nat) {
    Count(resends, FromQueue(k)) <= 1 && Count(resends, AfterWait(k)) <= 5
  }

  /** What a request's history may look like. */
  ghost predicate RequestOk(q: Request, refreshes: seq<Refresh>, clock: nat) {
    && (forall i :: 0 <= i < |q.resends| ==> q.resends[i].refresh < |refreshes|)
    && (forall k :: WithinLimits(q.resends, k))
    && OwnCount(q.resends) <= (if q.retried && !q.phase.Refreshing? then 1 else 0)
    && (refreshes != [] ==>
          var e := Latest(refreshes);
          && (refreshes[e].running ==> Count(q.resends, FromQueue(e)) == 0)
          && NotBefore(q, clock) >= refreshes[e].start + RETRY_DELAY * Count(q.resends, AfterWait(e)))
  }

  /** Waiting requests and requests that run a refresh are where the queue and the refreshes say. */
  ghost predicate OwnersOk(w: World, queue: seq<Waiter>) {
    && (forall j :: 0 <= j < |queue| && queue[j].owner.Retry? ==> WaitsFor(w, queue[j]))
    && (forall i, j :: 0 <= i < j < |queue| && queue[i].owner.Retry? ==> queue[i].owner != queue[j].owner)
    && (forall i :: 0 <= i < |w.refreshes| && w.refreshes[i].owner.Retry? ==> RunsFor(w, w.refreshes[i]))
    && (forall i, j :: 0 <= i < j < |w.refreshes| && w.refreshes[i].owner.Retry? ==> w.refreshes[i].owner != w.refreshes[j].owner)
  }

  ghost predicate WaitsFor(w: World, x: Waiter)
    requires x.owner.Retry?
  {
    var r := x.owner.request;
    r < |w.requests| && w.requests[r].phase.Queued? && Count(w.requests[r].resends, FromQueue(x.joined)) == 0
  }

  ghost predicate RunsFor(w: World, x: Refresh)
    requires x.owner.Retry?
  {
    var r := x.owner.request;
    r < |w.requests| && w.requests[r].retried && (x.running ==> w.requests[r].phase.Refreshing?)
  }

  ghost predicate RequestsOk(w: World) {
    forall r :: 0 <= r < |w.requests| ==> RequestOk(w.requests[r], w.refreshes, w.clock)
  }

  ghost predicate Invariant(c: Client) {
    OneRefresh(c) && TicketsInOrder(c.world, c.failedQueue) && Paced(c) && ClearsPaced(c)
    && OwnersOk(c.world, c.failedQueue) && RequestsOk(c.world)
  }

  lemma {:induction false} CountAbsent(resends: seq<Resend>, x: Resend)
    requires forall i :: 0 <= i < |resends| ==> resends[i] != x
    ensures Count(resends, x) == 0
  {
    if resends != [] {
      CountAbsent(resends[..|resends| - 1], x);
    }
  }

  lemma CountSnoc(resends: seq<Resend>, y: Resend, x: Resend)
    ensures Count(resends + [y], x) == Count(resends, x) + if x == y then 1 else 0
    ensures OwnCount(resends + [y]) == OwnCount(resends) + if y.AfterRefresh? then 1 else 0
  {
    assert (resends + [y])[..|resends|] == resends;
  }

  /** A request that nothing happens to keeps its history when time passes. */
  lemma RequestLater(q: Request, refreshes: seq<Refresh>, clock: nat, now: nat)
    requires RequestOk(q, refreshes, clock) && now >= clock
    ensures RequestOk(q, refreshes, now)
  {
  }

  /** A new refresh starts a new period. */
  lemma RequestNewPeriod(q: Request, refreshes: seq<Refresh>, clock: nat, owner: Owner)
    requires RequestOk(q, refreshes, clock)
    ensures RequestOk(q, refreshes + [Refresh(clock, owner, true)], clock)
  {
    CountAbsent(q.resends, FromQueue(|refreshes|));
    CountAbsent(q.resends, AfterWait(|refreshes|));
  }

  /** The end of a refresh lifts the bar on resending from its queue. */
  lemma RequestEnds(q: Request, refreshes: seq<Refresh>, clock: nat, k: nat)
    requires RequestOk(q, refreshes, clock) && k < |refreshes|
    ensures RequestOk(q, refreshes[k := refreshes[k].(running := false)], clock)
  {
  }

  /** Appending a resend within the limits of its own period keeps all limits. */
  lemma LimitsSnoc(resends: seq<Resend>, y: Resend)
    requires forall k :: WithinLimits(resends, k)
    requires y.FromQueue? ==> Count(resends, y) == 0
    requires y.AfterWait? ==> Count(resends, y) < 5
    ensures forall k :: WithinLimits(resends + [y], k)
  {
    forall k: nat
      ensures WithinLimits(resends + [y], k)
    {
      assert WithinLimits(resends, k);
      CountSnoc(resends, y, FromQueue(k));
      CountSnoc(resends, y, AfterWait(k));
    }
  }

  /** One more resend from the queue of a refresh that has ended, and that did not resend the request before. */
  lemma RequestFromQueue(q: Request, refreshes: seq<Refresh>, clock: nat, k: nat)
    requires RequestOk(q, refreshes, clock) && k < |refreshes| && !refreshes[Latest(refreshes)].running
    requires q.phase.Queued? && Count(q.resends, FromQueue(k)) == 0
    ensures RequestOk(q.(phase := InFlight, resends := q.resends + [FromQueue(k)]), refreshes, clock)
  {
    LimitsSnoc(q.resends, FromQueue(k));
    CountSnoc(q.resends, FromQueue(k), AfterWait(Latest(refreshes)));
  }

  lemma RequestAfterRefresh(q: Request, refreshes: seq<Refresh>, clock: nat, k: nat)
    requires RequestOk(q, refreshes, clock) && k < |refreshes| && q.retried && q.phase.Refreshing?
    ensures RequestOk(q.(phase := InFlight, resends := q.resends + [AfterRefresh(k)]), refreshes, clock)
  {
    LimitsSnoc(q.resends, AfterRefresh(k));
    CountSnoc(q.resends, AfterRefresh(k), AfterWait(Latest(refreshes)));
    CountSnoc(q.resends, AfterRefresh(k), FromQueue(Latest(refreshes)));
  }

  /** Within one period there is room for five waits of a second. */
  lemma RequestWaits(q: Request, refreshes: seq<Refresh>, clock: nat)
    requires RequestOk(q, refreshes, clock) && q.phase.InFlight? && refreshes != []
    requires clock < refreshes[Latest(refreshes)].start + MIN_REFRESH_INTERVAL
    ensures var e := Latest(refreshes);
            RequestOk(q.(phase := Sleeping(clock + RETRY_DELAY), resends := q.resends + [AfterWait(e)]), refreshes, clock)
  {
    var e := Latest(refreshes);
    LimitsSnoc(q.resends, AfterWait(e));
    CountSnoc(q.resends, AfterWait(e), AfterWait(e));
    CountSnoc(q.resends, AfterWait(e), FromQueue(e));
  }

  // ---- Settling the queue ----

  /** The refresh k has ended and everything that still waits, waits for it. */
  ghost predicate Settling(w: World, queue: seq<Waiter>, k: nat) {
    && k < |w.refreshes| && k == Latest(w.refreshes) && !w.refreshes[k].running
    && TicketsInOrder(w, queue) && OwnersOk(w, queue) && RequestsOk(w)
  }

  /** Requests that did not wait in the queue are as they were, and so is everything else but the settlements. */
  ghost predicate OthersKept(w: World, w': World) {
    && w'.clock == w.clock && w'.refreshes == w.refreshes && w'.tickets == w.tickets && w'.clears == w.clears
    && |w'.requests| == |w.requests|
    && forall r :: 0 <= r < |w.requests| && !w.requests[r].phase.Queued? ==> w'.requests[r] == w.requests[r]
  }

  lemma SettleFirstTicket(w: World, queue: seq<Waiter>, k: nat, ok: bool)
    requires Settling(w, queue, k) && queue != []
    ensures TicketsInOrder(SettleOne(w, queue[0], k, ok), queue[1..])
  {
  }

  lemma SettleFirst(w: World, queue: seq<Waiter>, k: nat, ok: bool)
    requires Settling(w, queue, k) && queue != []
    ensures var w' := SettleOne(w, queue[0], k, ok);
            OthersKept(w, w') && TicketsInOrder(w', queue[1..]) && RequestsOk(w')
  {
    var x, w' := queue[0], SettleOne(w, queue[0], k, ok);
    SettleFirstTicket(w, queue, k, ok);
    if x.owner.Retry? {
      assert WaitsFor(w, x);
      var r := x.owner.request;
      assert RequestOk(w.requests[r], w.refreshes, w.clock);
      RequestFromQueue(w.requests[r], w.refreshes, w.clock, k);
      assert RequestOk(w'.requests[r], w.refreshes, w.clock);
    }
  }

  lemma SettleFirstOwners(w: World, queue: seq<Waiter>, k: nat, ok: bool)
    requires Settling(w, queue, k) && queue != []
    ensures OwnersOk(SettleOne(w, queue[0], k, ok), queue[1..])
  {
    var w', rest := SettleOne(w, queue[0], k, ok), queue[1..];
    forall j | 0 <= j < |rest| && rest[j].owner.Retry?
      ensures WaitsFor(w', rest[j])
    {
      assert rest[j] == queue[j + 1] && WaitsFor(w, queue[j + 1]);
      assert queue[0].owner.Retry? ==> queue[0].owner != queue[j + 1].owner;
    }
    forall i | 0 <= i < |w'.refreshes| && w'.refreshes[i].owner.Retry?
      ensures RunsFor(w', w'.refreshes[i])
    {
      assert RunsFor(w, w.refreshes[i]);
      if queue[0].owner.Retry? {
        assert WaitsFor(w, queue[0]);
      }
    }
  }

  lemma {:induction false} SettlePrefix(w: World, queue: seq<Waiter>, k: nat, ok: bool, j: nat)
    requires Settling(w, queue, k) && j <= |queue|
    ensures Settling(SettleAll(w, queue[..j], k, ok), queue[j..], k)
    ensures OthersKept(w, SettleAll(w, queue[..j], k, ok))
  {
    if j == 0 {
      assert queue[0..] == queue;
    } else {
      var before, rest := SettleAll(w, queue[..j - 1], k, ok), queue[j - 1..];
      SettlePrefix(w, queue, k, ok, j - 1);
      SettleFirst(before, rest, k, ok);
      SettleFirstOwners(before, rest, k, ok);
      assert rest[0] == queue[j - 1] && rest[1..] == queue[j..];
      assert queue[..j][..j - 1] == queue[..j - 1];
      assert SettleAll(w, queue[..j], k, ok) == SettleOne(before, rest[0], k, ok);
    }
  }

  // ---- Steps keep the invariant ----

  lemma ClearAuthKeeps(c: Client)
    requires ClearsPaced(c)
    ensures ClearsPaced(ClearAuth(c))
  {
  }

  lemma StartRefreshKeeps(c: Client, owner: Owner)
    requires Invariant(c) && !c.isRefreshing
    requires TooSoon(c) ==> c.lastRefreshAttempt == 0
    ensures var c' := StartRefresh(c, owner);
            OneRefresh(c') && TicketsInOrder(c'.world, c'.failedQueue) && Paced(c') && ClearsPaced(c') && RequestsOk(c'.world)
  {
    var c' := StartRefresh(c, owner);
    forall r | 0 <= r < |c'.world.requests|
      ensures RequestOk(c'.world.requests[r], c'.world.refreshes, c'.world.clock)
    {
      RequestNewPeriod(c.world.requests[r], c.world.refreshes, c.world.clock, owner);
    }
  }

  lemma ProactiveKeeps(c: Client)
    requires Invariant(c)
    ensures Invariant(ProactiveStep(c))
  {
    if !c.isRefreshing && !TooSoon(c) {
      StartRefreshKeeps(c, Call);
      OwnersStarted(c, Call);
    } else if c.isRefreshing {
      OwnersJoined(c.world, c.failedQueue, Waiter(c.world.tickets, Latest(c.world.refreshes), Call));
    }
  }

  /** A refresh run by a call, or by a request that ran none before. */
  lemma OwnersStarted(c: Client, owner: Owner)
    requires Invariant(c) && !c.isRefreshing
    requires owner.Retry? ==> owner.request < |c.world.requests| && !c.world.requests[owner.request].retried
    ensures var started := StartRefresh(c, owner);
            var c' := if owner.Call? then started
                      else WithRequest(started, owner.request, c.world.requests[owner.request].(phase := Refreshing, retried := true));
            OwnersOk(c'.world, c'.failedQueue)
  {
    var w := c.world;
    forall i | 0 <= i < |w.refreshes| && w.refreshes[i].owner.Retry?
      ensures w.refreshes[i].owner != owner && !w.refreshes[i].running
    {
      assert RunsFor(w, w.refreshes[i]);
    }
    var started := StartRefresh(c, owner);
    var c' := if owner.Call? then started
              else WithRequest(started, owner.request, c.world.requests[owner.request].(phase := Refreshing, retried := true));
    forall i | 0 <= i < |c'.world.refreshes| && c'.world.refreshes[i].owner.Retry?
      ensures RunsFor(c'.world, c'.world.refreshes[i])
    {
      if i < |w.refreshes| {
        assert RunsFor(w, w.refreshes[i]);
      }
    }
  }

  ghost predicate MayJoin(w: World, x: Waiter)
    requires x.owner.Retry?
  {
    var r := x.owner.request;
    r < |w.requests| && w.requests[r].phase.InFlight? && Count(w.requests[r].resends, FromQueue(x.joined)) == 0
  }

  /** A new waiter; a request that joins stops being in flight. */
  lemma OwnersJoined(w: World, queue: seq<Waiter>, x: Waiter)
    requires OwnersOk(w, queue)
    requires x.owner.Retry? ==> MayJoin(w, x)
    ensures var requests := if x.owner.Retry? then w.requests[x.owner.request := w.requests[x.owner.request].(phase := Queued)] else w.requests;
            forall tickets :: OwnersOk(w.(requests := requests, tickets := tickets), queue + [x])
  {
    var requests := if x.owner.Retry? then w.requests[x.owner.request := w.requests[x.owner.request].(phase := Queued)] else w.requests;
    forall tickets
      ensures OwnersOk(w.(requests := requests, tickets := tickets), queue + [x])
    {
      var w' := w.(requests := requests, tickets := tickets);
      forall j | 0 <= j < |queue| && queue[j].owner.Retry?
        ensures WaitsFor(w', queue[j]) && queue[j].owner != x.owner
      {
        assert WaitsFor(w, queue[j]);
      }
      forall i | 0 <= i < |w.refreshes| && w.refreshes[i].owner.Retry?
        ensures RunsFor(w', w.refreshes[i])
      {
        assert RunsFor(w, w.refreshes[i]);
      }
    }
  }

  /** Changing the phase of a request in flight to one that neither waits nor runs disturbs no owner. */
  lemma OwnersUnmoved(w: World, queue: seq<Waiter>, r: nat, q: Request)
    requires OwnersOk(w, queue) && r < |w.requests|
    requires !w.requests[r].phase.Queued? && !w.requests[r].phase.Refreshing? && (w.requests[r].retried ==> q.retried)
    ensures OwnersOk(w.(requests := w.requests[r := q]), queue)
  {
    var w' := w.(requests := w.requests[r := q]);
    forall j | 0 <= j < |queue| && queue[j].owner.Retry?
      ensures WaitsFor(w', queue[j])
    {
      assert WaitsFor(w, queue[j]);
    }
    forall i | 0 <= i < |w.refreshes| && w.refreshes[i].owner.Retry?
      ensures RunsFor(w', w.refreshes[i])
    {
      assert RunsFor(w, w.refreshes[i]);
    }
  }

  lemma ClearAuthInvariant(c: Client)
    requires Invariant(c)
    ensures Invariant(ClearAuth(c))
  {
    ClearAuthKeeps(c);
    OwnersLater(c.world, ClearAuth(c).world, c.failedQueue);
  }

  lemma PhaseKeeps(c: Client, r: nat, phase: Phase)
    requires Invariant(c) && r < |c.world.requests|
    requires phase.Done? || (phase.InFlight? && c.world.requests[r].phase.Sleeping? && c.world.requests[r].phase.until <= c.world.clock)
    requires c.world.requests[r].phase.InFlight? || c.world.requests[r].phase.Sleeping?
    requires phase.Done? ==> c.world.requests[r].phase.InFlight?
    ensures Invariant(WithRequest(c, r, c.world.requests[r].(phase := phase)))
  {
    assert RequestOk(c.world.requests[r], c.world.refreshes, c.world.clock);
    OwnersUnmoved(c.world, c.failedQueue, r, c.world.requests[r].(phase := phase));
  }

  lemma JoinKeeps(c: Client, r: nat)
    requires Invariant(c) && Enabled(c, Unauthorized(r)) && !c.world.requests[r].retried && c.isRefreshing
    ensures Invariant(UnauthorizedStep(c, r))
  {
    assert RequestOk(c.world.requests[r], c.world.refreshes, c.world.clock);
    OwnersJoined(c.world, c.failedQueue, Waiter(c.world.tickets, Latest(c.world.refreshes), Retry(r)));
  }

  lemma WaitKeeps(c: Client, r: nat)
    requires Invariant(c) && Enabled(c, Unauthorized(r)) && !c.world.requests[r].retried && !c.isRefreshing
    requires TooSoon(c) && c.lastRefreshAttempt > 0
    ensures Invariant(UnauthorizedStep(c, r))
  {
    var q := c.world.requests[r];
    assert RequestOk(q, c.world.refreshes, c.world.clock);
    RequestWaits(q, c.world.refreshes, c.world.clock);
    var q' := q.(phase := Sleeping(c.world.clock + RETRY_DELAY), resends := q.resends + [AfterWait(Latest(c.world.refreshes))]);
    OwnersUnmoved(c.world, c.failedQueue, r, q');
    assert UnauthorizedStep(c, r) == WithRequest(c, r, q') && RequestsOk(WithRequest(c, r, q').world);
  }

  lemma FinalKeeps(c: Client, r: nat)
    requires Invariant(c) && Enabled(c, Unauthorized(r)) && c.world.requests[r].retried
    ensures Invariant(UnauthorizedStep(c, r))
  {
    ClearAuthInvariant(c);
    PhaseKeeps(ClearAuth(c), r, Done);
  }

  lemma OwnRefreshKeeps(c: Client, r: nat)
    requires Invariant(c) && Enabled(c, Unauthorized(r)) && !c.world.requests[r].retried && !c.isRefreshing
    requires TooSoon(c) ==> c.lastRefreshAttempt == 0
    ensures Invariant(UnauthorizedStep(c, r))
  {
    var s, q := StartRefresh(c, Retry(r)), c.world.requests[r].(phase := Refreshing, retried := true);
    StartRefreshKeeps(c, Retry(r));
    assert RequestsOk(WithRequest(s, r, q).world) by {
      assert RequestOk(c.world.requests[r], s.world.refreshes, s.world.clock);
      assert RequestOk(q, s.world.refreshes, s.world.clock);
    }
    OwnersStarted(c, Retry(r));
    assert UnauthorizedStep(c, r) == WithRequest(s, r, q);
  }

  lemma UnauthorizedKeeps(c: Client, r: nat)
    requires Invariant(c) && Enabled(c, Unauthorized(r))
    ensures Invariant(UnauthorizedStep(c, r))
  {
    if c.world.requests[r].retried {
      FinalKeeps(c, r);
    } else if c.isRefreshing {
      JoinKeeps(c, r);
    } else if TooSoon(c) && c.lastRefreshAttempt > 0 {
      WaitKeeps(c, r);
    } else {
      OwnRefreshKeeps(c, r);
    }
  }

  /** The last part of a finish: the owner's own request. */
  lemma OwnerResumes(w: World, k: nat, ok: bool)
    requires Settling(w, [], k)
    requires w.refreshes[k].owner.Retry? ==> RunsFor(w, w.refreshes[k].(running := true))
    ensures Settling(w.(requests := Resume(w.requests, w.refreshes[k].owner, AfterRefresh(k), ok)), [], k)
  {
    var owner := w.refreshes[k].owner;
    var w' := w.(requests := Resume(w.requests, owner, AfterRefresh(k), ok));
    if owner.Retry? {
      assert RunsFor(w, w.refreshes[k]);
      assert RequestOk(w.requests[owner.request], w.refreshes, w.clock);
      RequestAfterRefresh(w.requests[owner.request], w.refreshes, w.clock, k);
    }
    forall i | 0 <= i < |w.refreshes| && w.refreshes[i].owner.Retry?
      ensures RunsFor(w', w.refreshes[i])
    {
      assert RunsFor(w, w.refreshes[i]);
    }
  }

  lemma EndedSettling(c: Client, k: nat)
    requires Invariant(c) && k < |c.world.refreshes| && c.world.refreshes[k].running
    ensures Settling(Ended(c, k), c.failedQueue, k)
  {
    var ended := Ended(c, k);
    forall r | 0 <= r < |ended.requests|
      ensures RequestOk(ended.requests[r], ended.refreshes, ended.clock)
    {
      RequestEnds(c.world.requests[r], c.world.refreshes, c.world.clock, k);
    }
    forall i | 0 <= i < |ended.refreshes| && ended.refreshes[i].owner.Retry?
      ensures RunsFor(ended, ended.refreshes[i])
    {
      assert RunsFor(c.world, c.world.refreshes[i]);
    }
    forall j | 0 <= j < |c.failedQueue| && c.failedQueue[j].owner.Retry?
      ensures WaitsFor(ended, c.failedQueue[j])
    {
      assert WaitsFor(c.world, c.failedQueue[j]);
    }
  }

  lemma FinishSettles(c: Client, k: nat, answer: Answer)
    requires Invariant(c) && Enabled(c, Finish(k, answer))
    ensures var w := Resumed(c, k, answer);
            Settling(w, [], k) && w.refreshes == Ended(c, k).refreshes && w.clock == c.world.clock && w.clears == c.world.clears
  {
    EndedSettling(c, k);
    SettlePrefix(Ended(c, k), c.failedQueue, k, answer.Token?, |c.failedQueue|);
    assert c.failedQueue[..|c.failedQueue|] == c.failedQueue && c.failedQueue[|c.failedQueue|..] == [];
    assert c.world.refreshes[k].owner.Retry? ==> RunsFor(c.world, c.world.refreshes[k]);
    OwnerResumes(SettleAll(Ended(c, k), c.failedQueue, k, answer.Token?), k, answer.Token?);
  }

  lemma SettledInvariant(c: Client, k: nat, w: World)
    requires OneRefresh(c) && Paced(c) && ClearsPaced(c) && k < |c.world.refreshes| && c.world.refreshes[k].running
    requires Settling(w, [], k) && w.refreshes == Ended(c, k).refreshes && w.clock == c.world.clock && w.clears == c.world.clears
    ensures Invariant(c.(isRefreshing := false, failedQueue := [], world := w))
  {
  }

  lemma FinishKeeps(c: Client, k: nat, answer: Answer)
    requires Invariant(c) && Enabled(c, Finish(k, answer))
    ensures Invariant(FinishStep(c, k, answer))
  {
    FinishSettles(c, k, answer);
    SettledInvariant(c, k, Resumed(c, k, answer));
    ClearAuthInvariant(c.(isRefreshing := false, failedQueue := [], world := Resumed(c, k, answer)));
  }

  lemma TickKeeps(c: Client, now: nat)
    requires Invariant(c) && now >= c.world.clock
    ensures Invariant(c.(world := c.world.(clock := now)))
  {
    forall r | 0 <= r < |c.world.requests|
      ensures RequestOk(c.world.requests[r], c.world.refreshes, now)
    {
      RequestLater(c.world.requests[r], c.world.refreshes, c.world.clock, now);
    }
    OwnersLater(c.world, c.world.(clock := now), c.failedQueue);
  }

  /** More requests, or later times, disturb no owner. */
  lemma OwnersLater(w: World, w': World, queue: seq<Waiter>)
    requires OwnersOk(w, queue) && w'.refreshes == w.refreshes && w.requests <= w'.requests
    ensures OwnersOk(w', queue)
  {
    forall j | 0 <= j < |queue| && queue[j].owner.Retry?
      ensures WaitsFor(w', queue[j])
    {
      assert WaitsFor(w, queue[j]);
    }
    forall i | 0 <= i < |w.refreshes| && w.refreshes[i].owner.Retry?
      ensures RunsFor(w', w.refreshes[i])
    {
      assert RunsFor(w, w.refreshes[i]);
    }
  }

  lemma SendKeeps(c: Client)
    requires Invariant(c)
    ensures Invariant(Step(c, Send))
  {
    var w' := Step(c, Send).world;
    OwnersLater(c.world, w', c.failedQueue);
    assert RequestOk(w'.requests[|c.world.requests|], w'.refreshes, w'.clock);
  }

  lemma StepKeeps(c: Client, e: Event)
    requires Invariant(c) && Enabled(c, e)
    ensures Invariant(Step(c, e))
  {
    match e
    case Tick(now) => TickKeeps(c, now);
    case Send => SendKeeps(c);
    case Proactive => ProactiveKeeps(c);
    case Unauthorized(r) => UnauthorizedKeeps(c, r);
    case Answered(r) => PhaseKeeps(c, r, Done);
    case Finish(k, answer) => FinishKeeps(c, k, answer);
    case Wake(r) => PhaseKeeps(c, r, InFlight);
  }

  // ---- Every run ----

  /** Clock readings are positive. */
  ghost predicate IsRun(states: seq<Client>, events: seq<Event>) {
    && |states| == |events| + 1 && states[0] == Loaded(states[0].world.clock) && states[0].world.clock > 0
    && forall i :: 0 <= i < |events| ==> Enabled(states[i], events[i]) && states[i + 1] == Step(states[i], events[i])
  }

  lemma {:induction false} RunKeeps(states: seq<Client>, events: seq<Event>, i: nat)
    requires IsRun(states, events) && i < |states|
    ensures Invariant(states[i])
  {
    if i > 0 {
      RunKeeps(states, events, i - 1);
      StepKeeps(states[i - 1], events[i - 1]);
      assert states[i - 1 + 1] == Step(states[i - 1], events[i - 1]);
    }
  }

  /** At most one refresh is in flight, and nobody waits when none is. */
  lemma OneRefreshAtATime(states: seq<Client>, events: seq<Event>, i: nat, j: nat, k: nat)
    requires IsRun(states, events) && i < |states|
    requires j < |states[i].world.refreshes| && k < |states[i].world.refreshes|
    requires states[i].world.refreshes[j].running && states[i].world.refreshes[k].running
    ensures j == k && states[i].isRefreshing
  {
    RunKeeps(states, events, i);
  }

  lemma NobodyWaitsUnlocked(states: seq<Client>, events: seq<Event>, i: nat)
    requires IsRun(states, events) && i < |states| && !states[i].isRefreshing
    ensures states[i].failedQueue == [] && forall k :: 0 <= k < |states[i].world.refreshes| ==> !states[i].world.refreshes[k].running
  {
    RunKeeps(states, events, i);
  }

  /**
   * Every waiter that ever queued is either settled, once and by the refresh it joined,
   * or still stands in the queue, once, and the refresh it joined is the one in flight.
   */
  lemma EveryWaiterSettledOnce(states: seq<Client>, events: seq<Event>, i: nat, t: nat)
    requires IsRun(states, events) && i < |states| && t < states[i].world.tickets
    ensures var settled, queue := states[i].world.settled, states[i].failedQueue;
            if t < |settled| then
              && settled[t].ticket == t && settled[t].settler == settled[t].joined
              && (forall j :: 0 <= j < |settled| && settled[j].ticket == t ==> j == t)
              && (forall j :: 0 <= j < |queue| ==> queue[j].ticket != t)
            else
              && t - |settled| < |queue| && queue[t - |settled|].ticket == t
              && (forall j :: 0 <= j < |queue| && queue[j].ticket == t ==> j == t - |settled|)
              && queue[t - |settled|].joined < |states[i].world.refreshes|
              && states[i].world.refreshes[queue[t - |settled|].joined].running
  {
    RunKeeps(states, events, i);
  }

  /** Refreshes start at least five seconds apart, whichever of the two entry points start them. */
  lemma {:induction false} RefreshesPaced(states: seq<Client>, events: seq<Event>, i: nat, j: nat, k: nat)
    requires IsRun(states, events) && i < |states| && j < k < |states[i].world.refreshes|
    ensures states[i].world.refreshes[k].start - states[i].world.refreshes[j].start >= 5000 * (k - j)
    decreases k
  {
    RunKeeps(states, events, i);
    if j < k - 1 {
      RefreshesPaced(states, events, i, j, k - 1);
    }
  }

  /** The stored session is cleared at most once in any ten seconds. */
  lemma {:induction false} SessionClearsPaced(states: seq<Client>, events: seq<Event>, i: nat, j: nat, k: nat)
    requires IsRun(states, events) && i < |states| && j < k < |states[i].world.clears|
    ensures states[i].world.clears[k] - states[i].world.clears[j] > 10000 * (k - j)
    decreases k
  {
    RunKeeps(states, events, i);
    if j < k - 1 {
      SessionClearsPaced(states, events, i, j, k - 1);
    }
  }

  // ---- What each event does ----

  predicate WaitsIn(queue: seq<Waiter>, r: nat) {
    exists j :: 0 <= j < |queue| && queue[j].owner == Retry(r)
  }

  ghost predicate OneWaiterEach(queue: seq<Waiter>) {
    forall i, j :: 0 <= i < j < |queue| && queue[i].owner.Retry? ==> queue[i].owner != queue[j].owner
  }

  /** A request goes on: it is sent again, or it is given up. */
  predicate GoesOn(q: Request, q': Request, resend: Resend, ok: bool) {
    if ok then q'.phase.InFlight? && q'.resends == q.resends + [resend] && q'.retried == q.retried
    else q'.phase.Done? && q'.resends == q.resends && q'.retried == q.retried
  }

  lemma {:induction false} QueueGoesOn(w: World, queue: seq<Waiter>, k: nat, ok: bool, r: nat)
    requires r < |w.requests| && OneWaiterEach(queue)
    ensures var w' := SettleAll(w, queue, k, ok);
            && |w'.requests| == |w.requests|
            && (if WaitsIn(queue, r) then GoesOn(w.requests[r], w'.requests[r], FromQueue(k), ok) else w'.requests[r] == w.requests[r])
  {
    if queue != [] {
      var init, last := queue[..|queue| - 1], queue[|queue| - 1];
      QueueGoesOn(w, init, k, ok, r);
      if last.owner == Retry(r) {
        assert !WaitsIn(init, r);
      } else {
        assert WaitsIn(queue, r) <==> WaitsIn(init, r);
      }
    }
  }

  lemma {:induction false} QueueSettles(w: World, queue: seq<Waiter>, k: nat, ok: bool)
    ensures var w' := SettleAll(w, queue, k, ok);
            && |w'.settled| == |w.settled| + |queue| && w.settled <= w'.settled
            && (forall j :: 0 <= j < |queue| ==> w'.settled[|w.settled| + j] == Settlement(queue[j].ticket, queue[j].joined, k, ok))
            && w'.clears == w.clears && w'.refreshes == w.refreshes && w'.clock == w.clock && w'.tickets == w.tickets
  {
    if queue != [] {
      QueueSettles(w, queue[..|queue| - 1], k, ok);
    }
  }

  /**
   * The end of a refresh: every waiting request and the one that ran the refresh is sent again, once, if there is a
   * token, and given up if there is none; nothing happens to any other request.
   */
  lemma FinishedRequestsGoOn(states: seq<Client>, events: seq<Event>, i: nat, k: nat, answer: Answer, r: nat)
    requires IsRun(states, events) && i < |events| && events[i] == Finish(k, answer) && r < |states[i].world.requests|
    ensures k < |states[i].world.refreshes| && r < |states[i + 1].world.requests|
    ensures var q, q' := states[i].world.requests[r], states[i + 1].world.requests[r];
            if WaitsIn(states[i].failedQueue, r) then GoesOn(q, q', FromQueue(k), answer == Token)
            else if states[i].world.refreshes[k].owner == Retry(r) then GoesOn(q, q', AfterRefresh(k), answer == Token)
            else q' == q
  {
    RunKeeps(states, events, i);
    var c := states[i];
    assert Enabled(c, events[i]) && states[i + 1] == Step(c, events[i]);
    QueueGoesOn(Ended(c, k), c.failedQueue, k, answer == Token, r);
    var owner := c.world.refreshes[k].owner;
    if owner.Retry? {
      assert RunsFor(c.world, c.world.refreshes[k]);
      forall j | 0 <= j < |c.failedQueue|
        ensures c.failedQueue[j].owner != owner
      {
        assert c.failedQueue[j].owner.Retry? ==> WaitsFor(c.world, c.failedQueue[j]);
      }
    }
  }

  /**
   * The end of a refresh settles every waiter, in order, with a token or without, empties the queue and opens the lock.
   * The session is cleared if and only if the refresh of a request was refused and the cooldown is over.
   */
  lemma FinishSettlesQueue(states: seq<Client>, events: seq<Event>, i: nat, k: nat, answer: Answer)
    requires IsRun(states, events) && i < |events| && events[i] == Finish(k, answer)
    ensures k < |states[i].world.refreshes| && !states[i + 1].isRefreshing && states[i + 1].failedQueue == []
    ensures var queue, w, w' := states[i].failedQueue, states[i].world, states[i + 1].world;
            && |w'.settled| == |w.settled| + |queue| && w.settled <= w'.settled
            && (forall j :: 0 <= j < |queue| ==>
                  w'.settled[|w.settled| + j] == Settlement(queue[j].ticket, queue[j].joined, k, answer == Token))
            && w'.clears == if answer == Invalid && w.refreshes[k].owner.Retry? && w.clock - states[i].lastAuthFailureTime > 10000
                            then w.clears + [w.clock] else w.clears
  {
    assert Enabled(states[i], events[i]) && states[i + 1] == Step(states[i], events[i]);
    QueueSettles(Ended(states[i], k), states[i].failedQueue, k, answer == Token);
  }

  predicate NoneRunning(w: World) {
    forall k :: 0 <= k < |w.refreshes| ==> !w.refreshes[k].running
  }

  /** A refresh has started in the last five seconds. */
  predicate StartedLately(w: World) {
    w.refreshes != [] && w.clock - w.refreshes[|w.refreshes| - 1].start < 5000
  }

  predicate FirstUnauthorized(w: World, e: Event) {
    e.Unauthorized? && e.request < |w.requests| && !w.requests[e.request].retried
  }

  /**
   * A refresh starts if and only if none runs, none has started lately, and either a request that has run none is
   * answered with 401, or a proactive call is made, that one not in the first five seconds of the clock.
   */
  lemma RefreshStartsIff(states: seq<Client>, events: seq<Event>, i: nat)
    requires IsRun(states, events) && i < |events|
    ensures var w, w', e := states[i].world, states[i + 1].world, events[i];
            && (|w'.refreshes| > |w.refreshes| <==>
                  NoneRunning(w) && !StartedLately(w) && (FirstUnauthorized(w, e) || (e == Proactive && (w.refreshes != [] || w.clock >= 5000))))
            && (|w'.refreshes| > |w.refreshes| ==> w'.refreshes == w.refreshes + [Refresh(w.clock, if e == Proactive then Call else Retry(e.request), true)])
  {
    RunKeeps(states, events, i);
    assert Enabled(states[i], events[i]) && states[i + 1] == Step(states[i], events[i]);
    if events[i].Finish? {
      QueueSettles(Ended(states[i], events[i].refresh), states[i].failedQueue, events[i].refresh, events[i].answer == Token);
    }
  }

  /** Somebody starts to wait for a refresh if and only if one runs and a proactive call or such a 401 comes. */
  lemma WaiterJoinsIff(states: seq<Client>, events: seq<Event>, i: nat)
    requires IsRun(states, events) && i < |events|
    ensures var w, w', e := states[i].world, states[i + 1].world, events[i];
            && (w'.tickets > w.tickets <==> !NoneRunning(w) && (FirstUnauthorized(w, e) || e == Proactive))
            && (w'.tickets > w.tickets ==>
                  |w.refreshes| > 0 && (e.Unauthorized? || e.Proactive?) && states[i + 1].failedQueue == states[i].failedQueue
                    + [Waiter(w.tickets, |w.refreshes| - 1, if e == Proactive then Call else Retry(e.request))])
  {
    RunKeeps(states, events, i);
    assert Enabled(states[i], events[i]) && states[i + 1] == Step(states[i], events[i]);
    if events[i].Finish? {
      QueueSettles(Ended(states[i], events[i].refresh), states[i].failedQueue, events[i].refresh, events[i].answer == Token);
    }
  }

  /** What a 401 does to its request, and when it clears the session. */
  lemma UnauthorizedRequestGoesOn(states: seq<Client>, events: seq<Event>, i: nat, r: nat)
    requires IsRun(states, events) && i < |events| && events[i] == Unauthorized(r)
    ensures r < |states[i].world.requests| == |states[i + 1].world.requests|
    ensures var w, q, q' := states[i].world, states[i].world.requests[r], states[i + 1].world.requests[r];
            if q.retried then q' == Request(true, Done, q.resends)
            else if !NoneRunning(w) then q' == Request(false, Queued, q.resends)
            else if StartedLately(w) then q' == Request(false, Sleeping(w.clock + 1000), q.resends + [AfterWait(|w.refreshes| - 1)])
            else q' == Request(true, Refreshing, q.resends)
    ensures var w, w' := states[i].world, states[i + 1].world;
            w'.clears == if w.requests[r].retried && w.clock - states[i].lastAuthFailureTime > 10000 then w.clears + [w.clock] else w.clears
  {
    RunKeeps(states, events, i);
    assert Enabled(states[i], events[i]) && states[i + 1] == Step(states[i], events[i]);
  }

  /** A wait ends by sending the request again, at the earliest a second after its 401. */
  lemma WokenRequestIsSent(states: seq<Client>, events: seq<Event>, i: nat, r: nat)
    requires IsRun(states, events) && i < |events| && events[i] == Wake(r)
    ensures r < |states[i].world.requests| && states[i].world.requests[r].phase.Sleeping?
    ensures states[i].world.clock >= states[i].world.requests[r].phase.until
    ensures states[i + 1].world == states[i].world.(requests := states[i].world.requests[r := states[i].world.requests[r].(phase := InFlight)])
  {
    assert Enabled(states[i], events[i]) && states[i + 1] == Step(states[i], events[i]);
  }

  // ---- The retry loop ----

  /** Resends, other than those after an own refresh, in the periods before the given one. */
  function Below(resends: seq<Resend>, e: nat): nat {
    if resends == [] then 0
    else
      var last := resends[|resends| - 1];
      Below(resends[..|resends| - 1], e) + if !last.AfterRefresh? && last.refresh < e then 1 else 0
  }

  lemma {:induction false} BelowStep(resends: seq<Resend>, e: nat)
    ensures Below(resends, e + 1) == Below(resends, e) + Count(resends, FromQueue(e)) + Count(resends, AfterWait(e))
    ensures Below(resends, 0) == 0
  {
    if resends != [] {
      BelowStep(resends[..|resends| - 1], e);
    }
  }

  lemma {:induction false} BelowBound(resends: seq<Resend>, e: nat)
    requires forall k :: WithinLimits(resends, k)
    ensures Below(resends, e) <= 6 * e
  {
    if e == 0 {
      BelowStep(resends, 0);
    } else {
      BelowBound(resends, e - 1);
      BelowStep(resends, e - 1);
      assert WithinLimits(resends, e - 1);
    }
  }

  lemma {:induction false} AllCounted(resends: seq<Resend>, n: nat)
    requires forall i :: 0 <= i < |resends| ==> resends[i].refresh < n
    ensures |resends| == OwnCount(resends) + Below(resends, n)
  {
    if resends != [] {
      AllCounted(resends[..|resends| - 1], n);
    }
  }

  /**
   * The retry loop ends relative to refreshes. For each refresh that was started a request is sent again at most once
   * from the queue and at most five times after a wait, and once in all after a refresh of its own.
   */
  lemma ResendsBounded(states: seq<Client>, events: seq<Event>, i: nat, r: nat)
    requires IsRun(states, events) && i < |states| && r < |states[i].world.requests|
    ensures |states[i].world.requests[r].resends| <= 6 * |states[i].world.refreshes| + 1
  {
    RunKeeps(states, events, i);
    var q := states[i].world.requests[r];
    assert RequestOk(q, states[i].world.refreshes, states[i].world.clock);
    AllCounted(q.resends, |states[i].world.refreshes|);
    BelowBound(q.resends, |states[i].world.refreshes|);
  }

  /** Once a request has run its own refresh, its next 401 is final: it starts no refresh and is not sent again. */
  lemma NextUnauthorizedIsFinal(states: seq<Client>, events: seq<Event>, i: nat, r: nat, k: nat)
    requires IsRun(states, events) && i < |events| && events[i] == Unauthorized(r)
    requires k < |states[i].world.refreshes| && states[i].world.refreshes[k].owner == Retry(r)
    ensures var before, after := states[i].world, states[i + 1].world;
            after.requests[r] == before.requests[r].(phase := Done) && after.refreshes == before.refreshes && after.tickets == before.tickets
  {
    RunKeeps(states, events, i);
    assert Enabled(states[i], events[i]);
    assert RunsFor(states[i].world, states[i].world.refreshes[k]);
  }

  // ---- The client's own code ----

  /** The module variables of the client, and the surroundings they meet. */
  class ApiClient {
    var isRefreshing: bool
    var failedQueue: seq<Waiter>
    var lastRefreshAttempt: nat
    var lastAuthFailureTime: nat
    var world: World

    ghost function View(): Client
      reads this
    {
      Client(isRefreshing, failedQueue, lastRefreshAttempt, lastAuthFailureTime, world)
    }

    constructor (now: nat)
      ensures View() == Loaded(now)
    {
      isRefreshing, failedQueue, lastRefreshAttempt, lastAuthFailureTime := false, [], 0, 0;
      world := World(now, [], 0, [], [], []);
    }

    /** The executor of a promise that is pushed onto the queue. */
    method Push(owner: Owner)
      modifies `failedQueue, `world
      ensures View() == Join(old(View()), owner)
    {
      failedQueue := failedQueue + [Waiter(world.tickets, Latest(world.refreshes), owner)];
      world := world.(tickets := world.tickets + 1);
    }

    method SetRequest(r: nat, q: Request)
      requires r < |world.requests|
      modifies `world
      ensures View() == WithRequest(old(View()), r, q)
    {
      world := world.(requests := world.requests[r := q]);
    }

    method Begin(owner: Owner)
      modifies `isRefreshing, `lastRefreshAttempt, `world
      ensures View() == StartRefresh(old(View()), owner)
    {
      isRefreshing := true;
      lastRefreshAttempt := world.clock;
      world := world.(refreshes := world.refreshes + [Refresh(world.clock, owner, true)]);
    }

    method ClearSession()
      modifies `lastAuthFailureTime, `world
      ensures View() == ClearAuth(old(View()))
    {
      var now := world.clock;
      if now - lastAuthFailureTime > AUTH_FAILURE_COOLDOWN {
        lastAuthFailureTime := now;
        world := world.(clears := world.clears + [now]);
      }
    }

    /** `proactiveRefreshToken` up to its first await. */
    method ProactiveRefreshToken()
      modifies this
      ensures View() == Step(old(View()), Proactive)
    {
      if isRefreshing {
        Push(Call);
        return;
      }
      var now := world.clock;
      if now - lastRefreshAttempt < MIN_REFRESH_INTERVAL {
        return;
      }
      Begin(Call);
    }

    /** The 401 branch of the response interceptor up to its first await. */
    method HandleUnauthorized(r: nat)
      requires Enabled(View(), Unauthorized(r))
      modifies this
      ensures View() == Step(old(View()), Unauthorized(r))
    {
      var request := world.requests[r];
      if request.retried {
        ClearSession();
        SetRequest(r, request.(phase := Done));
        return;
      }
      if isRefreshing {
        Push(Retry(r));
        SetRequest(r, request.(phase := Queued));
        return;
      }
      var now := world.clock;
      if now - lastRefreshAttempt < MIN_REFRESH_INTERVAL && lastRefreshAttempt > 0 {
        SetRequest(r, request.(phase := Sleeping(now + RETRY_DELAY), resends := request.resends + [AfterWait(Latest(world.refreshes))]));
        return;
      }
      Begin(Retry(r));
      SetRequest(r, request.(phase := Refreshing, retried := true));
    }

    /** `processQueue`: settle every waiter and empty the queue. */
    method ProcessQueue(k: nat, ok: bool)
      modifies `failedQueue, `world
      ensures failedQueue == [] && world == SettleAll(old(world), old(failedQueue), k, ok)
    {
      for i := 0 to |failedQueue|
        invariant failedQueue == old(failedQueue)
        invariant world == SettleAll(old(world), failedQueue[..i], k, ok)
      {
        var prom := failedQueue[i];
        assert failedQueue[..i + 1][..i] == failedQueue[..i];
        world := world.(settled := world.settled + [Settlement(prom.ticket, prom.joined, k, ok)],
                        requests := Resume(world.requests, prom.owner, FromQueue(k), ok));
      }
      assert failedQueue[..|failedQueue|] == failedQueue;
      failedQueue := [];
    }

    /** What either entry point does once its refresh has been answered. */
    method FinishRefresh(k: nat, answer: Answer)
      requires Enabled(View(), Finish(k, answer))
      modifies this
      ensures View() == Step(old(View()), Finish(k, answer))
    {
      var owner := world.refreshes[k].owner;
      world := world.(refreshes := world.refreshes[k := world.refreshes[k].(running := false)]);
      ProcessQueue(k, answer.Token?);
      world := world.(requests := Resume(world.requests, owner, AfterRefresh(k), answer.Token?));
      if answer.Invalid? && owner.Retry? {
        ClearSession();
      }
      isRefreshing := false;
    }
  }
}
