/** The heartbeat loop of the host agent: the queue of audit snapshots and the retrying of network policies. */
module AgentLoop {
  import opened Text
  import AuditScanner

  type Snapshot = AuditScanner.Snapshot

  const BATCH: nat := 32

  // ---- The audit queue ----

  /** The queue, the batches that the panel has accepted, and everything the scanner has collected. */
  datatype Queue = Queue(pending: seq<Snapshot>, accepted: seq<seq<Snapshot>>, collected: seq<Snapshot>)

  datatype QueueEvent =
    | Heartbeat(arrived: seq<Snapshot>, accepted: bool)  // `arrived` is appended between sending and the answer
    | Scanned(found: seq<Snapshot>)

  const EMPTY_QUEUE := Queue([], [], [])

  /** What the next heartbeat carries. */
  function NextBatch(pending: seq<Snapshot>): (batch: seq<Snapshot>)
    ensures batch <= pending && |batch| <= BATCH
  {
    if |pending| > BATCH then pending[..BATCH] else pending
  }

  function QueueStep(q: Queue, e: QueueEvent): Queue {
    match e
    case Heartbeat(arrived, accepted) =>
      var batch := NextBatch(q.pending);
      if accepted then Queue((q.pending + arrived)[|batch|..], q.accepted + [batch], q.collected + arrived)
      else Queue(q.pending + arrived, q.accepted, q.collected + arrived)
    case Scanned(found) => Queue(q.pending + found, q.accepted, q.collected + found)
  }

  function Flatten(batches: seq<seq<Snapshot>>): seq<Snapshot> {
    if batches == [] then [] else Flatten(batches[..|batches| - 1]) + batches[|batches| - 1]
  }

  function QueueAfter(q: Queue, events: seq<QueueEvent>): Queue {
    if events == [] then q else QueueStep(QueueAfter(q, events[..|events| - 1]), events[|events| - 1])
  }

  ghost predicate Conserved(q: Queue) {
    Flatten(q.accepted) + q.pending == q.collected && forall b :: b in q.accepted ==> |b| <= 32
  }

  lemma Regroup(sent: seq<Snapshot>, batch: seq<Snapshot>, rest: seq<Snapshot>, queue: seq<Snapshot>, arrived: seq<Snapshot>)
    requires batch + rest == queue + arrived
    ensures (sent + batch) + rest == (sent + queue) + arrived
  {
    assert (sent + batch) + rest == sent + (batch + rest);
    assert (sent + queue) + arrived == sent + (queue + arrived);
  }

  lemma FlattenSnoc(batches: seq<seq<Snapshot>>, batch: seq<Snapshot>)
    ensures Flatten(batches + [batch]) == Flatten(batches) + batch
  {
    assert (batches + [batch])[..|batches|] == batches;
  }

  lemma AcceptedConserves(q: Queue, arrived: seq<Snapshot>)
    requires Conserved(q)
    ensures Conserved(QueueStep(q, Heartbeat(arrived, true)))
  {
    var batch, all := NextBatch(q.pending), q.pending + arrived;
    FlattenSnoc(q.accepted, batch);
    assert all[..|batch|] == batch;
    Regroup(Flatten(q.accepted), batch, all[|batch|..], q.pending, arrived);
  }

  lemma StepConserves(q: Queue, e: QueueEvent)
    requires Conserved(q)
    ensures Conserved(QueueStep(q, e))
  {
    if e.Heartbeat? && e.accepted {
      AcceptedConserves(q, e.arrived);
    } else {
      var more := if e.Heartbeat? then e.arrived else e.found;
      assert Flatten(q.accepted) + (q.pending + more) == (Flatten(q.accepted) + q.pending) + more;
    }
  }

  /** Nothing is lost, repeated or reordered: the accepted batches and then the queue are what was collected. */
  lemma {:induction false} DeliveryConserved(events: seq<QueueEvent>)
    ensures Conserved(QueueAfter(EMPTY_QUEUE, events))
  {
    if events != [] {
      DeliveryConserved(events[..|events| - 1]);
      StepConserves(QueueAfter(EMPTY_QUEUE, events[..|events| - 1]), events[|events| - 1]);
    }
  }

  /** After a heartbeat that was not acknowledged, the next one carries the same snapshots first. */
  lemma UnacknowledgedIsSentAgain(q: Queue, arrived: seq<Snapshot>, found: seq<Snapshot>)
    ensures NextBatch(q.pending) <= NextBatch(QueueStep(QueueStep(q, Heartbeat(arrived, false)), Scanned(found)).pending)
  {
  }

  predicate Quiet(events: seq<QueueEvent>) {
    forall i :: 0 <= i < |events| ==> events[i] == Heartbeat([], true)
  }

  lemma {:induction false} LeftAfter(q: Queue, events: seq<QueueEvent>)
    requires Quiet(events)
    ensures QueueAfter(q, events).pending == if BATCH * |events| <= |q.pending| then q.pending[BATCH * |events|..] else []
  {
    if events != [] {
      LeftAfter(q, events[..|events| - 1]);
    }
  }

  /** With nothing new, ceil(len/32) accepted heartbeats drain the queue, and no fewer do. */
  lemma DrainsExactly(q: Queue, events: seq<QueueEvent>)
    requires Quiet(events)
    ensures QueueAfter(q, events).pending == [] <==> |events| >= (|q.pending| + 31) / 32
  {
    LeftAfter(q, events);
  }

  // ---- Retrying the network policies ----

  const INITIAL_DELAY: nat := 5000
  const MAX_DELAY: nat := 300000

  datatype Status = Status(revision: string, applied: bool)

  datatype Retry = Retry(last: Option<Status>, revision: string, delay: nat, nextAt: nat)

  /** The panel names a revision; `check` and `end` are the clock readings before and after a possible attempt. */
  datatype Instruction = Instruction(revision: string, check: nat, end: nat, applies: bool)

  const FIRST := Retry(None, "", 0, 0)

  predicate ShouldApply(r: Retry, revision: string, now: nat) {
    r.last.None? || r.last.value.revision != revision || (!r.last.value.applied && now >= r.nextAt)
  }

  function Attempted(r: Retry, i: Instruction): Retry {
    if i.applies then Retry(Some(Status(i.revision, true)), "", 0, 0)
    else
      var delay := if r.revision != i.revision || r.delay == 0 then INITIAL_DELAY else r.delay;
      Retry(Some(Status(i.revision, false)), i.revision, if 2 * delay > MAX_DELAY then MAX_DELAY else 2 * delay, i.end + delay)
  }

  function RetryStep(r: Retry, i: Instruction): Retry {
    if ShouldApply(r, i.revision, i.check) then Attempted(r, i) else r
  }

  /** An attempt that was made, and when it ended. */
  datatype Attempt = Attempt(revision: string, at: nat, applied: bool)

  /** How many of the last attempts in a row failed for the same revision. */
  function Streak(attempts: seq<Attempt>): nat {
    if attempts == [] || attempts[|attempts| - 1].applied then 0
    else
      var n := |attempts|;
      1 + if n > 1 && attempts[n - 2].revision == attempts[n - 1].revision then Streak(attempts[..n - 1]) else 0
  }

  function Pow2(k: nat): (p: nat)
    ensures p > 0
  {
    if k == 0 then 1 else 2 * Pow2(k - 1)
  }

  /** The wait after the k-th failure in a row: min(5 s * 2^(k-1), 300 s). */
  function Delay(k: nat): nat
    requires k > 0
  {
    if 5000 * Pow2(k - 1) < 300000 then 5000 * Pow2(k - 1) else 300000
  }

  function AttemptsStep(r: Retry, attempts: seq<Attempt>, i: Instruction): seq<Attempt> {
    if ShouldApply(r, i.revision, i.check) then attempts + [Attempt(i.revision, i.end, i.applies)] else attempts
  }

  /** The retry variables are a function of the attempts made: this is the closed form. */
  ghost predicate ClosedForm(r: Retry, attempts: seq<Attempt>) {
    if attempts == [] then r == FIRST
    else
      var last := attempts[|attempts| - 1];
      && r.last == Some(Status(last.revision, last.applied))
      && if last.applied then r.revision == "" && r.delay == 0
         else
           && Streak(attempts) > 0 && r.revision == last.revision
           && r.nextAt == last.at + Delay(Streak(attempts)) && r.delay == Delay(Streak(attempts) + 1)
  }

  lemma DelayDoubles(k: nat)
    requires k > 0
    ensures Delay(k + 1) == if 2 * Delay(k) > MAX_DELAY then MAX_DELAY else 2 * Delay(k)
    ensures Delay(1) == INITIAL_DELAY && Delay(2) == 2 * INITIAL_DELAY
  {
    assert Pow2(1) == 2 * Pow2(0);
  }

  lemma RetryKeepsClosedForm(r: Retry, attempts: seq<Attempt>, i: Instruction)
    requires ClosedForm(r, attempts)
    ensures ClosedForm(RetryStep(r, i), AttemptsStep(r, attempts, i))
  {
    if ShouldApply(r, i.revision, i.check) && !i.applies {
      var attempts' := AttemptsStep(r, attempts, i);
      assert attempts'[..|attempts'| - 1] == attempts;
      var k := Streak(attempts');
      DelayDoubles(k);
      if k > 1 {
        DelayDoubles(k - 1);
      }
    }
  }

  ghost predicate RetryRun(states: seq<Retry>, histories: seq<seq<Attempt>>, instructions: seq<Instruction>) {
    && |states| == |histories| == |instructions| + 1 && states[0] == FIRST && histories[0] == []
    && forall i :: 0 <= i < |instructions| ==>
      && states[i + 1] == RetryStep(states[i], instructions[i])
      && histories[i + 1] == AttemptsStep(states[i], histories[i], instructions[i])
  }

  lemma {:induction false} BackoffClosedForm(states: seq<Retry>, histories: seq<seq<Attempt>>, instructions: seq<Instruction>, i: nat)
    requires RetryRun(states, histories, instructions) && i < |states|
    ensures ClosedForm(states[i], histories[i])
  {
    if i > 0 {
      BackoffClosedForm(states, histories, instructions, i - 1);
      RetryKeepsClosedForm(states[i - 1], histories[i - 1], instructions[i - 1]);
      assert states[i - 1 + 1] == RetryStep(states[i - 1], instructions[i - 1]);
    }
  }

  /**
   * When an instruction leads to an attempt: exactly if the revision is not that of the last attempt, or that attempt
   * failed and the wait for its place in the row of failures is over. An applied revision is left alone.
   */
  lemma AttemptedExactlyWhen(states: seq<Retry>, histories: seq<seq<Attempt>>, instructions: seq<Instruction>, i: nat)
    requires RetryRun(states, histories, instructions) && i < |instructions|
    ensures var h, x := histories[i], instructions[i];
            |histories[i + 1]| > |h| <==>
              || h == [] || h[|h| - 1].revision != x.revision
              || (!h[|h| - 1].applied && Streak(h) > 0 && x.check >= h[|h| - 1].at + Delay(Streak(h)))
  {
    BackoffClosedForm(states, histories, instructions, i);
    assert histories[i + 1] == AttemptsStep(states[i], histories[i], instructions[i]);
  }

  /** The least time between the ends of the first and the n-th of n failures in a row. */
  function Span(n: nat): nat {
    if n <= 1 then 0 else Span(n - 1) + Delay(n - 1)
  }

  lemma {:induction false} DelayGrows(j: nat, k: nat)
    requires 0 < j <= k
    ensures Delay(j) <= Delay(k)
  {
    if j < k {
      DelayGrows(j, k - 1);
    }
  }

  /** The clock does not go back. */
  ghost predicate Timed(instructions: seq<Instruction>) {
    && (forall i :: 0 <= i < |instructions| ==> instructions[i].check <= instructions[i].end)
    && (forall i :: 0 < i < |instructions| ==> instructions[i - 1].end <= instructions[i].check)
  }

  /** Instructions i .. j all name one revision. */
  ghost predicate OneRevision(instructions: seq<Instruction>, i: nat, j: nat)
    requires j <= |instructions|
  {
    forall k :: i <= k < j ==> instructions[k].revision == instructions[i].revision
  }

  /** What n attempts for one revision since `start` look like at the time `now`. */
  ghost predicate InWindow(h: seq<Attempt>, n: int, revision: string, start: nat, now: nat) {
    n == 0 ||
    (n > 0 && h != [] && h[|h| - 1].revision == revision && start + Span(n) <= h[|h| - 1].at <= now
      && (!h[|h| - 1].applied ==> Streak(h) >= n))
  }

  lemma {:induction false} WindowInvariant(states: seq<Retry>, histories: seq<seq<Attempt>>, instructions: seq<Instruction>, i: nat, j: nat)
    requires RetryRun(states, histories, instructions) && Timed(instructions)
    requires i < j <= |instructions| && OneRevision(instructions, i, j)
    ensures instructions[i].check <= instructions[j - 1].check
    ensures InWindow(histories[j], |histories[j]| - |histories[i]|, instructions[i].revision, instructions[i].check, instructions[j - 1].end)
    decreases j
  {
    var x := instructions[j - 1];
    BackoffClosedForm(states, histories, instructions, j - 1);
    assert histories[j - 1 + 1] == AttemptsStep(states[j - 1], histories[j - 1], x);
    var n := |histories[j - 1]| - |histories[i]|;
    if i < j - 1 {
      WindowInvariant(states, histories, instructions, i, j - 1);
      assert instructions[j - 2].end <= x.check;
    }
    WindowStep(states[j - 1], histories[j - 1], x, n, instructions[i].check);
  }

  /** One more instruction for the same revision. */
  lemma WindowStep(r: Retry, h: seq<Attempt>, x: Instruction, n: int, start: nat)
    requires ClosedForm(r, h) && InWindow(h, n, x.revision, start, x.check) && start <= x.check <= x.end
    ensures var h' := AttemptsStep(r, h, x);
            InWindow(h', n + |h'| - |h|, x.revision, start, x.end)
  {
    if ShouldApply(r, x.revision, x.check) {
      NextInWindow(h, x, start, n);
    }
  }

  ghost predicate FailedInWindow(h: seq<Attempt>, x: Instruction, start: nat, n: nat)
    requires n > 0
  {
    && h != [] && !h[|h| - 1].applied && h[|h| - 1].revision == x.revision
    && start + Span(n) <= h[|h| - 1].at && Streak(h) >= n && x.check >= h[|h| - 1].at + Delay(Streak(h))
  }

  /** One more attempt in the window comes after the wait that is due, which is at least as long as its number asks for. */
  lemma NextInWindow(h: seq<Attempt>, x: Instruction, start: nat, n: nat)
    requires n > 0 ==> FailedInWindow(h, x, start, n)
    requires start <= x.check <= x.end
    ensures start + Span(n + 1) <= x.end
    ensures !x.applies ==> Streak(h + [Attempt(x.revision, x.end, x.applies)]) >= n + 1
  {
    assert (h + [Attempt(x.revision, x.end, x.applies)])[..|h|] == h;
    if n > 0 {
      DelayGrows(n, Streak(h));
    }
  }

  /** Within a stretch of one revision that lasts W, n attempts need W to be at least the sum of the first n-1 waits. */
  lemma AttemptsNeedTime(states: seq<Retry>, histories: seq<seq<Attempt>>, instructions: seq<Instruction>, i: nat, j: nat)
    requires RetryRun(states, histories, instructions) && Timed(instructions)
    requires i < j <= |instructions| && OneRevision(instructions, i, j)
    ensures |histories[j]| >= |histories[i]|
    ensures Span(|histories[j]| - |histories[i]|) <= instructions[j - 1].end - instructions[i].check
  {
    WindowInvariant(states, histories, instructions, i, j);
  }

  lemma {:induction false} SpanFrom7(n: nat)
    requires n >= 7
    ensures Span(n) == 315000 + MAX_DELAY * (n - 7)
  {
    if n == 7 {
      assert Pow2(0) == 1 && Pow2(1) == 2 && Pow2(2) == 4 && Pow2(3) == 8 && Pow2(4) == 16 && Pow2(5) == 32;
      assert Span(3) == 15000;
      assert Span(5) == Span(3) + 20000 + 40000;
    } else {
      SpanFrom7(n - 1);
      Pow2Grows(n - 2);
    }
  }

  lemma {:induction false} Pow2Grows(k: nat)
    requires k >= 6
    ensures Pow2(k) >= 64
  {
    if k == 6 {
      assert Pow2(2) == 4 && Pow2(4) == 16;
    } else {
      Pow2Grows(k - 1);
    }
  }

  /** A stretch of one revision that lasts W milliseconds holds at most 7 + W / 300000 attempts. */
  lemma AttemptsBounded(states: seq<Retry>, histories: seq<seq<Attempt>>, instructions: seq<Instruction>, i: nat, j: nat)
    requires RetryRun(states, histories, instructions) && Timed(instructions)
    requires i < j <= |instructions| && OneRevision(instructions, i, j)
    ensures instructions[i].check <= instructions[j - 1].end
    ensures |histories[j]| - |histories[i]| <= 7 + (instructions[j - 1].end - instructions[i].check) / 300000
  {
    WindowInvariant(states, histories, instructions, i, j);
    var n := |histories[j]| - |histories[i]|;
    if n >= 7 {
      SpanFrom7(n);
    }
  }

  // ---- The loop's own code ----

  /** The package variables of the agent. */
  class Agent {
    const scanner: AuditScanner.Scanner
    var pendingAuditSnapshots: seq<Snapshot>
    var lastPolicyStatus: Option<Status>
    var policyRetryRevision: string
    var policyRetryDelay: nat
    var policyNextRetryAt: nat
    ghost var accepted: seq<seq<Snapshot>>
    ghost var collected: seq<Snapshot>
    ghost var attempts: seq<Attempt>

    ghost function QueueView(): Queue
      reads this
    {
      Queue(pendingAuditSnapshots, accepted, collected)
    }

    ghost function RetryView(): Retry
      reads this
    {
      Retry(lastPolicyStatus, policyRetryRevision, policyRetryDelay, policyNextRetryAt)
    }

    constructor ()
      ensures QueueView() == EMPTY_QUEUE && RetryView() == FIRST && attempts == []
      ensures fresh(scanner) && scanner.cursor == 0 && scanner.lastRun == None
    {
      scanner := new AuditScanner.Scanner();
      pendingAuditSnapshots, accepted, collected := [], [], [];
      lastPolicyStatus, policyRetryRevision, policyRetryDelay, policyNextRetryAt := None, "", 0, 0;
      attempts := [];
    }

    /** `sendHeartbeat`; `arrived` is appended to the queue while the panel has not answered yet. */
    method SendHeartbeat(arrived: seq<Snapshot>, ok: bool) returns (batch: seq<Snapshot>)
      modifies `pendingAuditSnapshots, `accepted, `collected
      ensures batch == NextBatch(old(pendingAuditSnapshots))
      ensures QueueView() == QueueStep(old(QueueView()), Heartbeat(arrived, ok))
    {
      batch := [];
      if |pendingAuditSnapshots| > 0 {
        var sendCount := |pendingAuditSnapshots|;
        if sendCount > BATCH {
          sendCount := BATCH;
        }
        batch := pendingAuditSnapshots[..sendCount];
      }
      pendingAuditSnapshots := pendingAuditSnapshots + arrived;
      collected := collected + arrived;
      if !ok {
        return;
      }
      accepted := accepted + [batch];
      if |pendingAuditSnapshots| > 0 {
        var sentCount := |batch|;
        if sentCount >= |pendingAuditSnapshots| {
          pendingAuditSnapshots := [];
        } else if sentCount > 0 {
          pendingAuditSnapshots := pendingAuditSnapshots[sentCount..];
        }
      }
    }

    /** `shouldApplyNetworkPolicies`. */
    method ShouldApplyNetworkPolicies(revision: string, now: nat) returns (should: bool)
      ensures should <==> ShouldApply(RetryView(), revision, now)
    {
      if lastPolicyStatus.None? || lastPolicyStatus.value.revision != revision {
        return true;
      }
      if lastPolicyStatus.value.applied {
        return false;
      }
      return !(now < policyNextRetryAt);
    }

    /** The policy half of `processInstructions`. */
    method ProcessPolicies(i: Instruction)
      modifies `lastPolicyStatus, `policyRetryRevision, `policyRetryDelay, `policyNextRetryAt, `attempts
      ensures RetryView() == RetryStep(old(RetryView()), i)
      ensures attempts == AttemptsStep(old(RetryView()), old(attempts), i)
    {
      var should := ShouldApplyNetworkPolicies(i.revision, i.check);
      if !should {
        return;
      }
      lastPolicyStatus := Some(Status(i.revision, i.applies));
      if i.applies {
        policyRetryRevision := "";
        policyRetryDelay := 0;
        policyNextRetryAt := 0;
      } else {
        if policyRetryRevision != i.revision {
          policyRetryRevision := i.revision;
          policyRetryDelay := INITIAL_DELAY;
        } else if policyRetryDelay <= 0 {
          policyRetryDelay := INITIAL_DELAY;
        }
        policyNextRetryAt := i.end + policyRetryDelay;
        policyRetryDelay := policyRetryDelay * 2;
        if policyRetryDelay > MAX_DELAY {
          policyRetryDelay := MAX_DELAY;
        }
      }
      attempts := attempts + [Attempt(i.revision, i.end, i.applies)];
    }

    /** The audit half of `processInstructions`: what a scan finds joins the end of the queue. */
    method ProcessMonitoring(
      config: AuditScanner.Monitoring, rows: seq<AuditScanner.Row>, scanOne: AuditScanner.Row -> Snapshot, now: int, done: int)
      returns (found: seq<Snapshot>)
      modifies `pendingAuditSnapshots, `collected, scanner
      ensures QueueView() == QueueStep(old(QueueView()), Scanned(found))
      ensures if config.enabled && AuditScanner.Due(config, old(scanner.lastRun), now) && rows != [] then
                AuditScanner.ScansFrom(rows, AuditScanner.Start(old(scanner.cursor), |rows|), AuditScanner.Clamp(config.batchSize),
                                       scanOne, found, scanner.cursor) && scanner.lastRun == Some(done)
              else
                found == [] && scanner.cursor == old(scanner.cursor) && scanner.lastRun == old(scanner.lastRun)
    {
      found := [];
      if config.enabled {
        found := scanner.Scan(config, rows, scanOne, now, done);
        if |found| > 0 {
          pendingAuditSnapshots := pendingAuditSnapshots + found;
          collected := collected + found;
        }
      }
    }
  }
}
