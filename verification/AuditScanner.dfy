/** The round-robin audit scanner of the host agent. */
module AuditScanner {
  import opened Text

  datatype Row = Row(name: string, status: string, kind: string)

  /** The status as `strings.EqualFold` compares it. */
  predicate Running(row: Row) {
    AsciiLower(row.status) == "running"
  }

  /** What a scan of one instance yields; the commands it runs inside the instance are not part of this model. */
  datatype Snapshot = Snapshot(incusId: string, report: string)

  datatype Monitoring = Monitoring(enabled: bool, force: bool, intervalSeconds: int, batchSize: int)

  const SECOND: int := 1_000_000_000

  function Clamp(batch: int): (b: nat)
    ensures 1 <= b <= 32
  {
    if batch < 1 then 1 else if batch > 32 then 32 else batch
  }

  /** The interval has passed, or a scan is forced. */
  predicate Due(config: Monitoring, lastRun: Option<int>, now: int) {
    && (config.enabled || config.force)
    && (config.force || lastRun.None? || now - lastRun.value >= config.intervalSeconds * SECOND)
  }

  /** The batch size is the number from 1 to 32 that is nearest to the configured one. */
  lemma ClampIsNearest(batch: int, x: int)
    requires 1 <= x <= 32
    ensures 1 <= Clamp(batch) <= 32
    ensures if batch <= x then Clamp(batch) <= x else Clamp(batch) >= x
    ensures batch == x ==> Clamp(batch) == x
  {
  }

  /** A forced scan is always due; another one only when scanning is enabled and the interval, in seconds, is over. */
  lemma WhenDue(config: Monitoring, lastRun: Option<int>, now: int)
    ensures config.force ==> Due(config, lastRun, now)
    ensures !config.force ==>
      (Due(config, lastRun, now) <==> config.enabled && (lastRun.Some? ==> now >= lastRun.value + config.intervalSeconds * 1_000_000_000))
  {
  }

  /** A cursor left over from a longer list starts again at the front. */
  function Start(cursor: nat, n: nat): nat {
    if cursor >= n then 0 else cursor
  }

  /** The rows in the order in which a scan visits them. */
  function Rotation(rows: seq<Row>, cursor: nat): (r: seq<Row>)
    requires cursor <= |rows|
    ensures |r| == |rows|
  {
    rows[cursor..] + rows[..cursor]
  }

  /** The row that stands `k` places after the cursor, counting on at the front after the last row. */
  function Place(cursor: nat, k: nat, n: nat): (i: nat)
    requires cursor < n && k < n
    ensures i < n
  {
    if cursor + k < n then cursor + k else cursor + k - n
  }

  lemma PlaceIsMod(cursor: nat, k: nat, n: nat)
    requires cursor < n && k < n
    ensures (cursor + k) % n == Place(cursor, k, n)
  {
    if cursor + k >= n {
      ModWrap(cursor + k - n, n);
    }
  }

  lemma ModWrap(x: nat, n: nat)
    requires x < n
    ensures (x + n) % n == x
  {
  }

  /** The places of the running rows, in order. */
  function RunningIn(rows: seq<Row>): seq<nat> {
    if rows == [] then []
    else RunningIn(rows[..|rows| - 1]) + if Running(rows[|rows| - 1]) then [|rows| - 1] else []
  }

  function FirstOf<T>(s: seq<T>, b: nat): seq<T> {
    if |s| <= b then s else s[..b]
  }

  /** How far into the rotation the picked rows stand: the first b running ones. */
  function PickedOffsets(rows: seq<Row>, cursor: nat, b: nat): seq<nat>
    requires cursor <= |rows|
  {
    FirstOf(RunningIn(Rotation(rows, cursor)), b)
  }

  ghost predicate Reports(rows: seq<Row>, cursor: nat, offsets: seq<nat>, scanOne: Row -> Snapshot, result: seq<Snapshot>)
    requires cursor < |rows|
  {
    && |result| == |offsets|
    && forall k :: 0 <= k < |offsets| ==> offsets[k] < |rows| && result[k] == scanOne(rows[Place(cursor, offsets[k], |rows|)])
  }

  /** The picked rows are reported, and the cursor moves on by the batch size whatever was skipped. */
  ghost predicate ScansFrom(rows: seq<Row>, cursor: nat, b: nat, scanOne: Row -> Snapshot, result: seq<Snapshot>, next: nat)
    requires cursor < |rows|
  {
    Reports(rows, cursor, PickedOffsets(rows, cursor, b), scanOne, result) && next == (cursor + b) % |rows|
  }

  /** The loop of `Scan`: round the list once, or until the batch is full. */
  method ScanBatch(rows: seq<Row>, cursor: nat, batch: nat, scanOne: Row -> Snapshot) returns (result: seq<Snapshot>)
    requires cursor < |rows|
    ensures Reports(rows, cursor, PickedOffsets(rows, cursor, batch), scanOne, result)
  {
    result := [];
    ghost var order := Rotation(rows, cursor);
    var checked := 0;
    while checked < |rows| && |result| < batch
      invariant checked <= |rows| && |result| <= batch
      invariant Reports(rows, cursor, RunningIn(order[..checked]), scanOne, result)
    {
      VisitStep(rows, cursor, checked);
      PlaceIsMod(cursor, checked, |rows|);
      var row := rows[(cursor + checked) % |rows|];
      if Running(row) {
        result := result + [scanOne(row)];
      }
      checked := checked + 1;
    }
    PrefixPicks(order, checked, batch);
    assert checked == |rows| ==> order[..checked] == order;
  }

  class Scanner {
    var cursor: nat
    var lastRun: Option<int>

    constructor ()
      ensures cursor == 0 && lastRun == None
    {
      cursor, lastRun := 0, None;
    }

    /** `Scan`; `now` and `done` are the clock readings at its beginning and end. */
    method Scan(config: Monitoring, rows: seq<Row>, scanOne: Row -> Snapshot, now: int, done: int) returns (result: seq<Snapshot>)
      modifies this
      ensures if Due(config, old(lastRun), now) && rows != [] then
                ScansFrom(rows, Start(old(cursor), |rows|), Clamp(config.batchSize), scanOne, result, cursor) && lastRun == Some(done)
              else
                result == [] && cursor == old(cursor) && lastRun == old(lastRun)
    {
      if (!config.enabled && !config.force) ||
         (!config.force && lastRun.Some? && now - lastRun.value < config.intervalSeconds * SECOND) {
        return [];
      }
      if |rows| == 0 {
        return [];
      }
      var batch := config.batchSize;
      if batch < 1 {
        batch := 1;
      }
      if batch > 32 {
        batch := 32;
      }
      if cursor >= |rows| {
        cursor := 0;
      }
      result := ScanBatch(rows, cursor, batch, scanOne);
      cursor := (cursor + batch) % |rows|;
      lastRun := Some(done);
    }
  }

  lemma VisitStep(rows: seq<Row>, cursor: nat, checked: nat)
    requires cursor < |rows| && checked < |rows|
    ensures var order := Rotation(rows, cursor);
            order[checked] == rows[Place(cursor, checked, |rows|)] &&
            RunningIn(order[..checked + 1]) == RunningIn(order[..checked]) + if Running(order[checked]) then [checked] else []
  {
    var order := Rotation(rows, cursor);
    assert order[..checked + 1][..checked] == order[..checked];
  }

  /** What the first part of the rows contributes stays at the front. */
  lemma {:induction false} PrefixPicks(rows: seq<Row>, k: nat, b: nat)
    requires k <= |rows|
    ensures RunningIn(rows[..k]) <= RunningIn(rows)
    ensures |RunningIn(rows[..k])| == b ==> FirstOf(RunningIn(rows), b) == RunningIn(rows[..k])
  {
    if k < |rows| {
      var init := rows[..|rows| - 1];
      PrefixPicks(init, k, b);
      assert init[..k] == rows[..k];
    } else {
      assert rows[..k] == rows;
    }
  }

  // ---- Each scan ----

  lemma {:induction false} RunningPlaces(rows: seq<Row>)
    ensures var places := RunningIn(rows);
            (forall k :: 0 <= k < |places| ==> k <= places[k] < |rows| && Running(rows[places[k]])) &&
            (forall k, l :: 0 <= k < l < |places| ==> places[k] < places[l])
    ensures |RunningIn(rows)| <= |rows|
  {
    if rows != [] {
      RunningPlaces(rows[..|rows| - 1]);
    }
  }

  lemma {:induction false} RunningListed(rows: seq<Row>, i: nat) returns (k: nat)
    requires i < |rows| && Running(rows[i])
    ensures k < |RunningIn(rows)| && RunningIn(rows)[k] == i && k <= i
  {
    if i < |rows| - 1 {
      k := RunningListed(rows[..|rows| - 1], i);
    } else {
      k := |RunningIn(rows)| - 1;
      RunningPlaces(rows[..|rows| - 1]);
    }
  }

  lemma {:induction false} RunningAppend(a: seq<Row>, b: seq<Row>)
    ensures |RunningIn(a + b)| == |RunningIn(a)| + |RunningIn(b)|
  {
    if b == [] {
      assert a + b == a;
    } else {
      RunningAppend(a, b[..|b| - 1]);
      assert (a + b)[..|a + b| - 1] == a + b[..|b| - 1];
    }
  }

  lemma RotationRunning(rows: seq<Row>, cursor: nat)
    requires cursor <= |rows|
    ensures |RunningIn(Rotation(rows, cursor))| == |RunningIn(rows)|
  {
    RunningAppend(rows[cursor..], rows[..cursor]);
    RunningAppend(rows[..cursor], rows[cursor..]);
    assert rows[..cursor] + rows[cursor..] == rows;
  }

  /** A scan yields min(b, number running) rows, all running and no two the same, in cyclic order from the cursor. */
  lemma EachScan(rows: seq<Row>, cursor: nat, b: nat)
    requires cursor < |rows|
    ensures var picked, n := PickedOffsets(rows, cursor, b), |rows|;
            && |picked| == (if b < |RunningIn(rows)| then b else |RunningIn(rows)|)
            && (forall k :: 0 <= k < |picked| ==> picked[k] < n && Running(rows[Place(cursor, picked[k], n)]))
            && (forall k, l :: 0 <= k < l < |picked| ==>
                  picked[k] < picked[l] && Place(cursor, picked[k], n) != Place(cursor, picked[l], n))
  {
    RunningPlaces(Rotation(rows, cursor));
    RotationRunning(rows, cursor);
    var picked := PickedOffsets(rows, cursor, b);
    forall k | 0 <= k < |picked|
      ensures Running(rows[Place(cursor, picked[k], |rows|)])
    {
      VisitStep(rows, cursor, picked[k]);
    }
  }

  // ---- Fairness ----

  /** Row i is among those that a scan from the cursor reports. */
  predicate Picks(rows: seq<Row>, cursor: nat, b: nat, i: nat)
    requires cursor < |rows|
  {
    var picked := PickedOffsets(rows, cursor, b);
    exists k :: 0 <= k < |picked| && picked[k] < |rows| && Place(cursor, picked[k], |rows|) == i
  }

  /** The cursor at the start of each of some consecutive effective scans of one list. */
  ghost predicate ScanRun(n: nat, b: nat, cursors: seq<nat>)
    requires n > 0
  {
    forall j :: 0 <= j < |cursors| - 1 ==> cursors[j + 1] == (Start(cursors[j], n) + b) % n
  }

  /** How far row i lies ahead of the cursor. */
  function Ahead(i: nat, cursor: nat, n: nat): nat
    requires i < n && cursor < n
  {
    if i >= cursor then i - cursor else i + n - cursor
  }

  lemma PicksNear(rows: seq<Row>, cursor: nat, b: nat, i: nat)
    requires cursor < |rows| && i < |rows| && Running(rows[i]) && Ahead(i, cursor, |rows|) < b
    ensures Picks(rows, cursor, b, i)
  {
    var d, order := Ahead(i, cursor, |rows|), Rotation(rows, cursor);
    VisitStep(rows, cursor, d);
    assert Place(cursor, d, |rows|) == i;
    var k := RunningListed(order, d);
    assert PickedOffsets(rows, cursor, b)[k] == d;
  }

  lemma AheadShrinks(i: nat, cursor: nat, n: nat, b: nat)
    requires i < n && cursor < n && b <= Ahead(i, cursor, n)
    ensures Ahead(i, (cursor + b) % n, n) == Ahead(i, cursor, n) - b
  {
    PlaceIsMod(cursor, b, n);
  }

  /** The list at each scan: its length stays, and row i runs. */
  ghost predicate KeepsRunning(rowsAt: seq<seq<Row>>, n: nat, i: nat) {
    i < n && forall k :: 0 <= k < |rowsAt| ==> |rowsAt[k]| == n && Running(rowsAt[k][i])
  }

  lemma {:induction false} PickedWithin(rowsAt: seq<seq<Row>>, n: nat, b: nat, cursors: seq<nat>, i: nat, m: nat) returns (j: nat)
    requires 1 <= b && KeepsRunning(rowsAt, n, i) && |rowsAt| == |cursors|
    requires ScanRun(n, b, cursors) && m <= |cursors| && cursors != []
    requires Ahead(i, Start(cursors[0], n), n) < m * b
    ensures j < m && Picks(rowsAt[j], Start(cursors[j], n), b, i)
    decreases m
  {
    var c := Start(cursors[0], n);
    var d := Ahead(i, c, n);
    if d < b {
      PicksNear(rowsAt[0], c, b, i);
      j := 0;
    } else {
      AheadShrinks(i, c, n, b);
      assert m * b == b + (m - 1) * b;
      assert m > 1;
      assert cursors[1] == cursors[0 + 1] == (c + b) % n;
      forall l | 0 <= l < |cursors[1..]| - 1
        ensures cursors[1..][l + 1] == (Start(cursors[1..][l], n) + b) % n
      {
        assert cursors[l + 1 + 1] == (Start(cursors[l + 1], n) + b) % n;
      }
      j := PickedWithin(rowsAt[1..], n, b, cursors[1..], i, m - 1);
      j := j + 1;
    }
  }

  /**
   * From any cursor, a row that runs is scanned within any ceil(n/b) consecutive effective scans of n rows, whatever
   * the other rows do from scan to scan.
   */
  lemma Fairness(rowsAt: seq<seq<Row>>, n: nat, batch: int, cursors: seq<nat>, i: nat)
    requires KeepsRunning(rowsAt, n, i)
    requires ScanRun(n, Clamp(batch), cursors) && |rowsAt| == |cursors| == (n + Clamp(batch) - 1) / Clamp(batch)
    ensures exists j :: 0 <= j < |cursors| && Picks(rowsAt[j], Start(cursors[j], n), Clamp(batch), i)
  {
    var b := Clamp(batch);
    var m := (n + b - 1) / b;
    assert n <= m * b && m > 0;
    var j := PickedWithin(rowsAt, n, b, cursors, i, m);
  }

  /** Consecutive effective scans, as `Scan` promises them: `cursors` has the cursor before each and after the last. */
  ghost predicate Scans(rowsAt: seq<seq<Row>>, n: nat, b: nat, scanOne: Row -> Snapshot, results: seq<seq<Snapshot>>, cursors: seq<nat>)
    requires n > 0
  {
    && |rowsAt| == |results| && |cursors| == |results| + 1
    && forall j :: 0 <= j < |results| ==>
      |rowsAt[j]| == n && ScansFrom(rowsAt[j], Start(cursors[j], n), b, scanOne, results[j], cursors[j + 1])
  }

  /** The same of what the scans report: the snapshot of the row is in one of the results. */
  lemma FairReports(
    rowsAt: seq<seq<Row>>, n: nat, batch: int, scanOne: Row -> Snapshot, results: seq<seq<Snapshot>>, cursors: seq<nat>, i: nat)
    requires KeepsRunning(rowsAt, n, i) && Scans(rowsAt, n, Clamp(batch), scanOne, results, cursors)
    requires |results| == (n + Clamp(batch) - 1) / Clamp(batch)
    ensures exists j :: 0 <= j < |results| && scanOne(rowsAt[j][i]) in results[j]
  {
    var b, starts := Clamp(batch), cursors[..|results|];
    forall j | 0 <= j < |starts| - 1
      ensures starts[j + 1] == (Start(starts[j], n) + b) % n
    {
      assert ScansFrom(rowsAt[j], Start(cursors[j], n), b, scanOne, results[j], cursors[j + 1]);
    }
    Fairness(rowsAt, n, batch, starts, i);
    var j :| 0 <= j < |starts| && Picks(rowsAt[j], Start(starts[j], n), b, i);
    assert ScansFrom(rowsAt[j], Start(cursors[j], n), b, scanOne, results[j], cursors[j + 1]);
    PickedIsReported(rowsAt[j], Start(cursors[j], n), b, scanOne, results[j], i);
  }

  lemma PickedIsReported(rows: seq<Row>, cursor: nat, b: nat, scanOne: Row -> Snapshot, result: seq<Snapshot>, i: nat)
    requires cursor < |rows| && i < |rows| && Picks(rows, cursor, b, i)
    requires Reports(rows, cursor, PickedOffsets(rows, cursor, b), scanOne, result)
    ensures scanOne(rows[i]) in result
  {
    var picked := PickedOffsets(rows, cursor, b);
    var k :| 0 <= k < |picked| && picked[k] < |rows| && Place(cursor, picked[k], |rows|) == i;
    assert result[k] == scanOne(rows[i]);
  }
}
