/** The instance report of the host agent: its pool of workers, and the traffic it bills. */
module IncusReport {
  import opened Text
  import opened Decimal

  // ---- The worker pool ----

  const MAX_REPORTED: nat := 1000
  const CONCURRENCY: nat := 8

  /** Where the goroutine of one instance stands; the deferred calls run last in, first out. */
  datatype Worker = NotStarted | Waiting | Holding | Written | Released | Finished
  {
    predicate HoldsSlot() {
      Holding? || Written?
    }

    predicate Counted() {
      !NotStarted? && !Finished?
    }

    predicate HasWritten() {
      Written? || Released? || Finished?
    }

    function StepsLeft(): nat {
      match this
      case NotStarted => 5 case Waiting => 4 case Holding => 3 case Written => 2 case Released => 1 case Finished => 0
    }
  }

  /** The semaphore's fill, the wait group's count, and the slots of the result. */
  datatype Pool<T> = Pool(workers: seq<Worker>, semaphore: nat, waitGroup: nat, items: seq<Option<T>>)

  function Reported(instances: nat): nat {
    if instances > MAX_REPORTED then MAX_REPORTED else instances
  }

  function NewPool<T>(n: nat): Pool<T> {
    Pool(seq(n, i => NotStarted), 0, 0, seq(n, i => None))
  }

  predicate CanStep<T>(p: Pool<T>, i: nat) {
    i < |p.workers| == |p.items| &&
    match p.workers[i]
    case NotStarted => i == 0 || !p.workers[i - 1].NotStarted?  // the loop starts them in order
    case Waiting => p.semaphore < CONCURRENCY
    case Holding => true
    case Written => p.semaphore > 0
    case Released => p.waitGroup > 0
    case Finished => false
  }

  /** The next step of the goroutine of instance i, or the start of it by the loop. */
  function StepPool<T>(p: Pool<T>, report: nat -> T, i: nat): Pool<T>
    requires CanStep(p, i)
  {
    match p.workers[i]
    case NotStarted => p.(workers := p.workers[i := Waiting], waitGroup := p.waitGroup + 1)
    case Waiting => p.(workers := p.workers[i := Holding], semaphore := p.semaphore + 1)
    case Holding => p.(workers := p.workers[i := Written], items := p.items[i := Some(report(i))])
    case Written => p.(workers := p.workers[i := Released], semaphore := p.semaphore - 1)
    case Released => p.(workers := p.workers[i := Finished], waitGroup := p.waitGroup - 1)
  }

  /** The loop is over and `wg.Wait()` returns. */
  predicate Returns<T>(p: Pool<T>) {
    (forall i :: 0 <= i < |p.workers| ==> !p.workers[i].NotStarted?) && p.waitGroup == 0
  }

  function CountWorkers(workers: seq<Worker>, f: Worker -> bool): nat {
    if workers == [] then 0
    else CountWorkers(workers[..|workers| - 1], f) + if f(workers[|workers| - 1]) then 1 else 0
  }

  function StepsLeft(workers: seq<Worker>): nat {
    if workers == [] then 0 else StepsLeft(workers[..|workers| - 1]) + workers[|workers| - 1].StepsLeft()
  }

  const HOLDS_SLOT: Worker -> bool := (w: Worker) => w.HoldsSlot()
  const COUNTED: Worker -> bool := (w: Worker) => w.Counted()

  ghost predicate PoolOk<T(!new)>(p: Pool<T>, report: nat -> T) {
    && |p.items| == |p.workers|
    && p.semaphore == CountWorkers(p.workers, HOLDS_SLOT) && p.semaphore <= CONCURRENCY
    && p.waitGroup == CountWorkers(p.workers, COUNTED)
    && (forall i :: 0 < i < |p.workers| && p.workers[i - 1].NotStarted? ==> p.workers[i].NotStarted?)
    && (forall i :: 0 <= i < |p.workers| ==> p.items[i] == if p.workers[i].HasWritten() then Some(report(i)) else None)
  }

  lemma {:induction false} CountUpdate(workers: seq<Worker>, f: Worker -> bool, i: nat, w: Worker)
    requires i < |workers|
    ensures CountWorkers(workers[i := w], f) + (if f(workers[i]) then 1 else 0)
         == CountWorkers(workers, f) + if f(w) then 1 else 0
  {
    var init := workers[..|workers| - 1];
    if i < |init| {
      CountUpdate(init, f, i, w);
      assert workers[i := w][..|workers| - 1] == init[i := w];
    } else {
      assert workers[i := w][..|workers| - 1] == init;
    }
  }

  lemma {:induction false} StepsUpdate(workers: seq<Worker>, i: nat, w: Worker)
    requires i < |workers|
    ensures StepsLeft(workers[i := w]) + workers[i].StepsLeft() == StepsLeft(workers) + w.StepsLeft()
  {
    var init := workers[..|workers| - 1];
    if i < |init| {
      StepsUpdate(init, i, w);
      assert workers[i := w][..|workers| - 1] == init[i := w];
    } else {
      assert workers[i := w][..|workers| - 1] == init;
    }
  }

  lemma StepKeepsSlots<T(!new)>(p: Pool<T>, report: nat -> T, i: nat)
    requires PoolOk(p, report) && CanStep(p, i)
    ensures var p' := StepPool(p, report, i);
            && |p'.items| == |p'.workers|
            && (forall i :: 0 < i < |p'.workers| && p'.workers[i - 1].NotStarted? ==> p'.workers[i].NotStarted?)
            && (forall i :: 0 <= i < |p'.workers| ==> p'.items[i] == if p'.workers[i].HasWritten() then Some(report(i)) else None)
  {
  }

  lemma StepKeepsCounts<T(!new)>(p: Pool<T>, report: nat -> T, i: nat)
    requires PoolOk(p, report) && CanStep(p, i)
    ensures var p' := StepPool(p, report, i);
            && p'.semaphore == CountWorkers(p'.workers, HOLDS_SLOT) && p'.semaphore <= CONCURRENCY
            && p'.waitGroup == CountWorkers(p'.workers, COUNTED)
    ensures StepsLeft(StepPool(p, report, i).workers) == StepsLeft(p.workers) - 1
  {
    var w := StepPool(p, report, i).workers[i];
    assert StepPool(p, report, i).workers == p.workers[i := w];
    CountUpdate(p.workers, HOLDS_SLOT, i, w);
    CountUpdate(p.workers, COUNTED, i, w);
    StepsUpdate(p.workers, i, w);
  }

  lemma StepKeepsPool<T(!new)>(p: Pool<T>, report: nat -> T, i: nat)
    requires PoolOk(p, report) && CanStep(p, i)
    ensures PoolOk(StepPool(p, report, i), report)
    ensures StepsLeft(StepPool(p, report, i).workers) == StepsLeft(p.workers) - 1
  {
    StepKeepsSlots(p, report, i);
    StepKeepsCounts(p, report, i);
  }

  lemma {:induction false} CountWitness(workers: seq<Worker>, f: Worker -> bool) returns (i: nat)
    requires CountWorkers(workers, f) > 0
    ensures i < |workers| && f(workers[i])
  {
    var init := workers[..|workers| - 1];
    if f(workers[|workers| - 1]) {
      i := |workers| - 1;
    } else {
      i := CountWitness(init, f);
    }
  }

  lemma {:induction false} CountedWorker(workers: seq<Worker>, f: Worker -> bool, i: nat)
    requires i < |workers| && f(workers[i])
    ensures CountWorkers(workers, f) > 0
  {
    if i < |workers| - 1 {
      CountedWorker(workers[..|workers| - 1], f, i);
    }
  }

  lemma {:induction false} NewPoolOk<T(!new)>(n: nat, report: nat -> T)
    ensures PoolOk(NewPool<T>(n), report) && StepsLeft(NewPool<T>(n).workers) == 5 * n
  {
    if n > 0 {
      NewPoolOk<T>(n - 1, report);
      assert NewPool<T>(n).workers[..n - 1] == NewPool<T>(n - 1).workers;
    }
  }

  ghost predicate PoolRun<T(!new)>(n: nat, report: nat -> T, pools: seq<Pool<T>>, steps: seq<nat>) {
    && |pools| == |steps| + 1 && pools[0] == NewPool(n)
    && forall k :: 0 <= k < |steps| ==> CanStep(pools[k], steps[k]) && pools[k + 1] == StepPool(pools[k], report, steps[k])
  }

  lemma {:induction false} RunKeepsPool<T(!new)>(n: nat, report: nat -> T, pools: seq<Pool<T>>, steps: seq<nat>, k: nat)
    requires PoolRun(n, report, pools, steps) && k < |pools|
    ensures PoolOk(pools[k], report) && |pools[k].workers| == n && StepsLeft(pools[k].workers) + k == 5 * n
  {
    if k == 0 {
      NewPoolOk<T>(n, report);
    } else {
      RunKeepsPool(n, report, pools, steps, k - 1);
      assert pools[k - 1 + 1] == StepPool(pools[k - 1], report, steps[k - 1]);
      StepKeepsPool(pools[k - 1], report, steps[k - 1]);
    }
  }

  /** In every interleaving at most eight workers hold the semaphore at once. */
  lemma AtMostEight<T(!new)>(n: nat, report: nat -> T, pools: seq<Pool<T>>, steps: seq<nat>, k: nat)
    requires PoolRun(n, report, pools, steps) && k < |pools|
    ensures CountWorkers(pools[k].workers, HOLDS_SLOT) <= 8
  {
    RunKeepsPool(n, report, pools, steps, k);
  }

  /** No reachable state is stuck: until the wait returns, somebody can go on. */
  lemma NeverStuck<T(!new)>(n: nat, report: nat -> T, pools: seq<Pool<T>>, steps: seq<nat>, k: nat) returns (i: nat)
    requires PoolRun(n, report, pools, steps) && k < |pools| && !Returns(pools[k])
    ensures CanStep(pools[k], i)
  {
    RunKeepsPool(n, report, pools, steps, k);
    var p := pools[k];
    if j :| 0 <= j < |p.workers| && p.workers[j].NotStarted? {
      i := j;
      while i > 0 && p.workers[i - 1].NotStarted?
        invariant 0 <= i <= j && p.workers[i].NotStarted?
      {
        i := i - 1;
      }
    } else {
      i := CountWitness(p.workers, COUNTED);
      if p.workers[i].Waiting? && p.semaphore >= CONCURRENCY {
        i := CountWitness(p.workers, HOLDS_SLOT);
      }
      if p.workers[i].Written? {
        CountedWorker(p.workers, HOLDS_SLOT, i);
      }
      if p.workers[i].Released? {
        CountedWorker(p.workers, COUNTED, i);
      }
    }
  }

  /** When the wait returns, which is after exactly five steps for each instance, slot i holds the report of instance i. */
  lemma EverySlotFilled<T(!new)>(instances: nat, report: nat -> T, pools: seq<Pool<T>>, steps: seq<nat>, k: nat)
    requires PoolRun(Reported(instances), report, pools, steps) && k < |pools|
    ensures var n := if instances < 1000 then instances else 1000;
            && (Returns(pools[k]) <==> k == 5 * n)
            && (Returns(pools[k]) ==> |Normalized(pools[k].items)| == n && forall i :: 0 <= i < n ==> Normalized(pools[k].items)[i] == report(i))
  {
    var n := Reported(instances);
    RunKeepsPool(n, report, pools, steps, k);
    var p := pools[k];
    if Returns(p) {
      forall i | 0 <= i < n
        ensures p.workers[i].Finished?
      {
        if p.workers[i].Counted() {
          CountedWorker(p.workers, COUNTED, i);
        }
      }
      NoStepsLeft(p.workers);
      NormalizedFull(p.items, report);
    } else {
      var i := NeverStuck(n, report, pools, steps, k);
      StepKeepsPool(p, report, i);
    }
  }

  /** The items that are there, in order. */
  function Normalized<T>(items: seq<Option<T>>): seq<T> {
    if items == [] then []
    else Normalized(items[..|items| - 1]) + match items[|items| - 1] case Some(item) => [item] case None => []
  }

  lemma {:induction false} NormalizedFull<T>(items: seq<Option<T>>, report: nat -> T)
    requires forall i :: 0 <= i < |items| ==> items[i] == Some(report(i))
    ensures |Normalized(items)| == |items| && forall i :: 0 <= i < |items| ==> Normalized(items)[i] == report(i)
  {
    if items != [] {
      NormalizedFull(items[..|items| - 1], report);
    }
  }

  /** The loop after the wait. */
  method NormalizeItems<T>(items: seq<Option<T>>) returns (normalized: seq<T>)
    ensures normalized == Normalized(items)
  {
    normalized := [];
    for i := 0 to |items|
      invariant normalized == Normalized(items[..i])
    {
      assert items[..i + 1][..i] == items[..i];
      if items[i].Some? {
        normalized := normalized + [items[i].value];
      }
    }
    assert items[..|items|] == items;
  }

  lemma {:induction false} NoStepsLeft(workers: seq<Worker>)
    requires forall i :: 0 <= i < |workers| ==> workers[i].Finished?
    ensures StepsLeft(workers) == 0
  {
    if workers != [] {
      NoStepsLeft(workers[..|workers| - 1]);
    }
  }

  // ---- Traffic ----

  /** What Incus reports of one interface; the counters are the texts of JSON numbers. */
  datatype Device = Device(hwaddr: string, received: string, sent: string)

  type Network = map<string, Device>

  datatype Counters = Counters(rx: nat, tx: nat)

  /** `jsonNumberToUint64`. */
  function Uint64(text: string): (v: nat)
    ensures v < TWO_TO_64
  {
    var raw := TrimSpace(text);
    var parsed := ParseUint64(raw);
    if raw == "" || parsed.None? then 0 else parsed.value
  }

  predicate LowerAlnum(c: char) {
    IsDigit(c) || 'a' <= c <= 'z'
  }

  /** `isLikelyExternalGuestInterface`: eth and a number, or a systemd name of one of four kinds. */
  predicate LooksExternal(name: string) {
    var n := ToLower(name);
    || (|n| > 3 && n[..3] == "eth" && AllDigits(n[3..]))
    || (|n| > 3 && n[..2] == "en" && n[2] in {'o', 'p', 's', 'x'} && forall i :: 3 <= i < |n| ==> LowerAlnum(n[i]))
  }

  /** `isBillableNetworkInterface`; `macs` are the addresses generated for the instance's own interfaces. */
  predicate Billable(name: string, d: Device, macs: set<string>) {
    && name != "lo"
    && (name == "eth0" || name == "eth1" ||
        (ToLower(TrimSpace(d.hwaddr)) != "" && ToLower(TrimSpace(d.hwaddr)) in macs))
  }

  function StrictNames(network: Network, macs: set<string>): set<string> {
    set name | name in network && Billable(name, network[name], macs)
  }

  function ExternalNames(network: Network): set<string> {
    set name | name in network && LooksExternal(name)
  }

  /** The interfaces that are billed: the strict ones if there are any, otherwise those that look external. */
  function BilledNames(network: Network, macs: set<string>): set<string> {
    if StrictNames(network, macs) != {} then StrictNames(network, macs) else ExternalNames(network)
  }

  function Traffic(d: Device, rx: bool): nat {
    Uint64(if rx then d.received else d.sent)
  }

  /** The sum over a set of interfaces, each once. */
  ghost function Total(network: Network, names: set<string>, rx: bool): nat
    requires names <= network.Keys
  {
    if names == {} then 0
    else
      var name :| name in names;
      Traffic(network[name], rx) + Total(network, names - {name}, rx)
  }

  /** It does not matter which interface is taken first. */
  lemma {:induction false} TotalWithout(network: Network, names: set<string>, name: string, rx: bool)
    requires names <= network.Keys && name in names
    ensures Total(network, names, rx)
         == Total(network, names - {name}, rx) + if rx then Uint64(network[name].received) else Uint64(network[name].sent)
  {
    var first :| first in names && Total(network, names, rx) == Traffic(network[first], rx) + Total(network, names - {first}, rx);
    assert Traffic(network[first], rx) == if rx then Uint64(network[first].received) else Uint64(network[first].sent);
    if first != name {
      TotalWithout(network, names - {first}, name, rx);
      TotalWithout(network, names - {name}, first, rx);
      assert names - {first} - {name} == names - {name} - {first};
    }
  }

  lemma TotalWith(network: Network, names: set<string>, name: string, rx: bool)
    requires names <= network.Keys && name in network && name !in names
    ensures Total(network, names + {name}, rx) == Total(network, names, rx) + Traffic(network[name], rx)
  {
    TotalWithout(network, names + {name}, name, rx);
    assert names + {name} - {name} == names;
  }

  /** What a 64-bit counter shows. */
  function Wrap(n: nat): nat {
    n % TWO_TO_64
  }

  lemma WrapAdd(a: nat, b: nat)
    ensures Wrap(Wrap(a) + b) == Wrap(a + b)
  {
    assert a == TWO_TO_64 * (a / TWO_TO_64) + Wrap(a);
  }

  /** `addNetworkCounters`: addition of 64-bit numbers. */
  function AddCounters(totals: Counters, d: Device): Counters {
    Counters(Wrap(totals.rx + Traffic(d, true)), Wrap(totals.tx + Traffic(d, false)))
  }

  /** A 64-bit counter shows the sum over these interfaces. */
  ghost predicate Shows(counter: nat, network: Network, names: set<string>, rx: bool)
    requires names <= network.Keys
  {
    counter == Wrap(Total(network, names, rx))
  }

  ghost predicate Sums(totals: Counters, network: Network, names: set<string>)
    requires names <= network.Keys
  {
    Shows(totals.rx, network, names, true) && Shows(totals.tx, network, names, false)
  }

  lemma OneSumKept(counter: nat, network: Network, names: set<string>, name: string, rx: bool)
    requires names <= network.Keys && name in network && name !in names && Shows(counter, network, names, rx)
    ensures Shows(Wrap(counter + Traffic(network[name], rx)), network, names + {name}, rx)
  {
    TotalWith(network, names, name, rx);
    WrapAdd(Total(network, names, rx), Traffic(network[name], rx));
  }

  lemma AddKeepsSum(totals: Counters, network: Network, names: set<string>, name: string)
    requires names <= network.Keys && name in network && name !in names && Sums(totals, network, names)
    ensures Sums(AddCounters(totals, network[name]), network, names + {name})
  {
    OneSumKept(totals.rx, network, names, name, true);
    OneSumKept(totals.tx, network, names, name, false);
  }

  /** The fallback list holds the devices of these interfaces. */
  ghost predicate Devices(network: Network, names: seq<string>, devices: seq<Device>) {
    && |devices| == |names|
    && (forall i :: 0 <= i < |names| ==> names[i] in network && devices[i] == network[names[i]])
    && (forall i, j :: 0 <= i < j < |names| ==> names[i] != names[j])
  }

  function Elements(names: seq<string>): set<string> {
    set x | x in names
  }

  /** The walk so far: `left` are the interfaces that have not been visited. */
  ghost predicate Walked(network: Network, macs: set<string>, left: set<string>,
                         totals: Counters, hasStrict: bool, names: seq<string>, fallback: seq<Device>) {
    && left <= network.Keys
    && (hasStrict <==> StrictNames(network, macs) - left != {})
    && Sums(totals, network, StrictNames(network, macs) - left)
    && Devices(network, names, fallback)
    && Elements(names) == ExternalNames(network) - StrictNames(network, macs) - left
  }

  lemma WalkStrict(network: Network, macs: set<string>, left: set<string>,
                   totals: Counters, hasStrict: bool, names: seq<string>, fallback: seq<Device>, name: string)
    requires Walked(network, macs, left, totals, hasStrict, names, fallback)
    requires name in left && Billable(name, network[name], macs)
    ensures Walked(network, macs, left - {name}, AddCounters(totals, network[name]), true, names, fallback)
  {
    var strict := StrictNames(network, macs);
    assert strict - left + {name} == strict - (left - {name});
    assert Sums(AddCounters(totals, network[name]), network, strict - (left - {name})) by {
      AddKeepsSum(totals, network, strict - left, name);
    }
    assert name in strict - (left - {name});
    assert ExternalNames(network) - strict - (left - {name}) == ExternalNames(network) - strict - left;
  }

  lemma WalkOther(network: Network, macs: set<string>, left: set<string>,
                  totals: Counters, hasStrict: bool, names: seq<string>, fallback: seq<Device>, name: string)
    requires Walked(network, macs, left, totals, hasStrict, names, fallback)
    requires name in left && !Billable(name, network[name], macs)
    ensures if LooksExternal(name) then
              Walked(network, macs, left - {name}, totals, hasStrict, names + [name], fallback + [network[name]])
            else
              Walked(network, macs, left - {name}, totals, hasStrict, names, fallback)
  {
    var strict, external := StrictNames(network, macs), ExternalNames(network);
    assert strict - (left - {name}) == strict - left;
    assert name !in Elements(names);
    if LooksExternal(name) {
      assert Elements(names + [name]) == Elements(names) + {name};
      assert external - strict - (left - {name}) == external - strict - left + {name};
    } else {
      assert external - strict - (left - {name}) == external - strict - left;
    }
  }

  lemma WalkBegins(network: Network, macs: set<string>)
    ensures Walked(network, macs, network.Keys, Counters(0, 0), false, [], [])
  {
    assert StrictNames(network, macs) - network.Keys == {};
    assert ExternalNames(network) - StrictNames(network, macs) - network.Keys == Elements([]);
  }

  lemma WalkEnds(network: Network, macs: set<string>, totals: Counters, hasStrict: bool, names: seq<string>, fallback: seq<Device>)
    requires Walked(network, macs, {}, totals, hasStrict, names, fallback)
    ensures hasStrict ==> Sums(totals, network, BilledNames(network, macs))
    ensures !hasStrict ==> Elements(names) == BilledNames(network, macs)
  {
    assert StrictNames(network, macs) - {} == StrictNames(network, macs);
    assert !hasStrict ==> Elements(names) == ExternalNames(network);
  }

  /** The body of the first loop. */
  method Visit(network: Network, macs: set<string>, ghost left: set<string>, totals: Counters, hasStrict: bool,
               ghost names: seq<string>, fallback: seq<Device>, name: string)
    returns (totals': Counters, hasStrict': bool, ghost names': seq<string>, fallback': seq<Device>)
    requires Walked(network, macs, left, totals, hasStrict, names, fallback) && name in left
    ensures Walked(network, macs, left - {name}, totals', hasStrict', names', fallback')
    ensures hasStrict' == (hasStrict || Billable(name, network[name], macs))
  {
    totals', hasStrict', names', fallback' := totals, hasStrict, names, fallback;
    if Billable(name, network[name], macs) {
      WalkStrict(network, macs, left, totals, hasStrict, names, fallback, name);
      hasStrict' := true;
      totals' := AddCounters(totals, network[name]);
    } else {
      WalkOther(network, macs, left, totals, hasStrict, names, fallback, name);
      if LooksExternal(name) {
        fallback' := fallback + [network[name]];
        names' := names + [name];
      }
    }
  }

  /** `getTrafficCountersFromIncusState`: whatever order the map is walked in, the sums modulo 2^64 are the same. */
  method TrafficCounters(network: Network, macs: set<string>) returns (totals: Counters)
    ensures Sums(totals, network, BilledNames(network, macs))
  {
    totals := Counters(0, 0);
    var fallback: seq<Device>, hasStrict, left := [], false, network.Keys;
    ghost var names: seq<string> := [];
    WalkBegins(network, macs);
    while left != {}
      invariant Walked(network, macs, left, totals, hasStrict, names, fallback)
      decreases |left|
    {
      var name :| name in left;
      totals, hasStrict, names, fallback := Visit(network, macs, left, totals, hasStrict, names, fallback, name);
      left := left - {name};
    }
    WalkEnds(network, macs, totals, hasStrict, names, fallback);
    if !hasStrict {
      totals := AddFallback(network, names, fallback);
    }
  }

  /** The second loop, over the devices kept aside. */
  method AddFallback(network: Network, ghost names: seq<string>, devices: seq<Device>) returns (totals: Counters)
    requires Devices(network, names, devices)
    ensures Elements(names) <= network.Keys && Sums(totals, network, Elements(names))
  {
    totals := Counters(0, 0);
    for i := 0 to |devices|
      invariant Elements(names[..i]) <= network.Keys && Sums(totals, network, Elements(names[..i]))
    {
      AddKeepsSum(totals, network, Elements(names[..i]), names[i]);
      assert Elements(names[..i + 1]) == Elements(names[..i]) + {names[i]};
      totals := AddCounters(totals, devices[i]);
    }
    assert names[..|names|] == names;
  }

  /** The loopback interface is never billed, not even when nothing else is there. */
  lemma LoopbackNeverBilled(network: Network, macs: set<string>)
    ensures "lo" !in BilledNames(network, macs)
  {
    assert |ToLower("lo")| == 2;
  }

  /** A counter is read as the number it is, if that fits into 64 bits; otherwise as zero. */
  lemma CounterReads(n: nat)
    ensures Uint64(Itoa(n)) == if n < 0x1_0000_0000_0000_0000 then n else 0
  {
    var digits := Itoa(n);
    assert IsDigit(digits[0]) && IsDigit(digits[|digits| - 1]);
    TrimNothing(digits);
  }

  lemma OneTotal(network: Network, name: string, rx: bool)
    requires name in network
    ensures Total(network, {name}, rx) == if rx then Uint64(network[name].received) else Uint64(network[name].sent)
  {
    TotalWithout(network, {name}, name, rx);
    assert {name} - {name} == {};
  }

  lemma SmallWraps(n: nat)
    requires n < 0x1_0000_0000_0000_0000
    ensures Wrap(n) == n
  {
  }

  /** With one billed interface its own counters are reported, each as what it is. */
  lemma OneInterface(network: Network, macs: set<string>, name: string, received: nat, sent: nat, totals: Counters)
    requires name in network && BilledNames(network, macs) == {name} && Sums(totals, network, {name})
    requires network[name].received == Itoa(received) && network[name].sent == Itoa(sent)
    requires received < 0x1_0000_0000_0000_0000 && sent < 0x1_0000_0000_0000_0000
    ensures totals == Counters(received, sent)
  {
    OneTotal(network, name, true);
    OneTotal(network, name, false);
    CounterReads(received);
    CounterReads(sent);
    SmallWraps(received);
    SmallWraps(sent);
  }

  /** The interface is the instance's own: by its name, or by its hardware address. */
  predicate IsOwn(network: Network, macs: set<string>, name: string) {
    name in network && (name in {"eth0", "eth1"} || (name != "lo" && ToLower(TrimSpace(network[name].hwaddr)) in macs - {""}))
  }

  /** Billed are the instance's own interfaces, and the others that look external only if it has none of its own. */
  lemma BilledIff(network: Network, macs: set<string>, name: string)
    ensures name in BilledNames(network, macs)
       <==> IsOwn(network, macs, name) || (name in network && LooksExternal(name) && !exists other :: IsOwn(network, macs, other))
  {
    assert forall other :: IsOwn(network, macs, other) <==> other in StrictNames(network, macs);
  }

  predicate Alnum(s: string) {
    forall i :: 0 <= i < |s| ==> '0' <= s[i] <= '9' || 'a' <= s[i] <= 'z'
  }

  predicate ExternalShape(name: string, rest: string) {
    || (name == "eth" + rest && AllDigits(rest))
    || (name in {"eno" + rest, "enp" + rest, "ens" + rest, "enx" + rest} && rest != "" && Alnum(rest))
  }

  lemma ExternalHasShape(n: string)
    requires |n| > 3 && ((n[..3] == "eth" && AllDigits(n[3..])) || (n[..2] == "en" && n[2] in {'o', 'p', 's', 'x'} && Alnum(n[3..])))
    ensures ExternalShape(n, n[3..])
  {
    assert n == [n[0], n[1], n[2]] + n[3..];
    assert n[..3] == "eth" ==> n[0] == 'e' && n[1] == 't' && n[2] == 'h';
    assert n[..2] == "en" ==> n[0] == 'e' && n[1] == 'n';
  }

  lemma ShapeIsExternal(n: string, rest: string)
    requires ExternalShape(n, rest)
    ensures |n| > 3 && rest == n[3..]
    ensures (n[..3] == "eth" && AllDigits(rest)) || (n[..2] == "en" && n[2] in {'o', 'p', 's', 'x'} && Alnum(rest))
  {
    assert n[..3] in {"eth", "eno", "enp", "ens", "enx"};
    assert n[..3] != "eth" ==> n[..2] == n[..3][..2] == "en" && n[2] == n[..3][2];
  }

  /** What looks external, whatever its case: eth and digits, or eno, enp, ens or enx and letters and digits. */
  lemma ExternalIff(name: string)
    ensures LooksExternal(name) <==> exists rest :: ExternalShape(ToLower(name), rest)
  {
    var n := ToLower(name);
    if |n| > 3 {
      assert forall i :: 3 <= i < |n| ==> n[3..][i - 3] == n[i];
      assert Alnum(n[3..]) <==> forall i :: 3 <= i < |n| ==> LowerAlnum(n[i]);
    }
    if LooksExternal(name) {
      ExternalHasShape(n);
    }
    if rest :| ExternalShape(n, rest) {
      ShapeIsExternal(n, rest);
    }
  }
}
