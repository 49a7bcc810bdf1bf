/** Choosing the local ports of a generation of dnsmasq profiles. */
module PortAllocator {
  import opened Text

  const MAX_PORT: nat := 65535

  /** What probing a port can say: no port above 65535 can be bound. */
  ghost predicate Probe(free: nat -> bool) {
    forall p :: p > MAX_PORT ==> !free(p)
  }

  /** The inner loop: step upwards to a free port, and give up on stepping to 65535. */
  function NextFree(free: nat -> bool, port: nat): (r: Option<nat>)
    requires Probe(free)
    decreases MAX_PORT - port
  {
    if free(port) then Some(port)
    else if port + 1 >= MAX_PORT then None
    else NextFree(free, port + 1)
  }

  /** One port for each of n profiles, searching on from the one after the last. */
  function Allocate(free: nat -> bool, port: nat, n: nat): Option<seq<nat>>
    requires Probe(free)
    decreases n
  {
    if n == 0 then Some([])
    else
      match NextFree(free, port)
      case None => None
      case Some(p) =>
        match Allocate(free, p + 1, n - 1)
        case None => None
        case Some(rest) => Some([p] + rest)
  }

  method FindPort(free: nat -> bool, from: nat) returns (port: Option<nat>)
    requires Probe(free)
    ensures port == NextFree(free, from)
  {
    var p := from;
    while !free(p)
      invariant NextFree(free, from) == NextFree(free, p)
      decreases MAX_PORT - p
    {
      p := p + 1;
      if p >= MAX_PORT {
        return None;
      }
    }
    return Some(p);
  }

  lemma {:induction false} NextFreeIs(free: nat -> bool, port: nat)
    requires Probe(free)
    ensures var r := NextFree(free, port);
            match r
            case Some(p) => free(p) && port <= p <= MAX_PORT && (p == MAX_PORT ==> port == MAX_PORT) && forall q :: port <= q < p ==> !free(q)
            case None => forall q :: port <= q < MAX_PORT || q == port ==> !free(q)
    decreases MAX_PORT - port
  {
    if !free(port) && port + 1 < MAX_PORT {
      NextFreeIs(free, port + 1);
    }
  }

  /** The ports are free, strictly increasing, not below the start and not above 65535. */
  lemma {:induction false} AllocatedPorts(free: nat -> bool, port: nat, n: nat)
    requires Probe(free) && Allocate(free, port, n).Some?
    ensures var ports := Allocate(free, port, n).value;
            && |ports| == n
            && (forall i :: 0 <= i < n ==> free(ports[i]) && port <= ports[i] <= MAX_PORT)
            && (forall i, j :: 0 <= i < j < n ==> ports[i] < ports[j])
    decreases n
  {
    if n > 0 {
      NextFreeIs(free, port);
      AllocatedPorts(free, NextFree(free, port).value + 1, n - 1);
    }
  }

  function FreeBelow(free: nat -> bool, port: nat, end: nat): nat
    decreases end - port
  {
    if port >= end then 0 else (if free(port) then 1 else 0) + FreeBelow(free, port + 1, end)
  }

  /** How many ports a search from `port` can hand out: 65535 only directly after 65534. */
  function Capacity(free: nat -> bool, port: nat): nat {
    FreeBelow(free, port, MAX_PORT) +
    if free(MAX_PORT) && (port == MAX_PORT || (port < MAX_PORT && free(MAX_PORT - 1))) then 1 else 0
  }

  lemma {:induction false} SkipTaken(free: nat -> bool, port: nat, p: nat)
    requires port <= p <= MAX_PORT && forall q :: port <= q < p ==> !free(q)
    ensures FreeBelow(free, port, MAX_PORT) == FreeBelow(free, p, MAX_PORT)
    decreases p - port
  {
    if port < p {
      SkipTaken(free, port + 1, p);
    }
  }

  /** Allocation succeeds exactly when no more ports are asked for than the search can hand out. */
  lemma {:induction false} AllocationSucceedsIff(free: nat -> bool, port: nat, n: nat)
    requires Probe(free) && port <= MAX_PORT + 1
    ensures Allocate(free, port, n).Some? <==> n <= Capacity(free, port)
    decreases n
  {
    if n > 0 {
      NextFreeIs(free, port);
      match NextFree(free, port)
      case None =>
        if port <= MAX_PORT {
          SkipTaken(free, port, MAX_PORT);
        }
      case Some(p) =>
        AllocationSucceedsIff(free, p + 1, n - 1);
        assert FreeBelow(free, p, MAX_PORT) == (if p < MAX_PORT then 1 else 0) + FreeBelow(free, p + 1, MAX_PORT);
        SkipTaken(free, port, p);
    }
  }
}
