/** Applying a bundle: compile, stage, start, swap the table, stop what is old, and roll back on any error. */
module PolicyRollout {
  import opened Text
  import opened NetworkPolicy
  import opened PolicyTable
  import opened DnsProfiles
  import opened PortAllocator
  import opened RolloutHost
  import opened BridgeDetection

  const DEFAULT_BRIDGE := "incus0"

  /** What starting one dnsmasq can end in; an error may leave a daemon behind, without a pid file or with one. */
  datatype Start = Started | Refused | Untracked | Abandoned

  /** How the surroundings answer during one call of `apply`. */
  datatype World = World(
    stateDir: bool,            // the state directory can be made
    hasDnsmasq: bool,          // dnsmasq is on the path
    fdb: Option<string>,       // the output of `bridge fdb show`
    tempDir: bool,             // a generation directory can be made
    generation: nat,           // its name
    firstPort: nat,            // where the port search begins
    free: nat -> bool,         // what probing a port says
    write: nat -> bool,        // the i-th profile can be written
    start: nat -> Start,       // what starting the i-th daemon ends in
    pid: nat -> nat,           // its process id
    listed: bool,              // `nft list` shows the table if there is one
    load: bool,                // nft accepts a document without errors
    kill: PidPath -> bool,     // the process named in the pid file is killed
    remove: Dir -> bool)       // the directory can be removed
  {
    function Dir(): Dir {
      Generation(generation)
    }
  }

  /** New directories and processes get new names, and a port that a daemon holds does not probe as free. */
  ghost predicate Truthful(w: World, h: Host) {
    && w.Dir() !in h.dirs
    && (forall i :: w.pid(i) > 1 && w.pid(i) !in h.daemons)
    && (forall i, j :: i != j ==> w.pid(i) != w.pid(j))
    && Probe(w.free) && 10000 <= w.firstPort < 50000
    && (forall p :: p in h.daemons ==> !w.free(h.daemons[p].profile.port))
  }

  datatype Outcome = Failed | Applied(profiles: seq<Staged>, bridge: string)

  function InterfaceName(bridge: string): string {
    if TrimSpace(bridge) == "" then DEFAULT_BRIDGE else bridge
  }

  function Stage(mac: string, port: nat, bridge: string, p: Profile): Staged {
    Staged(mac, port, InterfaceName(bridge), Distinct(p.upstreams), Distinct(p.lines), p.blockDoT)
  }

  ghost predicate Lists(macs: seq<string>, profiles: map<string, Profile>) {
    Ascending(macs) && forall m :: m in macs <==> m in profiles
  }

  ghost predicate StagedAs(profiles: map<string, Profile>, bridge: string, macs: seq<string>, ports: seq<nat>, staged: seq<Staged>) {
    && |staged| <= |macs| && |staged| <= |ports|
    && forall i :: 0 <= i < |staged| ==> macs[i] in profiles && staged[i] == Stage(macs[i], ports[i], bridge, profiles[macs[i]])
  }

  /** The profiles in ascending MAC order, with the ports that the search hands out. */
  ghost predicate StagedFrom(w: World, profiles: map<string, Profile>, bridge: string, staged: seq<Staged>)
    requires Probe(w.free)
  {
    exists macs, ports :: Lists(macs, profiles) && Allocate(w.free, w.firstPort, |macs|) == Some(ports)
      && StagedAs(profiles, bridge, macs, ports, staged) && |staged| == |macs|
  }

  predicate HasUpstreams(profiles: map<string, Profile>) {
    forall m :: m in profiles ==> Distinct(profiles[m].upstreams) != []
  }

  ghost predicate CanStage(w: World, profiles: map<string, Profile>)
    requires Probe(w.free)
  {
    && HasUpstreams(profiles) && w.tempDir
    && |profiles| <= Capacity(w.free, w.firstPort)
    && AllWrite(w, |profiles|)
  }

  // ---- The state while daemons are started and stopped ----

  /**
   * Of the daemons of the new generation, those before `hi` have been started, and one more without a pid file if
   * `stray`; the pid files before `lo` have been worked off, which leaves the daemons whose kill failed.
   */
  datatype Phase = Phase(lo: nat, hi: nat, stray: bool)

  predicate Lives(w: World, ph: Phase, j: nat) {
    (j < ph.hi && (j >= ph.lo || !w.kill(PidPath(w.Dir(), j)))) || (j == ph.hi && ph.stray)
  }

  /** Where the start loop ends when the i-th daemon, the first one that does not start, leaves an error. */
  function Broken(w: World, i: nat): Phase {
    Phase(0, if w.start(i).Abandoned? then i + 1 else i, w.start(i).Untracked?)
  }

  function Reached(w: World, ok: bool, count: nat): Phase {
    if ok then Phase(0, count, false) else Broken(w, count)
  }

  predicate AllStart(w: World, n: nat) {
    n == 0 || (AllStart(w, n - 1) && w.start(n - 1).Started?)
  }

  function NewDaemon(w: World, profiles: seq<Staged>, i: nat): Daemon
    requires i < |profiles|
  {
    Daemon(PidPath(w.Dir(), i), profiles[i])
  }

  /** The table is as it was, and so is every daemon that ran before. */
  ghost predicate KeepsOld(h0: Host, h: Host) {
    && h.table == h0.table
    && forall p :: p in h0.daemons ==> p in h.daemons && h.daemons[p] == h0.daemons[p]
  }

  predicate RunsAs(w: World, h: Host, profiles: seq<Staged>, j: nat) {
    j < |profiles| && w.pid(j) in h.daemons && h.daemons[w.pid(j)] == NewDaemon(w, profiles, j)
  }

  /** A process that did not run before is one of the generation's, and this is its place in it. */
  ghost predicate IsNew(w: World, h: Host, ph: Phase, p: nat)
    requires p in h.daemons
  {
    var home := h.daemons[p].home;
    home.dir == w.Dir() && Lives(w, ph, home.index) && p == w.pid(home.index)
  }

  ghost predicate NewDaemons(h0: Host, h: Host, w: World, profiles: seq<Staged>, ph: Phase) {
    && (forall j: nat :: Lives(w, ph, j) ==> RunsAs(w, h, profiles, j))
    && (forall p :: p in h.daemons && p !in h0.daemons ==> IsNew(w, h, ph, p))
  }

  ghost predicate NewFiles(h0: Host, h: Host, w: World, ph: Phase) {
    && (forall path :: path in h.pidFiles <==> path in h0.pidFiles || (path.dir == w.Dir() && ph.lo <= path.index < ph.hi))
    && (forall path :: path in h.pidFiles ==>
          h.pidFiles[path] == if path.dir == w.Dir() then w.pid(path.index) else if path in h0.pidFiles then h0.pidFiles[path] else 0)
  }

  ghost predicate InPhase(h0: Host, h: Host, w: World, profiles: seq<Staged>, ph: Phase) {
    && ph.hi <= |profiles| && (ph.stray ==> ph.hi < |profiles|) && h.dirs == h0.dirs
    && KeepsOld(h0, h) && NewDaemons(h0, h, w, profiles, ph) && NewFiles(h0, h, w, ph)
  }

  /** The ground on which a generation is started: nothing of it exists yet. */
  ghost predicate Ground(h0: Host, w: World, profiles: seq<Staged>) {
    && (forall path :: path in h0.pidFiles ==> path.dir != w.Dir())
    && (forall i :: w.pid(i) > 1 && w.pid(i) !in h0.daemons)
    && (forall i, j :: i != j ==> w.pid(i) != w.pid(j))
    && (forall i :: 0 <= i < |profiles| ==> !PortTaken(h0, profiles[i].port))
    && (forall i, j :: 0 <= i < j < |profiles| ==> profiles[i].port != profiles[j].port)
    && w.Dir() in h0.dirs && !InUse(h0, w.Dir())
  }

  lemma PhaseBegins(h0: Host, w: World, profiles: seq<Staged>)
    requires Ground(h0, w, profiles)
    ensures InPhase(h0, h0, w, profiles, Phase(0, 0, false))
  {
  }

  lemma NextStartAllowed(h0: Host, h: Host, w: World, profiles: seq<Staged>, i: nat, pidFile: bool)
    requires Ground(h0, w, profiles) && InPhase(h0, h, w, profiles, Phase(0, i, false)) && i < |profiles|
    ensures Allowed(h, Spawn(w.pid(i), NewDaemon(w, profiles, i), pidFile))
  {
    assert w.pid(i) in h.daemons ==> IsNew(w, h, Phase(0, i, false), w.pid(i));
    forall p | p in h.daemons
      ensures h.daemons[p].profile.port != profiles[i].port
    {
      if p in h0.daemons {
        assert !PortTaken(h0, profiles[i].port);
      } else {
        var j := h.daemons[p].home.index;
        assert IsNew(w, h, Phase(0, i, false), p);
        assert RunsAs(w, h, profiles, j);
      }
    }
  }

  lemma DaemonsStart(h0: Host, h: Host, w: World, profiles: seq<Staged>, i: nat, pidFile: bool)
    requires Ground(h0, w, profiles) && i < |profiles|
    requires KeepsOld(h0, h) && NewDaemons(h0, h, w, profiles, Phase(0, i, false)) && w.pid(i) !in h.daemons
    ensures var h' := Do(h, Spawn(w.pid(i), NewDaemon(w, profiles, i), pidFile));
            KeepsOld(h0, h') && NewDaemons(h0, h', w, profiles, if pidFile then Phase(0, i + 1, false) else Phase(0, i, true))
  {
    var h' := Do(h, Spawn(w.pid(i), NewDaemon(w, profiles, i), pidFile));
    var ph, ph' := Phase(0, i, false), if pidFile then Phase(0, i + 1, false) else Phase(0, i, true);
    forall j: nat | Lives(w, ph', j)
      ensures RunsAs(w, h', profiles, j)
    {
      if j != i {
        assert Lives(w, ph, j);
        assert RunsAs(w, h, profiles, j);
      }
    }
    forall p | p in h'.daemons && p !in h0.daemons
      ensures IsNew(w, h', ph', p)
    {
      if p in h.daemons {
        assert IsNew(w, h, ph, p);
      }
    }
  }

  lemma PhaseStarts(h0: Host, h: Host, w: World, profiles: seq<Staged>, i: nat, pidFile: bool)
    requires Ground(h0, w, profiles) && InPhase(h0, h, w, profiles, Phase(0, i, false)) && i < |profiles|
    ensures InPhase(h0, Do(h, Spawn(w.pid(i), NewDaemon(w, profiles, i), pidFile)), w, profiles,
                    if pidFile then Phase(0, i + 1, false) else Phase(0, i, true))
  {
    NextStartAllowed(h0, h, w, profiles, i, pidFile);
    DaemonsStart(h0, h, w, profiles, i, pidFile);
  }

  lemma DaemonsStop(h0: Host, h: Host, w: World, profiles: seq<Staged>, ph: Phase)
    requires Ground(h0, w, profiles) && ph.lo < ph.hi
    requires KeepsOld(h0, h) && NewDaemons(h0, h, w, profiles, ph)
    requires var path := PidPath(w.Dir(), ph.lo); path in h.pidFiles && h.pidFiles[path] == w.pid(ph.lo)
    ensures var path := PidPath(w.Dir(), ph.lo);
            var h' := Do(h, StopPid(path, w.kill(path)));
            KeepsOld(h0, h') && NewDaemons(h0, h', w, profiles, ph.(lo := ph.lo + 1))
  {
    var path, ph' := PidPath(w.Dir(), ph.lo), ph.(lo := ph.lo + 1);
    var h' := Do(h, StopPid(path, w.kill(path)));
    forall j: nat | Lives(w, ph', j)
      ensures RunsAs(w, h', profiles, j)
    {
      assert Lives(w, ph, j);
      assert RunsAs(w, h, profiles, j);
    }
    forall p | p in h'.daemons && p !in h0.daemons
      ensures IsNew(w, h', ph', p)
    {
      assert IsNew(w, h, ph, p);
    }
  }

  lemma PhaseStops(h0: Host, h: Host, w: World, profiles: seq<Staged>, ph: Phase)
    requires Ground(h0, w, profiles) && InPhase(h0, h, w, profiles, ph) && ph.lo < ph.hi
    ensures Allowed(h, StopPid(PidPath(w.Dir(), ph.lo), w.kill(PidPath(w.Dir(), ph.lo))))
    ensures InPhase(h0, Do(h, StopPid(PidPath(w.Dir(), ph.lo), w.kill(PidPath(w.Dir(), ph.lo)))), w, profiles, ph.(lo := ph.lo + 1))
  {
    DaemonsStop(h0, h, w, profiles, ph);
  }

  lemma PhaseStopsAt(h0: Host, h: Host, w: World, profiles: seq<Staged>, ph: Phase, i: nat)
    requires Ground(h0, w, profiles) && InPhase(h0, h, w, profiles, ph) && ph.lo == if i < ph.hi then i else ph.hi
    ensures var path, ph' := PidPath(w.Dir(), i), ph.(lo := if i < ph.hi then i + 1 else ph.hi);
            var op := StopPid(path, w.kill(path));
            if path in h.pidFiles then Allowed(h, op) && InPhase(h0, Do(h, op), w, profiles, ph')
            else InPhase(h0, h, w, profiles, ph')
  {
    if i < ph.hi {
      PhaseStops(h0, h, w, profiles, ph);
    } else {
      assert ph.(lo := ph.hi) == ph;
    }
  }

  // ---- Staging ----

  /** The whole search, resumed after some ports have been handed out. */
  function Resume(handed: seq<nat>, rest: Option<seq<nat>>): Option<seq<nat>> {
    match rest case None => None case Some(ports) => Some(handed + ports)
  }

  lemma ResumeStart(rest: Option<seq<nat>>)
    ensures Resume([], rest) == rest
  {
    assert rest.Some? ==> [] + rest.value == rest.value;
  }

  lemma ResumeStep(free: nat -> bool, handed: seq<nat>, port: nat, left: nat)
    requires Probe(free) && left > 0
    ensures Resume(handed, Allocate(free, port, left))
         == match NextFree(free, port)
            case None => None
            case Some(p) => Resume(handed + [p], Allocate(free, p + 1, left - 1))
  {
    var p := NextFree(free, port);
    if p.Some? && Allocate(free, p.value + 1, left - 1).Some? {
      var rest := Allocate(free, p.value + 1, left - 1).value;
      assert handed + ([p.value] + rest) == (handed + [p.value]) + rest;
    }
  }

  predicate AllWrite(w: World, n: nat) {
    n == 0 || (AllWrite(w, n - 1) && w.write(n - 1))
  }

  lemma {:induction false} AllWriteUpTo(w: World, i: nat, n: nat)
    requires i < n && !w.write(i)
    ensures !AllWrite(w, n)
  {
    if i < n - 1 {
      AllWriteUpTo(w, i, n - 1);
    }
  }

  /** The sorted key list, as the loop over the map and the library sort give it. */
  method SortedMacs(profiles: map<string, Profile>) returns (macs: seq<string>)
    ensures Lists(macs, profiles) && |macs| == |profiles|
  {
    var keys := profiles.Keys;
    var listed: seq<string> := [];
    while keys != {}
      invariant forall x :: x in profiles <==> x in keys || x in listed
      invariant forall x :: x in keys ==> x !in listed
      invariant forall i, j :: 0 <= i < j < |listed| ==> listed[i] != listed[j]
      invariant |listed| + |keys| == |profiles|
      decreases |keys|
    {
      var mac :| mac in keys;
      keys := keys - {mac};
      listed := listed + [mac];
    }
    macs := SortKeys(listed);
  }

  method CheckUpstreams(profiles: map<string, Profile>, macs: seq<string>) returns (ok: bool)
    requires Lists(macs, profiles)
    ensures ok <==> HasUpstreams(profiles)
  {
    for i := 0 to |macs|
      invariant forall j :: 0 <= j < i ==> Distinct(profiles[macs[j]].upstreams) != []
    {
      var upstreams := Unique(profiles[macs[i]].upstreams);
      if |upstreams| == 0 {
        assert macs[i] in profiles;
        return false;
      }
    }
    return true;
  }

  lemma StagedSnoc(profiles: map<string, Profile>, bridge: string, macs: seq<string>, ports: seq<nat>, staged: seq<Staged>, port: nat)
    requires StagedAs(profiles, bridge, macs, ports, staged) && |staged| == |ports| < |macs| && macs[|ports|] in profiles
    ensures var next := Stage(macs[|ports|], port, bridge, profiles[macs[|ports|]]);
            StagedAs(profiles, bridge, macs, ports + [port], staged + [next])
  {
  }

  lemma StagedFinally(w: World, profiles: map<string, Profile>, bridge: string, macs: seq<string>, ports: seq<nat>, staged: seq<Staged>)
    requires Probe(w.free) && Lists(macs, profiles) && StagedAs(profiles, bridge, macs, ports, staged) && |staged| == |macs|
    requires Allocate(w.free, w.firstPort, |macs|) == Some(ports)
    ensures StagedFrom(w, profiles, bridge, staged)
  {
  }

  method WriteProfile(mac: string, port: nat, bridge: string, profile: Profile) returns (s: Staged)
    ensures s == Stage(mac, port, bridge, profile)
  {
    var iface := bridge;
    if TrimSpace(bridge) == "" {
      iface := DEFAULT_BRIDGE;
    }
    var servers := Unique(profile.upstreams);
    var lines := Unique(profile.lines);
    s := Staged(mac, port, iface, servers, lines, profile.blockDoT);
  }

  /** The loop so far: the whole search for n ports is what is handed out and what is still to find. */
  ghost predicate Searching(w: World, n: nat, ports: seq<nat>, port: nat)
    requires Probe(w.free)
  {
    && |ports| <= n && AllWrite(w, |ports|)
    && Allocate(w.free, w.firstPort, n) == Resume(ports, Allocate(w.free, port, n - |ports|))
  }

  lemma SearchGoesOn(w: World, n: nat, ports: seq<nat>, port: nat)
    requires Probe(w.free) && Searching(w, n, ports, port) && |ports| < n
    ensures var found := NextFree(w.free, port);
            if found.None? then Allocate(w.free, w.firstPort, n).None?
            else if !w.write(|ports|) then !AllWrite(w, n)
            else Searching(w, n, ports + [found.value], found.value + 1)
  {
    ResumeStep(w.free, ports, port, n - |ports|);
    if !w.write(|ports|) {
      AllWriteUpTo(w, |ports|, n);
    }
  }

  ghost predicate Staging(w: World, profiles: map<string, Profile>, bridge: string, macs: seq<string>, ports: seq<nat>, staged: seq<Staged>, port: nat)
    requires Probe(w.free)
  {
    |staged| == |ports| && Searching(w, |macs|, ports, port) && StagedAs(profiles, bridge, macs, ports, staged)
  }

  lemma StagingGoesOn(w: World, profiles: map<string, Profile>, bridge: string, macs: seq<string>, ports: seq<nat>, staged: seq<Staged>, port: nat)
    requires Probe(w.free) && Staging(w, profiles, bridge, macs, ports, staged, port)
    requires |ports| < |macs| && macs[|ports|] in profiles
    ensures var found := NextFree(w.free, port);
            if found.None? then Allocate(w.free, w.firstPort, |macs|).None?
            else if !w.write(|ports|) then !AllWrite(w, |macs|)
            else var next := Stage(macs[|ports|], found.value, bridge, profiles[macs[|ports|]]);
                 Staging(w, profiles, bridge, macs, ports + [found.value], staged + [next], found.value + 1)
  {
    SearchGoesOn(w, |macs|, ports, port);
    var found := NextFree(w.free, port);
    if found.Some? {
      StagedSnoc(profiles, bridge, macs, ports, staged, found.value);
    }
  }

  /** The body of the loop over the MACs: a port and a configuration file. */
  method StageOne(w: World, profiles: map<string, Profile>, bridge: string, macs: seq<string>, ghost ports: seq<nat>, staged: seq<Staged>, port: nat)
    returns (next: Option<Staged>)
    requires Probe(w.free) && Staging(w, profiles, bridge, macs, ports, staged, port)
    requires |ports| < |macs| && macs[|ports|] in profiles
    ensures if next.Some? then Staging(w, profiles, bridge, macs, ports + [next.value.port], staged + [next.value], next.value.port + 1)
            else Allocate(w.free, w.firstPort, |macs|).None? || !AllWrite(w, |macs|)
  {
    StagingGoesOn(w, profiles, bridge, macs, ports, staged, port);
    var i := |staged|;
    var found := FindPort(w.free, port);
    if found.None? || !w.write(i) {
      return None;
    }
    var profile := WriteProfile(macs[i], found.value, bridge, profiles[macs[i]]);
    return Some(profile);
  }

  lemma StagingBegins(w: World, profiles: map<string, Profile>, bridge: string, macs: seq<string>)
    requires Probe(w.free)
    ensures Staging(w, profiles, bridge, macs, [], [], w.firstPort)
  {
    ResumeStart(Allocate(w.free, w.firstPort, |macs|));
  }

  lemma StagingEnds(w: World, profiles: map<string, Profile>, bridge: string, macs: seq<string>, ports: seq<nat>, staged: seq<Staged>, port: nat)
    requires Probe(w.free) && Lists(macs, profiles) && Staging(w, profiles, bridge, macs, ports, staged, port) && |ports| == |macs|
    ensures StagedFrom(w, profiles, bridge, staged) && AllWrite(w, |macs|)
    ensures Allocate(w.free, w.firstPort, |macs|) == Some(ports)
  {
    assert ports + [] == ports;
    StagedFinally(w, profiles, bridge, macs, ports, staged);
  }

  /** The loop over the MACs. */
  method StageAll(w: World, profiles: map<string, Profile>, bridge: string, macs: seq<string>) returns (r: Option<seq<Staged>>)
    requires Probe(w.free) && Lists(macs, profiles)
    ensures r.Some? <==> Allocate(w.free, w.firstPort, |macs|).Some? && AllWrite(w, |macs|)
    ensures r.Some? ==> StagedFrom(w, profiles, bridge, r.value)
  {
    var staged: seq<Staged>, port: nat := [], w.firstPort;
    ghost var ports: seq<nat> := [];
    StagingBegins(w, profiles, bridge, macs);
    for i := 0 to |macs|
      invariant |ports| == i && Staging(w, profiles, bridge, macs, ports, staged, port)
    {
      assert macs[i] in profiles;
      var next := StageOne(w, profiles, bridge, macs, ports, staged, port);
      if next.None? {
        return None;
      }
      staged := staged + [next.value];
      ports := ports + [next.value.port];
      port := next.value.port + 1;
    }
    StagingEnds(w, profiles, bridge, macs, ports, staged, port);
    return Some(staged);
  }

  // ---- Clearing away the older generations ----

  /** The daemon's own pid file is among the old ones, and killing it works. */
  predicate Stopped(w: World, h: Host, keep: Dir, p: nat)
    requires p in h.daemons
  {
    var home := h.daemons[p].home;
    home in h.pidFiles && h.pidFiles[home] == p && home.dir != keep && w.kill(home)
  }

  /** All old pid files but those in `todo` have been worked off. */
  ghost predicate Cleared(h0: Host, h: Host, w: World, keep: Dir, todo: set<PidPath>) {
    && h.table == h0.table
    && (forall path :: path in h.pidFiles <==> path in h0.pidFiles && (path.dir == keep || path in todo))
    && (forall path :: path in h.pidFiles ==> h.pidFiles[path] == h0.pidFiles[path])
    && (forall p :: p in h.daemons ==> p in h0.daemons && h.daemons[p] == h0.daemons[p])
    && (forall p :: p in h0.daemons ==> (p in h.daemons <==> !Stopped(w, h0, keep, p) || h0.daemons[p].home in todo))
  }

  lemma ClearOne(h0: Host, h: Host, w: World, keep: Dir, todo: set<PidPath>, path: PidPath)
    requires Tracked(h0) && Cleared(h0, h, w, keep, todo)
    requires path in todo && path in h0.pidFiles && path.dir != keep
    ensures Cleared(h0, Do(h, StopPid(path, w.kill(path))), w, keep, todo - {path})
  {
    var h' := Do(h, StopPid(path, w.kill(path)));
    assert Owns(h0, path);
    forall p | p in h0.daemons
      ensures p in h'.daemons <==> !Stopped(w, h0, keep, p) || h0.daemons[p].home in todo - {path}
    {
      if h0.daemons[p].home in h0.pidFiles {
        assert Owns(h0, h0.daemons[p].home);
      }
    }
  }

  lemma ClearingBegins(h: Host, w: World, keep: Dir, todo: set<PidPath>)
    requires todo == set path | path in h.pidFiles && path.dir != keep
    ensures Cleared(h, h, w, keep, todo)
  {
  }

  // ---- What one call promises ----

  /** The profiles can be staged and their daemons started. */
  ghost predicate CanRun(w: World, profiles: map<string, Profile>)
    requires Probe(w.free)
  {
    (profiles == map[] || w.hasDnsmasq) && CanStage(w, profiles) && AllStart(w, |profiles|)
  }

  /** Exactly when the bundle is applied. */
  ghost predicate Applies(w: World, syntax: Syntax, policies: seq<Policy>)
    requires Probe(w.free)
  {
    && w.stateDir && AllTargetsValid(policies)
    && CanRun(w, Accumulate(syntax, Bindings(policies)).profiles)
    && w.load && NoMappedLiteral(policies)
  }

  /**
   * A failed call: the table, the pid files and every daemon that ran before are as they were, and so are the
   * directories, unless the new one could not be removed.
   * A daemon of the abandoned generation is left only if it never had a pid file or its kill failed.
   */
  ghost predicate RolledBack(h0: Host, h: Host, w: World) {
    && KeepsOld(h0, h) && h.pidFiles == h0.pidFiles
    && (h.dirs == h0.dirs || (h.dirs == h0.dirs + {w.Dir()} && !w.remove(w.Dir())))
    && forall p :: p in h.daemons && p !in h0.daemons ==> Leftover(w, h, p)
  }

  ghost predicate Leftover(w: World, h: Host, p: nat)
    requires p in h.daemons
  {
    var home := h.daemons[p].home;
    home.dir == w.Dir() && p == w.pid(home.index) && (w.start(home.index).Untracked? || !w.kill(home))
  }

  /**
   * A successful call: the new table is loaded and a new daemon runs for each profile; of the older generations there
   * remain no pid file, only directories that cannot be removed, and only daemons without a pid file or whose kill failed.
   */
  ghost predicate RolledOut(h0: Host, h: Host, w: World, t: Table, profiles: seq<Staged>) {
    && h.table == Some(Loaded(h0.table, Installed(w.Dir(), t), w.listed)) && h.dirs == DirsKept(w, h0)
    && NewFilesOnly(h, w, profiles) && NewRunning(h0, h, w, profiles) && OldStopped(h0, h, w)
  }

  ghost predicate NewFilesOnly(h: Host, w: World, profiles: seq<Staged>) {
    && (forall path :: path in h.pidFiles <==> path.dir == w.Dir() && path.index < |profiles|)
    && (forall path :: path in h.pidFiles ==> h.pidFiles[path] == w.pid(path.index))
  }

  ghost predicate NewRunning(h0: Host, h: Host, w: World, profiles: seq<Staged>) {
    && (forall j: nat :: j < |profiles| ==> RunsAs(w, h, profiles, j))
    && (forall p :: p in h.daemons && p !in h0.daemons ==> IsNew(w, h, Phase(0, |profiles|, false), p))
  }

  ghost predicate OldStopped(h0: Host, h: Host, w: World) {
    && (forall p :: p in h0.daemons ==> (p in h.daemons <==> !Stopped(w, h0, w.Dir(), p)))
    && (forall p :: p in h0.daemons && p in h.daemons ==> h.daemons[p] == h0.daemons[p])
  }

  function DirsKept(w: World, h0: Host): set<Dir> {
    set d | d in h0.dirs + {w.Dir()} && (d == w.Dir() || d.Root? || !w.remove(d))
  }

  /** The bridge that dnsmasq binds to and that the input chain lets in. */
  ghost predicate ChosenBridge(w: World, profiles: map<string, Profile>, configured: string, bridge: string) {
    if TrimSpace(configured) != "" then bridge == TrimSpace(configured)
    else if profiles == map[] then bridge == ""
    else exists best :: Detected(w, profiles, best) && bridge == if best != "" then best else "incus0"
  }

  ghost predicate Detected(w: World, profiles: map<string, Profile>, best: string) {
    match w.fdb
    case None => best == ""
    case Some(output) => IsBest(AllFields(Split(output, '\n')), set m | m in profiles :: ToLower(m), best)
  }

  method ChooseBridge(w: World, profiles: map<string, Profile>, configured: string) returns (bridge: string)
    ensures ChosenBridge(w, profiles, configured, bridge)
  {
    bridge := TrimSpace(configured);
    if bridge == "" && |profiles| > 0 {
      assert profiles != map[];
      var detected := "";
      if w.fdb.Some? {
        detected := PickBridge(w.fdb.value, set m | m in profiles :: ToLower(m));
      }
      assert Detected(w, profiles, detected);
      bridge := if detected != "" then detected else DEFAULT_BRIDGE;
    } else {
      assert bridge == "" ==> profiles == map[];
    }
  }

  /** The state in which a call leaves the host: rolled back, or rolled out with the table of the draft. */
  ghost predicate Ends(h0: Host, h: Host, w: World, d: Draft, configured: string, r: Outcome)
    requires Probe(w.free)
  {
    match r
    case Failed => RolledBack(h0, h, w)
    case Applied(profiles, bridge) =>
      && ChosenBridge(w, d.profiles, configured, bridge)
      && StagedFrom(w, d.profiles, bridge, profiles)
      && RolledOut(h0, h, w, TableOf(d, profiles, bridge), profiles)
  }

  lemma StagedIsStages(w: World, d: Draft, bridge: string, profiles: seq<Staged>)
    requires Probe(w.free) && StagedFrom(w, d.profiles, bridge, profiles)
    ensures Stages(d, profiles) && |profiles| == |d.profiles|
  {
    var macs, ports :| Lists(macs, d.profiles) && Allocate(w.free, w.firstPort, |macs|) == Some(ports)
      && StagedAs(d.profiles, bridge, macs, ports, profiles) && |profiles| == |macs|;
    ListingDistinct(macs);
    ListingSize(macs, d.profiles.Keys);
    StagedMacs(d.profiles, bridge, macs, ports, profiles);
    ListedStages(d, macs, profiles);
  }

  lemma ListingDistinct(macs: seq<string>)
    requires Ascending(macs)
    ensures forall i, j :: 0 <= i < j < |macs| ==> macs[i] != macs[j]
  {
    forall i, j | 0 <= i < j < |macs|
      ensures macs[i] != macs[j]
    {
      LessTotal(macs[i], macs[j]);
    }
  }

  lemma StagedMacs(profiles: map<string, Profile>, bridge: string, macs: seq<string>, ports: seq<nat>, staged: seq<Staged>)
    requires StagedAs(profiles, bridge, macs, ports, staged) && |staged| == |macs|
    ensures forall i :: 0 <= i < |macs| ==>
      macs[i] in profiles && staged[i].mac == macs[i] && staged[i].blockDoT == profiles[macs[i]].blockDoT
  {
  }

  lemma ListedStages(d: Draft, macs: seq<string>, staged: seq<Staged>)
    requires forall m :: m in macs <==> m in d.profiles
    requires forall i, j :: 0 <= i < j < |macs| ==> macs[i] != macs[j]
    requires |staged| == |macs| && forall i :: 0 <= i < |macs| ==>
      macs[i] in d.profiles && staged[i].mac == macs[i] && staged[i].blockDoT == d.profiles[macs[i]].blockDoT
    ensures Stages(d, staged)
  {
    forall m | m in d.profiles
      ensures exists i :: 0 <= i < |staged| && staged[i].mac == m
    {
      var i :| 0 <= i < |macs| && macs[i] == m;
      assert staged[i].mac == m;
    }
  }

  lemma {:induction false} ListingSize<T>(s: seq<T>, elements: set<T>)
    requires forall i, j :: 0 <= i < j < |s| ==> s[i] != s[j]
    requires forall x :: x in s <==> x in elements
    ensures |s| == |elements|
  {
    if s != [] {
      var init, last := s[..|s| - 1], s[|s| - 1];
      assert last in s;
      forall x
        ensures x in init <==> x in elements - {last}
      {
        assert x in s <==> x in init || x == last;
      }
      ListingSize(init, elements - {last});
    } else {
      assert forall x :: x in elements ==> x in s;
      assert elements == {};
    }
  }

  lemma StagedPorts(w: World, profiles: map<string, Profile>, bridge: string, staged: seq<Staged>)
    requires Probe(w.free) && StagedFrom(w, profiles, bridge, staged)
    ensures forall i :: 0 <= i < |staged| ==> w.free(staged[i].port) && w.firstPort <= staged[i].port <= 65535
    ensures forall i, j :: 0 <= i < j < |staged| ==> Less(staged[i].mac, staged[j].mac) && staged[i].port < staged[j].port
  {
    var macs, ports :| Lists(macs, profiles) && Allocate(w.free, w.firstPort, |macs|) == Some(ports)
      && StagedAs(profiles, bridge, macs, ports, staged) && |staged| == |macs|;
    AllocatedPorts(w.free, w.firstPort, |macs|);
  }

  lemma GroundReady(h: Host, w: World, profiles: map<string, Profile>, bridge: string, staged: seq<Staged>)
    requires Tracked(h) && Truthful(w, h) && StagedFrom(w, profiles, bridge, staged)
    ensures Ground(Do(h, MakeDir(w.Dir())), w, staged)
  {
    StagedPorts(w, profiles, bridge, staged);
  }

  lemma {:induction false} RedirectsIn(profiles: seq<Staged>, r: Redirect)
    requires r in Redirects(profiles)
    ensures exists i :: 0 <= i < |profiles| && r.mac == profiles[i].mac && r.port == profiles[i].port
  {
    var init, last := profiles[..|profiles| - 1], profiles[|profiles| - 1];
    if r in Redirects(init) {
      RedirectsIn(init, r);
    }
  }

  /** Once all of the generation runs, its table may be installed. */
  lemma ReadyToInstall(h0: Host, h: Host, w: World, profiles: seq<Staged>, t: Table)
    requires Ground(h0, w, profiles) && InPhase(h0, h, w, profiles, Phase(0, |profiles|, false))
    requires t.prerouting == Redirects(profiles)
    ensures Allowed(h, Install(Installed(w.Dir(), t), w.listed))
  {
    forall r | r in t.prerouting
      ensures Answers(h.daemons, w.Dir(), r)
    {
      RedirectsIn(profiles, r);
      var i :| 0 <= i < |profiles| && r.mac == profiles[i].mac && r.port == profiles[i].port;
      assert Lives(w, Phase(0, |profiles|, false), i) && RunsAs(w, h, profiles, i);
    }
  }

  /** The new generation's pid files have been worked off, and its directory is removed if that works. */
  function Unmade(w: World, h: Host): Host {
    if w.remove(w.Dir()) then Do(h, RemoveDir(w.Dir())) else h
  }

  lemma FilesUndone(h0: Host, h1: Host, h: Host, w: World, ph: Phase)
    requires Tracked(h0) && w.Dir() !in h0.dirs && h1 == Do(h0, MakeDir(w.Dir()))
    requires NewFiles(h1, h, w, ph) && ph.lo == ph.hi && h.dirs == h1.dirs
    ensures Unmade(w, h).pidFiles == h0.pidFiles
    ensures Unmade(w, h).dirs == if w.remove(w.Dir()) then h0.dirs else h0.dirs + {w.Dir()}
  {
    assert forall path :: path in h0.pidFiles ==> path.dir in h0.dirs;
    assert h.pidFiles == h0.pidFiles;
  }

  lemma PhaseUndone(h0: Host, h1: Host, h: Host, w: World, profiles: seq<Staged>, ph: Phase)
    requires Tracked(h0) && w.Dir() !in h0.dirs && h1 == Do(h0, MakeDir(w.Dir()))
    requires InPhase(h1, h, w, profiles, ph) && ph.lo == ph.hi
    requires ph.stray ==> w.start(ph.hi).Untracked?
    ensures RolledBack(h0, Unmade(w, h), w)
  {
    FilesUndone(h0, h1, h, w, ph);
    forall p | p in h.daemons && p !in h0.daemons
      ensures Leftover(w, h, p)
    {
      assert IsNew(w, h, ph, p);
    }
    assert Unmade(w, h).daemons == h.daemons;
    assert forall p :: p in h.daemons && Leftover(w, h, p) ==> Leftover(w, Unmade(w, h), p);
  }

  lemma PhaseReplaced(h0: Host, h1: Host, h2: Host, h: Host, w: World, t: Table, profiles: seq<Staged>)
    requires Tracked(h0) && w.Dir() !in h0.dirs && h1 == Do(h0, MakeDir(w.Dir())) && Ground(h1, w, profiles)
    requires InPhase(h1, h2, w, profiles, Phase(0, |profiles|, false))
    requires Cleared(Do(h2, Install(Installed(w.Dir(), t), w.listed)), h, w, w.Dir(), {})
    requires h.dirs == set d | d in h2.dirs && (d == w.Dir() || d.Root? || !w.remove(d))
    ensures RolledOut(h0, h, w, t, profiles)
  {
    var h3 := Do(h2, Install(Installed(w.Dir(), t), w.listed));
    assert h1 == h0.(dirs := h1.dirs) && h3 == h2.(table := h3.table);
    FilesReplaced(h0, h1, h2, h3, h, w, profiles);
    NewReplaced(h0, h1, h2, h3, h, w, profiles);
    OldReplaced(h0, h1, h2, h3, h, w, profiles);
    assert h.dirs == DirsKept(w, h0);
  }

  lemma FilesReplaced(h0: Host, h1: Host, h2: Host, h3: Host, h: Host, w: World, profiles: seq<Staged>)
    requires h1 == h0.(dirs := h1.dirs) && h3 == h2.(table := h3.table) && Ground(h1, w, profiles)
    requires NewFiles(h1, h2, w, Phase(0, |profiles|, false)) && Cleared(h3, h, w, w.Dir(), {})
    ensures NewFilesOnly(h, w, profiles)
  {
  }

  lemma NewReplaced(h0: Host, h1: Host, h2: Host, h3: Host, h: Host, w: World, profiles: seq<Staged>)
    requires h1 == h0.(dirs := h1.dirs) && h3 == h2.(table := h3.table) && Ground(h1, w, profiles)
    requires InPhase(h1, h2, w, profiles, Phase(0, |profiles|, false)) && Cleared(h3, h, w, w.Dir(), {})
    ensures NewRunning(h0, h, w, profiles)
  {
    var ph := Phase(0, |profiles|, false);
    forall j: nat | j < |profiles|
      ensures RunsAs(w, h, profiles, j)
    {
      assert Lives(w, ph, j) && RunsAs(w, h2, profiles, j);
    }
    forall p | p in h.daemons && p !in h0.daemons
      ensures IsNew(w, h, ph, p)
    {
      assert IsNew(w, h2, ph, p);
    }
  }

  lemma OldReplaced(h0: Host, h1: Host, h2: Host, h3: Host, h: Host, w: World, profiles: seq<Staged>)
    requires h1 == h0.(dirs := h1.dirs) && h3 == h2.(table := h3.table) && Ground(h1, w, profiles)
    requires InPhase(h1, h2, w, profiles, Phase(0, |profiles|, false)) && Cleared(h3, h, w, w.Dir(), {})
    ensures OldStopped(h0, h, w)
  {
    forall p | p in h0.daemons
      ensures p in h.daemons <==> !Stopped(w, h0, w.Dir(), p)
      ensures p in h.daemons ==> h.daemons[p] == h0.daemons[p]
    {
      assert h2.daemons[p] == h0.daemons[p];
    }
  }

  /** Removing a directory that was just made restores the host. */
  lemma DirUnmade(h: Host, dir: Dir)
    requires Tracked(h) && dir !in h.dirs
    ensures Do(Do(h, MakeDir(dir)), RemoveDir(dir)) == h
  {
    var h' := Do(Do(h, MakeDir(dir)), RemoveDir(dir));
    assert h'.dirs == h.dirs && h'.pidFiles == h.pidFiles;
  }

  class NetworkHost {
    var table: Option<Installed>
    var daemons: map<nat, Daemon>
    var pidFiles: map<PidPath, nat>
    var dirs: set<Dir>
    ghost var origin: Host
    ghost var log: seq<Op>

    ghost function View(): Host
      reads this
    {
      Host(table, daemons, pidFiles, dirs)
    }

    /** The host got here from a tracked state by allowed operations. */
    ghost predicate Valid()
      reads this
    {
      Tracked(origin) && AllAllowed(origin, log) && View() == Replay(origin, log)
    }

    lemma ViewTracked()
      requires Valid()
      ensures Tracked(View())
    {
      RunKeepsTracked(origin, log);
    }

    /** The effect of one system call. */
    method Change(op: Op)
      modifies `table, `daemons, `pidFiles, `dirs
      ensures View() == Do(old(View()), op)
    {
      match op {
        case MakeDir(dir) =>
          dirs := dirs + {dir};
        case Spawn(pid, daemon, pidFile) =>
          daemons := daemons[pid := daemon];
          if pidFile {
            pidFiles := pidFiles[daemon.home := pid];
          }
        case StopPid(path, killed) =>
          if killed && path in pidFiles {
            daemons := daemons - {pidFiles[path]};
          }
          pidFiles := pidFiles - {path};
        case RemoveDir(dir) =>
          dirs := dirs - {dir};
          pidFiles := map path | path in pidFiles && path.dir != dir :: pidFiles[path];
        case Install(next, listed) =>
          table := Some(Loaded(table, next, listed));
      }
    }

    /** One system call, which must be allowed where it is made. */
    method Perform(op: Op)
      requires Valid() && Allowed(View(), op)
      modifies this
      ensures Valid() && origin == old(origin) && log == old(log) + [op]
      ensures AllClean(origin, log) <==> old(AllClean(origin, log)) && Clean(old(View()), op)
      ensures View() == Do(old(View()), op)
    {
      RunSnoc(origin, log, op);
      Change(op);
      log := log + [op];
    }

    /** One round of the start loop. */
    method StartOne(ghost h0: Host, w: World, profiles: seq<Staged>, i: nat) returns (ok: bool)
      requires Valid() && Ground(h0, w, profiles) && InPhase(h0, View(), w, profiles, Phase(0, i, false)) && i < |profiles|
      modifies this
      ensures Valid() && origin == old(origin) && old(log) <= log
      ensures AllClean(origin, log) <==> old(AllClean(origin, log))
      ensures ok <==> w.start(i).Started?
      ensures InPhase(h0, View(), w, profiles, Reached(w, ok, if ok then i + 1 else i))
    {
      ok := w.start(i).Started?;
      if !w.start(i).Refused? {
        var tracked := ok || w.start(i).Abandoned?;
        NextStartAllowed(h0, View(), w, profiles, i, tracked);
        PhaseStarts(h0, View(), w, profiles, i, tracked);
        Perform(Spawn(w.pid(i), NewDaemon(w, profiles, i), tracked));
      }
    }

    /** `startDNSRollout`; `count` daemons were started in order. */
    method StartRollout(w: World, profiles: seq<Staged>) returns (ok: bool, count: nat)
      requires Valid() && Ground(View(), w, profiles)
      modifies this
      ensures Valid() && origin == old(origin) && old(log) <= log
      ensures AllClean(origin, log) <==> old(AllClean(origin, log))
      ensures count <= |profiles| && AllStart(w, count)
      ensures ok == (count == |profiles|) && (!ok ==> !w.start(count).Started?)
      ensures InPhase(old(View()), View(), w, profiles, Reached(w, ok, count))
    {
      ghost var h0 := View();
      PhaseBegins(h0, w, profiles);
      ok, count := true, 0;
      while ok && count < |profiles|
        invariant Valid() && origin == old(origin) && old(log) <= log
        invariant AllClean(origin, log) <==> old(AllClean(origin, log))
        invariant count <= |profiles| && AllStart(w, count)
        invariant !ok ==> count < |profiles| && !w.start(count).Started?
        invariant InPhase(h0, View(), w, profiles, Reached(w, ok, count))
        decreases |profiles| - count, ok
      {
        ok := StartOne(h0, w, profiles, count);
        if ok {
          count := count + 1;
        }
      }
    }

    method StopOne(ghost h0: Host, w: World, profiles: seq<Staged>, i: nat, ghost ph: Phase)
      requires Valid() && Ground(h0, w, profiles) && InPhase(h0, View(), w, profiles, ph)
      requires ph.lo == if i < ph.hi then i else ph.hi
      modifies this
      ensures Valid() && origin == old(origin) && old(log) <= log
      ensures AllClean(origin, log) <==> old(AllClean(origin, log))
      ensures InPhase(h0, View(), w, profiles, ph.(lo := if i < ph.hi then i + 1 else ph.hi))
    {
      var path := PidPath(w.Dir(), i);
      PhaseStopsAt(h0, View(), w, profiles, ph, i);
      if path in pidFiles {
        Perform(StopPid(path, w.kill(path)));
      }
    }

    /** `stopDNSRollout`. */
    method StopRollout(ghost h0: Host, w: World, profiles: seq<Staged>, ghost ph: Phase)
      requires Valid() && Ground(h0, w, profiles) && InPhase(h0, View(), w, profiles, ph) && ph.lo == 0
      modifies this
      ensures Valid() && origin == old(origin) && old(log) <= log
      ensures AllClean(origin, log) <==> old(AllClean(origin, log))
      ensures InPhase(h0, View(), w, profiles, ph.(lo := ph.hi))
    {
      for i := 0 to |profiles|
        invariant Valid() && origin == old(origin) && old(log) <= log
        invariant AllClean(origin, log) <==> old(AllClean(origin, log))
        invariant InPhase(h0, View(), w, profiles, ph.(lo := if i < ph.hi then i else ph.hi))
      {
        StopOne(h0, w, profiles, i, ph.(lo := if i < ph.hi then i else ph.hi));
      }
    }

    method StopOldPid(ghost h0: Host, w: World, keep: Dir, ghost todo: set<PidPath>, path: PidPath)
      requires Valid() && Tracked(h0) && Cleared(h0, View(), w, keep, todo) && InUse(View(), keep)
      requires path in todo && path in h0.pidFiles && path.dir != keep
      modifies this
      ensures Valid() && origin == old(origin) && old(log) <= log
      ensures AllClean(origin, log) <==> old(AllClean(origin, log))
      ensures Cleared(h0, View(), w, keep, todo - {path}) && dirs == old(dirs)
    {
      ClearOne(h0, View(), w, keep, todo, path);
      Perform(StopPid(path, w.kill(path)));
    }

    method StopOldPids(w: World, keep: Dir)
      requires Valid() && InUse(View(), keep)
      modifies this
      ensures Valid() && origin == old(origin) && old(log) <= log
      ensures AllClean(origin, log) <==> old(AllClean(origin, log))
      ensures Cleared(old(View()), View(), w, keep, {}) && dirs == old(dirs)
    {
      ghost var h0 := View();
      ViewTracked();
      var todo := set path | path in pidFiles && path.dir != keep;
      ClearingBegins(h0, w, keep, todo);
      while todo != {}
        invariant Valid() && origin == old(origin) && old(log) <= log
        invariant AllClean(origin, log) <==> old(AllClean(origin, log))
        invariant Cleared(h0, View(), w, keep, todo) && dirs == h0.dirs
        invariant forall path :: path in todo ==> path in h0.pidFiles && path.dir != keep
        decreases todo
      {
        var path :| path in todo;
        StopOldPid(h0, w, keep, todo, path);
        todo := todo - {path};
      }
    }

    /** `stopOldDNSExcept`. */
    method StopOldExcept(w: World, keep: Dir)
      requires Valid() && InUse(View(), keep)
      modifies this
      ensures Valid() && origin == old(origin) && old(log) <= log
      ensures AllClean(origin, log) <==> old(AllClean(origin, log))
      ensures Cleared(old(View()), View(), w, keep, {})
      ensures dirs == set d | d in old(dirs) && (d == keep || d.Root? || !w.remove(d))
    {
      StopOldPids(w, keep);
      RemoveDirs(set d | d in dirs && d.Generation? && d != keep && w.remove(d));
    }

    method RemoveDirs(stale: set<Dir>)
      requires Valid() && forall d :: d in stale ==> d != Root && !InUse(View(), d)
      requires forall path :: path in pidFiles ==> path.dir !in stale
      modifies this
      ensures Valid() && origin == old(origin) && old(log) <= log
      ensures AllClean(origin, log) <==> old(AllClean(origin, log))
      ensures View() == old(View()).(dirs := old(dirs) - stale)
    {
      var left := stale;
      while left != {}
        invariant Valid() && origin == old(origin) && old(log) <= log
        invariant AllClean(origin, log) <==> old(AllClean(origin, log))
        invariant left <= stale && View() == old(View()).(dirs := old(dirs) - (stale - left))
        decreases left
      {
        var dir :| dir in left;
        Perform(RemoveDir(dir));
        assert pidFiles == old(pidFiles);
        left := left - {dir};
      }
    }

    /** A configuration that cannot be completed takes its directory with it. */
    method StageInto(w: World, profiles: map<string, Profile>, bridge: string, macs: seq<string>) returns (r: Option<seq<Staged>>)
      requires Valid() && Probe(w.free) && Lists(macs, profiles) && w.Dir() !in dirs
      modifies this
      ensures Valid() && origin == old(origin) && old(log) <= log
      ensures AllClean(origin, log) <==> old(AllClean(origin, log))
      ensures r.Some? <==> Allocate(w.free, w.firstPort, |macs|).Some? && AllWrite(w, |macs|)
      ensures r.Some? ==> StagedFrom(w, profiles, bridge, r.value)
      ensures if r.Some? then View() == Do(old(View()), MakeDir(w.Dir())) else RolledBack(old(View()), View(), w)
    {
      ViewTracked();
      DirUnmade(View(), w.Dir());
      Perform(MakeDir(w.Dir()));
      r := StageAll(w, profiles, bridge, macs);
      if r.None? {
        Unmake(w);
      }
    }

    /** `os.RemoveAll` on the new generation's directory. */
    method Unmake(w: World)
      requires Valid() && w.Dir() != Root && !InUse(View(), w.Dir())
      modifies this
      ensures Valid() && origin == old(origin) && old(log) <= log
      ensures AllClean(origin, log) <==> old(AllClean(origin, log))
      ensures View() == Unmade(w, old(View()))
    {
      if w.remove(w.Dir()) {
        Perform(RemoveDir(w.Dir()));
      }
    }

    /** `prepareDNSRollout`. */
    method Prepare(w: World, profiles: map<string, Profile>, bridge: string) returns (r: Option<seq<Staged>>)
      requires Valid() && Probe(w.free) && w.firstPort <= MAX_PORT && w.Dir() !in dirs
      modifies this
      ensures Valid() && origin == old(origin) && old(log) <= log
      ensures AllClean(origin, log) <==> old(AllClean(origin, log))
      ensures r.Some? <==> CanStage(w, profiles)
      ensures r.Some? ==> StagedFrom(w, profiles, bridge, r.value)
      ensures if r.Some? then View() == Do(old(View()), MakeDir(w.Dir())) else RolledBack(old(View()), View(), w)
    {
      var macs := SortedMacs(profiles);
      var ok := CheckUpstreams(profiles, macs);
      if !ok || !w.tempDir {
        return None;
      }
      AllocationSucceedsIff(w.free, w.firstPort, |macs|);
      r := StageInto(w, profiles, bridge, macs);
    }

    /** The error path of `apply`: stop what was started and drop the directory. */
    method Rollback(ghost h0: Host, ghost h1: Host, w: World, profiles: seq<Staged>, ghost ph: Phase)
      requires Valid() && Tracked(h0) && w.Dir() !in h0.dirs && h1 == Do(h0, MakeDir(w.Dir())) && Ground(h1, w, profiles)
      requires InPhase(h1, View(), w, profiles, ph) && ph.lo == 0 && (ph.stray ==> w.start(ph.hi).Untracked?)
      modifies this
      ensures Valid() && origin == old(origin) && old(log) <= log
      ensures AllClean(origin, log) <==> old(AllClean(origin, log))
      ensures RolledBack(h0, View(), w)
    {
      StopRollout(h1, w, profiles, ph);
      PhaseUndone(h0, h1, View(), w, profiles, ph.(lo := ph.hi));
      Unmake(w);
    }

    /** `replaceNftTable`, and on success the clearing away of older generations. */
    method Replace(ghost h0: Host, ghost h1: Host, w: World, profiles: seq<Staged>, t: Table) returns (ok: bool)
      requires Valid() && Tracked(h0) && w.Dir() !in h0.dirs && h1 == Do(h0, MakeDir(w.Dir())) && Ground(h1, w, profiles)
      requires InPhase(h1, View(), w, profiles, Phase(0, |profiles|, false)) && t.prerouting == Redirects(profiles)
      modifies this
      ensures Valid() && origin == old(origin) && old(log) <= log
      ensures AllClean(origin, log) <==> old(AllClean(origin, log)) && (ok ==> SwapsCleanly(h0.table, w.listed))
      ensures ok <==> w.load && Loadable(t)
      ensures if ok then RolledOut(h0, View(), w, t, profiles) else RolledBack(h0, View(), w)
    {
      ok := w.load && Loadable(t);
      if ok {
        ghost var h2 := View();
        ReadyToInstall(h1, h2, w, profiles, t);
        Perform(Install(Installed(w.Dir(), t), w.listed));
        StopOldExcept(w, w.Dir());
        PhaseReplaced(h0, h1, h2, View(), w, t, profiles);
      } else {
        Rollback(h0, h1, w, profiles, Phase(0, |profiles|, false));
      }
    }

    /** The second half of `apply`, from the staged generation on. */
    method Launch(ghost h0: Host, w: World, d: Draft, profiles: seq<Staged>, bridge: string) returns (ok: bool)
      requires Valid() && Tracked(h0) && w.Dir() !in h0.dirs && View() == Do(h0, MakeDir(w.Dir())) && Ground(View(), w, profiles)
      modifies this
      ensures Valid() && origin == old(origin) && old(log) <= log
      ensures AllClean(origin, log) <==> old(AllClean(origin, log)) && (ok ==> SwapsCleanly(h0.table, w.listed))
      ensures ok <==> AllStart(w, |profiles|) && w.load && Loadable(TableOf(d, profiles, bridge))
      ensures if ok then RolledOut(h0, View(), w, TableOf(d, profiles, bridge), profiles) else RolledBack(h0, View(), w)
    {
      ghost var h1 := View();
      var started, count := StartRollout(w, profiles);
      if !started {
        NotAllStart(w, count, |profiles|);
        Rollback(h0, h1, w, profiles, Broken(w, count));
        return false;
      }
      var t := BuildTable(d, profiles, bridge);
      ok := Replace(h0, h1, w, profiles, t);
    }

    /** Prepare, start, swap and stop, or roll back. */
    method Deploy(w: World, d: Draft, bridge: string) returns (staged: Option<seq<Staged>>, ok: bool)
      requires Valid() && Truthful(w, View())
      modifies this
      ensures Valid() && origin == old(origin) && old(log) <= log
      ensures AllClean(origin, log) <==> old(AllClean(origin, log)) && (ok ==> SwapsCleanly(old(table), w.listed))
      ensures (staged.Some? <==> CanStage(w, d.profiles)) && (ok ==> staged.Some?)
      ensures staged.Some? ==> StagedFrom(w, d.profiles, bridge, staged.value)
      ensures staged.Some? ==> (ok <==> AllStart(w, |d.profiles|) && w.load && Loadable(TableOf(d, staged.value, bridge)))
      ensures if ok then RolledOut(old(View()), View(), w, TableOf(d, staged.value, bridge), staged.value)
              else RolledBack(old(View()), View(), w)
    {
      ghost var h0 := View();
      ViewTracked();
      staged := Prepare(w, d.profiles, bridge);
      if staged.None? {
        return staged, false;
      }
      GroundReady(h0, w, d.profiles, bridge, staged.value);
      StagedIsStages(w, d, bridge, staged.value);
      ok := Launch(h0, w, d, staged.value, bridge);
    }

    /** `apply` from the compiled draft on. */
    method ApplyDraft(w: World, d: Draft, configured: string) returns (r: Outcome)
      requires Valid() && Truthful(w, View())
      modifies this
      ensures Valid() && origin == old(origin) && old(log) <= log
      ensures AllClean(origin, log) <==> old(AllClean(origin, log)) && (r.Applied? ==> SwapsCleanly(old(table), w.listed))
      ensures CanRun(w, d.profiles) || r.Failed?
      ensures CanRun(w, d.profiles) ==> exists staged, bridge ::
        StagedFrom(w, d.profiles, bridge, staged) && (r.Applied? <==> w.load && Loadable(TableOf(d, staged, bridge)))
      ensures Ends(old(View()), View(), w, d, configured, r)
    {
      if |d.profiles| > 0 && !w.hasDnsmasq {
        assert d.profiles != map[];
        return Failed;
      }
      var bridge := ChooseBridge(w, d.profiles, configured);
      var staged, ok := Deploy(w, d, bridge);
      return if ok then Applied(staged.value, bridge) else Failed;
    }

    /**
     * `apply`, in any state that allowed operations reach, so also after a rollout that was cut short.
     * The operations it performs are allowed, so every state on the way is tracked; and from a sound state each is
     * sound, if and only if the call fails or its swap leaves no redirect of the old table in force.
     */
    method Apply(w: World, syntax: Syntax, policies: seq<Policy>, configured: string) returns (r: Outcome)
      requires Valid() && Truthful(w, View())
      modifies this
      ensures Valid() && origin == old(origin) && old(log) <= log
      ensures AllClean(origin, log) <==> old(AllClean(origin, log)) && (r.Applied? ==> SwapsCleanly(old(table), w.listed))
      ensures r.Applied? <==> Applies(w, syntax, policies)
      ensures Ends(old(View()), View(), w, Accumulate(syntax, Bindings(policies)), configured, r)
    {
      if !w.stateDir {
        return Failed;
      }
      var draft := Compile(syntax, policies);
      if draft.None? {
        return Failed;
      }
      r := ApplyDraft(w, draft.value, configured);
      if CanRun(w, draft.value.profiles) {
        ghost var staged, bridge :| StagedFrom(w, draft.value.profiles, bridge, staged)
          && (r.Applied? <==> w.load && Loadable(TableOf(draft.value, staged, bridge)));
        LoadableIff(syntax, policies, staged, bridge);
      }
    }
  }

  lemma {:induction false} NotAllStart(w: World, i: nat, n: nat)
    requires i < n && !w.start(i).Started?
    ensures !AllStart(w, n)
  {
    if i < n - 1 {
      NotAllStart(w, i, n - 1);
    }
  }
}
