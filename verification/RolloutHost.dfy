/**
 * The host as the rollout sees it: the installed nftables table, the running dnsmasq daemons, their pid files and
 * the generation directories. Every system call of a rollout is one operation; a rollout may be cut short after any of them.
 */
module RolloutHost {
  import opened Text
  import opened NetworkPolicy
  import opened PolicyTable

  /** The state directory itself, where an older agent kept its files, and the directories made below it. */
  datatype Dir = Root | Generation(id: nat)

  datatype PidPath = PidPath(dir: Dir, index: nat)

  datatype Daemon = Daemon(home: PidPath, profile: Staged)

  datatype Installed = Installed(generation: Dir, table: Table)

  datatype Host = Host(table: Option<Installed>, daemons: map<nat, Daemon>, pidFiles: map<PidPath, nat>, dirs: set<Dir>)

  datatype Op =
    | MakeDir(dir: Dir)
    | Spawn(pid: nat, daemon: Daemon, pidFile: bool)
    | StopPid(path: PidPath, killed: bool)
    | RemoveDir(dir: Dir)
    | Install(next: Installed, listed: bool)

  /** Rules that nft adds to the chains of a table that is already there stand behind those. */
  function Appended(a: Table, b: Table): Table {
    Table(a.forward + b.forward, a.input + b.input, a.prerouting + b.prerouting)
  }

  /** nft deletes the installed table first, or finds none, unless listing it failed. */
  predicate Replaces(table: Option<Installed>, listed: bool) {
    table.None? || listed
  }

  /** No redirect of an older table stays in force. */
  predicate SwapsCleanly(table: Option<Installed>, listed: bool) {
    Replaces(table, listed) || table.value.table.prerouting == []
  }

  function Loaded(table: Option<Installed>, next: Installed, listed: bool): Installed {
    if Replaces(table, listed) then next else Installed(next.generation, Appended(table.value.table, next.table))
  }

  function Do(h: Host, op: Op): Host {
    match op
    case MakeDir(dir) => h.(dirs := h.dirs + {dir})
    case Spawn(pid, daemon, pidFile) =>
      h.(daemons := h.daemons[pid := daemon], pidFiles := if pidFile then h.pidFiles[daemon.home := pid] else h.pidFiles)
    case StopPid(path, killed) =>
      h.(daemons := if killed && path in h.pidFiles then h.daemons - {h.pidFiles[path]} else h.daemons, pidFiles := h.pidFiles - {path})
    case RemoveDir(dir) =>
      h.(dirs := h.dirs - {dir}, pidFiles := map path | path in h.pidFiles && path.dir != dir :: h.pidFiles[path])
    case Install(next, listed) => h.(table := Some(Loaded(h.table, next, listed)))
  }

  /** A daemon of the generation that the table was built from answers on the port for the MAC. */
  ghost predicate Answers(daemons: map<nat, Daemon>, generation: Dir, r: Redirect) {
    exists pid :: pid in daemons && daemons[pid].home.dir == generation
      && daemons[pid].profile.mac == r.mac && daemons[pid].profile.port == r.port
  }

  ghost predicate Served(daemons: map<nat, Daemon>, t: Installed) {
    forall r :: r in t.table.prerouting ==> Answers(daemons, t.generation, r)
  }

  predicate InUse(h: Host, dir: Dir) {
    h.table.Some? && h.table.value.generation == dir
  }

  predicate PortTaken(h: Host, port: nat) {
    exists pid :: pid in h.daemons && h.daemons[pid].profile.port == port
  }

  /** What each operation may rely on and what the agent must see to. */
  ghost predicate Allowed(h: Host, op: Op) {
    match op
    case MakeDir(dir) => dir !in h.dirs
    case Spawn(pid, daemon, pidFile) =>
      pid > 1 && pid !in h.daemons && !PortTaken(h, daemon.profile.port) && daemon.home.dir in h.dirs && daemon.home !in h.pidFiles
    case StopPid(path, killed) => path in h.pidFiles && !InUse(h, path.dir)
    case RemoveDir(dir) => dir != Root && !InUse(h, dir)
    case Install(next, listed) => next.generation in h.dirs && !InUse(h, next.generation) && Served(h.daemons, next)
  }

  /** What holds between any two system calls. */
  ghost predicate Tracked(h: Host) {
    && (h.table.Some? ==> h.table.value.generation in h.dirs)
    && (forall path :: path in h.pidFiles ==> path.dir in h.dirs && Owns(h, path))
    && (forall p, q :: p in h.daemons && q in h.daemons && p != q ==> h.daemons[p].profile.port != h.daemons[q].profile.port)
    && Root in h.dirs
  }

  /** Besides, every redirect in force is served. */
  ghost predicate Sound(h: Host) {
    Tracked(h) && (h.table.Some? ==> Served(h.daemons, h.table.value))
  }

  predicate Clean(h: Host, op: Op) {
    op.Install? ==> SwapsCleanly(h.table, op.listed)
  }

  /** The pid file holds the pid of the daemon that was started with it. */
  predicate Owns(h: Host, path: PidPath)
    requires path in h.pidFiles
  {
    h.pidFiles[path] in h.daemons && h.daemons[h.pidFiles[path]].home == path
  }

  lemma StopPidKeepsTracked(h: Host, path: PidPath, killed: bool)
    requires Tracked(h) && Allowed(h, StopPid(path, killed))
    ensures Tracked(Do(h, StopPid(path, killed)))
  {
    var h' := Do(h, StopPid(path, killed));
    assert Owns(h, path);
    forall other | other in h'.pidFiles
      ensures other.dir in h'.dirs && Owns(h', other)
    {
      assert Owns(h, other);
    }
  }

  lemma SpawnKeepsTracked(h: Host, pid: nat, daemon: Daemon, pidFile: bool)
    requires Tracked(h) && Allowed(h, Spawn(pid, daemon, pidFile))
    ensures Tracked(Do(h, Spawn(pid, daemon, pidFile)))
  {
    var h' := Do(h, Spawn(pid, daemon, pidFile));
    forall path | path in h'.pidFiles
      ensures path.dir in h'.dirs && Owns(h', path)
    {
      if path in h.pidFiles {
        assert Owns(h, path);
      }
    }
  }

  /** Every allowed operation keeps pid files, ports and directories in order. */
  lemma AllowedKeepsTracked(h: Host, op: Op)
    requires Tracked(h) && Allowed(h, op)
    ensures Tracked(Do(h, op))
  {
    match op
    case Spawn(pid, daemon, pidFile) => SpawnKeepsTracked(h, pid, daemon, pidFile);
    case StopPid(path, killed) => StopPidKeepsTracked(h, path, killed);
    case _ =>
      var h' := Do(h, op);
      forall path | path in h'.pidFiles
        ensures path.dir in h'.dirs && Owns(h', path)
      {
        assert Owns(h, path);
      }
  }

  /** What answers a redirect goes on answering it, as long as the table's generation is left alone. */
  lemma StaysServed(h: Host, op: Op)
    requires Tracked(h) && Allowed(h, op) && !op.Install? && h.table.Some? && Served(h.daemons, h.table.value)
    ensures Served(Do(h, op).daemons, h.table.value)
  {
    var t, daemons := h.table.value, Do(h, op).daemons;
    forall r | r in t.table.prerouting
      ensures Answers(daemons, t.generation, r)
    {
      assert Answers(h.daemons, t.generation, r);
      var p :| p in h.daemons && h.daemons[p].home.dir == t.generation
        && h.daemons[p].profile.mac == r.mac && h.daemons[p].profile.port == r.port;
      assert op.StopPid? ==> Owns(h, op.path);
      assert p in daemons && daemons[p] == h.daemons[p];
    }
  }

  /** No daemon of the new generation holds the port of a redirect that the old one serves. */
  lemma OldRedirectUnserved(h: Host, next: Installed, listed: bool, r: Redirect)
    requires Sound(h) && Allowed(h, Install(next, listed)) && h.table.Some? && r in h.table.value.table.prerouting
    ensures !Answers(h.daemons, next.generation, r)
  {
    assert Answers(h.daemons, h.table.value.generation, r);
  }

  /** An operation keeps every redirect in force served if and only if it leaves none of an older table in force. */
  lemma SoundIffClean(h: Host, op: Op)
    requires Sound(h) && Allowed(h, op)
    ensures Sound(Do(h, op)) <==> Clean(h, op)
  {
    AllowedKeepsTracked(h, op);
    if !op.Install? {
      if h.table.Some? {
        StaysServed(h, op);
      }
    } else if Clean(h, op) {
      if h.table.Some? && !op.listed {
        assert [] + op.next.table.prerouting == op.next.table.prerouting;
      }
    } else {
      var r := h.table.value.table.prerouting[0];
      OldRedirectUnserved(h, op.next, op.listed, r);
      assert r in Do(h, op).table.value.table.prerouting;
    }
  }

  /** Whatever was left in force, a swap that lists the table first sets it right. */
  lemma ListedSwapRepairs(h: Host, next: Installed)
    requires Tracked(h) && Allowed(h, Install(next, true))
    ensures Sound(Do(h, Install(next, true)))
  {
    AllowedKeepsTracked(h, Install(next, true));
  }

  // ---- Runs ----

  function Replay(h: Host, ops: seq<Op>): Host {
    if ops == [] then h else Do(Replay(h, ops[..|ops| - 1]), ops[|ops| - 1])
  }

  ghost predicate AllAllowed(h: Host, ops: seq<Op>) {
    ops == [] || (AllAllowed(h, ops[..|ops| - 1]) && Allowed(Replay(h, ops[..|ops| - 1]), ops[|ops| - 1]))
  }

  /** A run that is cut short is a run. */
  lemma {:induction false} CutShort(h: Host, ops: seq<Op>, k: nat)
    requires AllAllowed(h, ops) && k <= |ops|
    ensures AllAllowed(h, ops[..k])
  {
    if k < |ops| {
      CutShort(h, ops[..|ops| - 1], k);
      assert ops[..|ops| - 1][..k] == ops[..k];
    } else {
      assert ops[..k] == ops;
    }
  }

  lemma {:induction false} RunKeepsTracked(h: Host, ops: seq<Op>)
    requires Tracked(h) && AllAllowed(h, ops)
    ensures Tracked(Replay(h, ops))
  {
    if ops != [] {
      RunKeepsTracked(h, ops[..|ops| - 1]);
      AllowedKeepsTracked(Replay(h, ops[..|ops| - 1]), ops[|ops| - 1]);
    }
  }

  ghost predicate AllClean(h: Host, ops: seq<Op>) {
    ops == [] || (AllClean(h, ops[..|ops| - 1]) && Clean(Replay(h, ops[..|ops| - 1]), ops[|ops| - 1]))
  }

  lemma {:induction false} CleanRunIsSound(h: Host, ops: seq<Op>)
    requires Sound(h) && AllAllowed(h, ops) && AllClean(h, ops)
    ensures Sound(Replay(h, ops))
  {
    if ops != [] {
      CleanRunIsSound(h, ops[..|ops| - 1]);
      SoundIffClean(Replay(h, ops[..|ops| - 1]), ops[|ops| - 1]);
    }
  }

  /** The first operation of a run that leaves an older table's redirects in force. */
  lemma {:induction false} FirstUnclean(h: Host, ops: seq<Op>) returns (k: nat)
    requires !AllClean(h, ops)
    ensures k < |ops| && AllClean(h, ops[..k]) && !Clean(Replay(h, ops[..k]), ops[k])
  {
    var init := ops[..|ops| - 1];
    if AllClean(h, init) {
      k := |ops| - 1;
    } else {
      k := FirstUnclean(h, init);
      assert init[..k] == ops[..k];
    }
  }

  lemma {:induction false} CleanCutShort(h: Host, ops: seq<Op>, k: nat)
    requires AllClean(h, ops) && k <= |ops|
    ensures AllClean(h, ops[..k])
  {
    if k < |ops| {
      CleanCutShort(h, ops[..|ops| - 1], k);
      assert ops[..|ops| - 1][..k] == ops[..k];
    } else {
      assert ops[..k] == ops;
    }
  }

  /**
   * In every state of a run each port that the installed table redirects to is served, if and only if
   * each swap in it listed the table, found none, or found one without redirects.
   */
  lemma EveryStateSoundIff(h: Host, ops: seq<Op>)
    requires Sound(h) && AllAllowed(h, ops)
    ensures (forall k :: 0 <= k <= |ops| ==> Sound(Replay(h, ops[..k]))) <==> AllClean(h, ops)
  {
    if AllClean(h, ops) {
      forall k | 0 <= k <= |ops|
        ensures Sound(Replay(h, ops[..k]))
      {
        CutShort(h, ops, k);
        CleanCutShort(h, ops, k);
        CleanRunIsSound(h, ops[..k]);
      }
    } else {
      var k := UncleanStep(h, ops);
      assert !Sound(Replay(h, ops[..k + 1]));
    }
  }

  /** Up to its first such swap a run is sound, and then it is not. */
  lemma UncleanStep(h: Host, ops: seq<Op>) returns (k: nat)
    requires Sound(h) && AllAllowed(h, ops) && !AllClean(h, ops)
    ensures k < |ops| && Sound(Replay(h, ops[..k])) && Allowed(Replay(h, ops[..k]), ops[k]) && !Clean(Replay(h, ops[..k]), ops[k])
    ensures Replay(h, ops[..k + 1]) == Do(Replay(h, ops[..k]), ops[k]) && !Sound(Replay(h, ops[..k + 1]))
  {
    k := FirstUnclean(h, ops);
    CutShort(h, ops, k);
    CutShort(h, ops, k + 1);
    assert ops[..k + 1][..k] == ops[..k];
    CleanRunIsSound(h, ops[..k]);
    SoundIffClean(Replay(h, ops[..k]), ops[k]);
  }

  lemma RunSnoc(h: Host, ops: seq<Op>, op: Op)
    requires AllAllowed(h, ops) && Allowed(Replay(h, ops), op)
    ensures AllAllowed(h, ops + [op]) && Replay(h, ops + [op]) == Do(Replay(h, ops), op)
    ensures AllClean(h, ops + [op]) <==> AllClean(h, ops) && Clean(Replay(h, ops), op)
  {
    assert (ops + [op])[..|ops|] == ops;
  }
}
