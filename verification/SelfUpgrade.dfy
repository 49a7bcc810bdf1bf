/**
 * The agent's self-upgrade: a lock file, a verified download, a backup copy, an atomic rename, a restart, and a
 * rollback when the restart fails. Every change of the file system is one step, and every step may fail.
 */
module SelfUpgrade {
  import opened Text

  newtype Byte = x: int | 0 <= x < 256
  type Bytes = seq<Byte>

  /** The file system as far as the upgrade touches it; temporary files have names of their own. */
  datatype Files = Files(binary: Option<Bytes>, backup: Option<Bytes>, lock: bool)

  datatype Result = Done | NothingToDo | InProgress | Error | RolledBack(running: bool) | RollbackFailed

  datatype Instruction = Instruction(available: bool, version: string, url: string, sha256: string, gzip: bool)

  /** What one run is asked to do, and how its surroundings answer. */
  datatype World = World(
    instruction: Instruction, currentVersion: string,
    urlAllowed: bool,               // https, and the panel's own origin
    maxDownload: nat, maxBinary: nat,
    openLock: bool,                 // the lock file can be created if it does not exist
    body: Option<Bytes>,            // the response, if there is one
    hash: Bytes -> string,          // SHA-256 in hexadecimal
    unpack: Bytes -> Option<Bytes>, // gunzip
    isExecutable: Bytes -> bool,    // an ELF program for this architecture
    writeTemp: bool,                // the temporary file can be written
    statBinary: bool,               // an existing binary is seen
    clearBackup: bool,              // the old backup can be removed
    openCopy: bool,                 // both files of the copy can be opened
    copied: Option<nat>,            // how many bytes are copied before an error, if there is one
    rename: bool, restart: bool,
    statBackup: bool, renameBack: bool, restartBack: bool,
    unlock: bool)                   // the lock file can be removed

  /** The checks before the lock is taken; no result means that the upgrade goes on. */
  function Precheck(w: World): Option<Result> {
    var i := w.instruction;
    if !i.available then Some(NothingToDo)
    else if i.version == "" then Some(Error)
    else if i.version == w.currentVersion then Some(NothingToDo)
    else if i.url == "" || i.sha256 == "" || !w.urlAllowed then Some(Error)
    else None
  }

  /** The new program, if it downloads and passes every check. */
  function Payload(w: World): (bytes: Option<Bytes>)
    ensures bytes.Some? ==> |bytes.value| <= w.maxBinary && w.isExecutable(bytes.value)
  {
    if w.body.None? || |w.body.value| > w.maxDownload then None
    else if AsciiLower(w.hash(w.body.value)) != AsciiLower(w.instruction.sha256) then None
    else
      var bytes := if w.instruction.gzip then w.unpack(w.body.value) else w.body;
      if bytes.None? || |bytes.value| > w.maxBinary || !w.isExecutable(bytes.value) then None else bytes
  }

  /**
   * The program is the response of this run or, if it comes packed, what that unpacks to; the response is within its
   * limit and has the hash that the instruction names, and the program is within its own and executable.
   */
  predicate Verified(w: World, program: Bytes) {
    && w.body.Some? && |w.body.value| <= w.maxDownload
    && SameUpToCase(w.hash(w.body.value), w.instruction.sha256)
    && (if w.instruction.gzip then w.unpack(w.body.value) == Some(program) else w.body.value == program)
    && |program| <= w.maxBinary && w.isExecutable(program)
  }

  lemma PayloadIsVerified(w: World, program: Bytes)
    ensures Payload(w) == Some(program) <==> Verified(w, program)
  {
    if w.body.Some? {
      LowerIsCaseless(w.hash(w.body.value), w.instruction.sha256);
    }
  }

  // ---- One run, step by step ----

  datatype Phase =
    | Begin
    | Locked
    | Staged(next: Bytes)    // the new program is in a temporary file
    | Cleared(next: Bytes)   // the old backup has been removed
    | Ready(next: Bytes)     // the backup has been made, or there was nothing to back up
    | Replaced
    | Restored
    | Leaving(result: Result)
    | Finished(result: Result)
  {
    /** Between taking the lock and releasing it. */
    predicate Inside() {
      !Begin? && !Finished?
    }
  }

  function Prefix(s: Bytes, n: nat): Bytes {
    if n < |s| then s[..n] else s
  }

  function Next(f: Files, p: Phase, w: World): (Files, Phase) {
    match p
    case Begin =>
      if Precheck(w).Some? then (f, Finished(Precheck(w).value))
      else if f.lock then (f, Finished(InProgress))
      else if !w.openLock then (f, Finished(Error))
      else (f.(lock := true), Locked)
    case Locked =>
      if Payload(w).None? || !w.writeTemp then (f, Leaving(Error)) else (f, Staged(Payload(w).value))
    case Staged(next) =>
      if f.binary.Some? && w.statBinary then (if w.clearBackup then f.(backup := None) else f, Cleared(next))
      else (f, Ready(next))
    case Cleared(next) =>
      if f.binary.None? || !w.openCopy then (f, Leaving(Error))
      else if w.copied.Some? then (f.(backup := Some(Prefix(f.binary.value, w.copied.value))), Leaving(Error))
      else (f.(backup := f.binary), Ready(next))
    case Ready(next) =>
      if w.rename then (f.(binary := Some(next)), Replaced) else (f, Leaving(Error))
    case Replaced =>
      if w.restart then (f, Leaving(Done))
      else if f.backup.None? || !w.statBackup || !w.renameBack then (f, Leaving(RollbackFailed))
      else (f.(binary := f.backup, backup := None), Restored)
    case Restored => (f, Leaving(RolledBack(w.restartBack)))
    case Leaving(result) => (if w.unlock then f.(lock := false) else f, Finished(result))
    case Finished(_) => (f, p)
  }

  /** Steps left at most. */
  function Rank(p: Phase): nat {
    match p
    case Begin => 8 case Locked => 7 case Staged(_) => 6 case Cleared(_) => 5 case Ready(_) => 4
    case Replaced => 3 case Restored => 2 case Leaving(_) => 1 case Finished(_) => 0
  }

  /** The file system after each further step of an undisturbed run. */
  function Trace(f: Files, p: Phase, w: World): seq<Files>
    decreases Rank(p)
  {
    if p.Finished? then [] else
    var (f', p') := Next(f, p, w);
    [f'] + Trace(f', p', w)
  }

  /** Where an undisturbed run ends. */
  function Final(f: Files, p: Phase, w: World): (r: (Files, Result))
    decreases Rank(p)
  {
    if p.Finished? then (f, p.result) else
    var (f', p') := Next(f, p, w);
    Final(f', p', w)
  }

  // ---- Any number of runs, interleaved ----

  /** The shared file system and the phase of each run. */
  datatype System = System(files: Files, phases: seq<Phase>)

  function Move(s: System, worlds: seq<World>, i: nat): System
    requires i < |s.phases| == |worlds|
  {
    var (f, p) := Next(s.files, s.phases[i], worlds[i]);
    System(f, s.phases[i := p])
  }

  predicate Names(moves: seq<nat>, n: nat) {
    forall k :: 0 <= k < |moves| ==> moves[k] < n
  }

  function Schedule(s: System, worlds: seq<World>, moves: seq<nat>): (r: System)
    requires |s.phases| == |worlds| && Names(moves, |worlds|)
    ensures |r.phases| == |worlds|
  {
    if moves == [] then s
    else Move(Schedule(s, worlds, moves[..|moves| - 1]), worlds, moves[|moves| - 1])
  }

  ghost predicate AllBegin(s: System) {
    !s.files.lock && forall i :: 0 <= i < |s.phases| ==> s.phases[i].Begin?
  }

  ghost predicate Exclusive(s: System) {
    && (forall i :: 0 <= i < |s.phases| && s.phases[i].Inside() ==> s.files.lock)
    && (forall i, j :: 0 <= i < |s.phases| && 0 <= j < |s.phases| && s.phases[i].Inside() && s.phases[j].Inside() ==> i == j)
  }

  /** The lock is held by a run inside, or was left by a run that could not remove it. */
  ghost predicate LockAccounted(s: System, worlds: seq<World>)
    requires |s.phases| == |worlds|
  {
    s.files.lock ==> exists i :: 0 <= i < |worlds| && (s.phases[i].Inside() || (s.phases[i].Finished? && !worlds[i].unlock))
  }

  lemma MoveExclusive(s: System, worlds: seq<World>, i: nat)
    requires i < |s.phases| == |worlds| && Exclusive(s) && LockAccounted(s, worlds)
    ensures Exclusive(Move(s, worlds, i)) && LockAccounted(Move(s, worlds, i), worlds)
  {
    var s' := Move(s, worlds, i);
    if s'.files.lock {
      if s.files.lock {
        var j :| 0 <= j < |worlds| && (s.phases[j].Inside() || (s.phases[j].Finished? && !worlds[j].unlock));
        assert s'.phases[j].Inside() || (s'.phases[j].Finished? && !worlds[j].unlock);
      } else {
        assert s'.phases[i].Inside();
      }
    }
  }

  /**
   * In every interleaving at most one run is between taking and releasing the lock, and whenever no run is there, the
   * lock is free, unless some finished run could not remove it.
   */
  lemma {:induction false} MutualExclusion(s: System, worlds: seq<World>, moves: seq<nat>)
    requires |s.phases| == |worlds| && AllBegin(s) && Names(moves, |worlds|)
    ensures Exclusive(Schedule(s, worlds, moves)) && LockAccounted(Schedule(s, worlds, moves), worlds)
  {
    if moves != [] {
      MutualExclusion(s, worlds, moves[..|moves| - 1]);
      MoveExclusive(Schedule(s, worlds, moves[..|moves| - 1]), worlds, moves[|moves| - 1]);
    }
  }

  /** While one run is inside, a step of any other leaves the files alone. */
  lemma OthersLeaveFilesAlone(s: System, worlds: seq<World>, moves: seq<nat>, i: nat, j: nat)
    requires |s.phases| == |worlds| && AllBegin(s) && Names(moves, |worlds|)
    requires i < |worlds| && j < |worlds| && i != j && Schedule(s, worlds, moves).phases[i].Inside()
    ensures Move(Schedule(s, worlds, moves), worlds, j).files == Schedule(s, worlds, moves).files
  {
    MutualExclusion(s, worlds, moves);
  }

  /** The system after the first k moves. */
  function After(s: System, worlds: seq<World>, moves: seq<nat>, k: nat): (r: System)
    requires |s.phases| == |worlds| && Names(moves, |worlds|) && k <= |moves|
    ensures |r.phases| == |worlds|
  {
    Schedule(s, worlds, moves[..k])
  }

  lemma AfterNext(s: System, worlds: seq<World>, moves: seq<nat>, k: nat)
    requires |s.phases| == |worlds| && Names(moves, |worlds|) && k < |moves|
    ensures After(s, worlds, moves, k + 1) == Move(After(s, worlds, moves, k), worlds, moves[k])
  {
    assert moves[..k + 1][..k] == moves[..k];
  }

  /** The k-th move takes run i past the lock. */
  predicate Enters(s: System, worlds: seq<World>, moves: seq<nat>, i: nat, k: nat)
    requires |s.phases| == |worlds| && Names(moves, |worlds|) && i < |worlds|
  {
    k < |moves| && moves[k] == i && After(s, worlds, moves, k).phases[i].Begin? && After(s, worlds, moves, k + 1).phases[i].Inside()
  }

  /** If run i is past the lock, what is still to come for it ends like this. */
  predicate OnCourse(s: System, worlds: seq<World>, i: nat, goal: (Files, Result))
    requires i < |s.phases| == |worlds|
  {
    !s.phases[i].Begin? && (s.phases[i].Inside() ==> Final(s.files, s.phases[i], worlds[i]) == goal)
  }

  lemma MoveKeepsCourse(s: System, worlds: seq<World>, i: nat, j: nat, goal: (Files, Result))
    requires i < |s.phases| == |worlds| && j < |worlds| && Exclusive(s) && OnCourse(s, worlds, i, goal)
    ensures OnCourse(Move(s, worlds, j), worlds, i, goal)
  {
    if i != j && s.phases[i].Inside() {
      assert !s.phases[j].Inside() && s.files.lock;
    }
  }

  lemma EntersOnCourse(s: System, worlds: seq<World>, i: nat)
    requires i < |s.phases| == |worlds| && s.phases[i].Begin? && Move(s, worlds, i).phases[i].Inside()
    ensures OnCourse(Move(s, worlds, i), worlds, i, Final(s.files, Begin, worlds[i]))
  {
  }

  lemma {:induction false} StaysOnCourse(s: System, worlds: seq<World>, moves: seq<nat>, i: nat, k: nat, m: nat, goal: (Files, Result))
    requires |s.phases| == |worlds| && AllBegin(s) && Names(moves, |worlds|) && i < |worlds| && k <= m <= |moves|
    requires OnCourse(After(s, worlds, moves, k), worlds, i, goal)
    ensures OnCourse(After(s, worlds, moves, m), worlds, i, goal)
  {
    if k < m {
      StaysOnCourse(s, worlds, moves, i, k, m - 1, goal);
      MutualExclusion(s, worlds, moves[..m - 1]);
      MoveKeepsCourse(After(s, worlds, moves, m - 1), worlds, i, moves[m - 1], goal);
      AfterNext(s, worlds, moves, m - 1);
    }
  }

  /**
   * In every interleaving each run that gets past the lock turns the files it finds there into the files that it
   * would leave if it ran alone, and ends with the same result.
   */
  lemma InterleavedRunIsUndisturbed(s: System, worlds: seq<World>, moves: seq<nat>, i: nat, k: nat, m: nat)
    requires |s.phases| == |worlds| && AllBegin(s) && Names(moves, |worlds|) && i < |worlds|
    requires Enters(s, worlds, moves, i, k) && k < m < |moves| && moves[m] == i
    requires After(s, worlds, moves, m).phases[i].Inside() && After(s, worlds, moves, m + 1).phases[i].Finished?
    ensures var t := After(s, worlds, moves, m + 1);
            (t.files, t.phases[i].result) == Final(After(s, worlds, moves, k).files, Begin, worlds[i])
  {
    AfterNext(s, worlds, moves, k);
    EntersOnCourse(After(s, worlds, moves, k), worlds, i);
    StaysOnCourse(s, worlds, moves, i, k + 1, m, Final(After(s, worlds, moves, k).files, Begin, worlds[i]));
    AfterNext(s, worlds, moves, m);
    var t := After(s, worlds, moves, m);
    assert Final(t.files, t.phases[i], worlds[i]) == Final(After(s, worlds, moves, m + 1).files, After(s, worlds, moves, m + 1).phases[i], worlds[i]);
  }

  /** A program that was there at first, or one that some run has downloaded and verified. */
  ghost predicate Good(worlds: seq<World>, first: Bytes, bytes: Bytes) {
    bytes == first || exists i :: 0 <= i < |worlds| && Verified(worlds[i], bytes)
  }

  ghost predicate PhaseSafe(f: Files, p: Phase, worlds: seq<World>, first: Bytes) {
    && (p.Staged? || p.Cleared? || p.Ready? ==> Good(worlds, first, p.next))
    && (p.Ready? || p.Replaced? ==> f.backup.Some? && Good(worlds, first, f.backup.value))
  }

  /** The binary is there and good, and whoever may still replace or restore it does so with something good. */
  ghost predicate Safe(s: System, worlds: seq<World>, first: Bytes) {
    && s.files.binary.Some? && Good(worlds, first, s.files.binary.value)
    && forall i :: 0 <= i < |s.phases| ==> PhaseSafe(s.files, s.phases[i], worlds, first)
  }

  lemma NextSafe(f: Files, p: Phase, w: World, worlds: seq<World>, first: Bytes)
    requires w in worlds && w.statBinary && f.binary.Some? && Good(worlds, first, f.binary.value) && PhaseSafe(f, p, worlds, first)
    ensures var (f', p') := Next(f, p, w);
            f'.binary.Some? && Good(worlds, first, f'.binary.value) && PhaseSafe(f', p', worlds, first)
  {
    if p.Locked? && Payload(w).Some? {
      PayloadIsVerified(w, Payload(w).value);
      assert Good(worlds, first, Payload(w).value);
    }
  }

  lemma MoveSafe(s: System, worlds: seq<World>, first: Bytes, i: nat)
    requires i < |s.phases| == |worlds| && Exclusive(s) && Safe(s, worlds, first) && worlds[i].statBinary
    ensures Safe(Move(s, worlds, i), worlds, first)
  {
    NextSafe(s.files, s.phases[i], worlds[i], worlds, first);
    forall j | 0 <= j < |s.phases| && j != i
      ensures PhaseSafe(Move(s, worlds, i).files, s.phases[j], worlds, first)
    {
      assert PhaseSafe(s.files, s.phases[j], worlds, first);
      assert s.phases[i].Inside() ==> !s.phases[j].Inside();
    }
  }

  /**
   * In every interleaving of any number of runs, if a binary exists at first and stat sees it, the binary path holds
   * at every step the first program or a payload that passed all checks.
   */
  lemma {:induction false} BinaryAlwaysGood(s: System, worlds: seq<World>, moves: seq<nat>, first: Bytes)
    requires |s.phases| == |worlds| && AllBegin(s) && Names(moves, |worlds|)
    requires s.files.binary == Some(first) && forall i :: 0 <= i < |worlds| ==> worlds[i].statBinary
    ensures Safe(Schedule(s, worlds, moves), worlds, first)
  {
    if moves != [] {
      var init := moves[..|moves| - 1];
      BinaryAlwaysGood(s, worlds, init, first);
      MutualExclusion(s, worlds, init);
      MoveSafe(Schedule(s, worlds, init), worlds, first, moves[|moves| - 1]);
    }
  }

  /** A beginning, or all, of a program that was there at first or that some run has verified. */
  ghost predicate KnownOrigin(f0: Files, worlds: seq<World>, bytes: Bytes) {
    exists program :: bytes <= program && Source(f0, worlds, program)
  }

  ghost predicate Source(f0: Files, worlds: seq<World>, program: Bytes) {
    f0.binary == Some(program) || f0.backup == Some(program) || exists i :: 0 <= i < |worlds| && Verified(worlds[i], program)
  }

  ghost predicate OriginsKnown(f0: Files, s: System, worlds: seq<World>) {
    && (s.files.binary.Some? ==> KnownOrigin(f0, worlds, s.files.binary.value))
    && (s.files.backup.Some? ==> KnownOrigin(f0, worlds, s.files.backup.value))
    && forall i :: 0 <= i < |s.phases| ==> ProgramKnown(f0, worlds, s.phases[i])
  }

  ghost predicate ProgramKnown(f0: Files, worlds: seq<World>, p: Phase) {
    p.Staged? || p.Cleared? || p.Ready? ==> KnownOrigin(f0, worlds, p.next)
  }

  lemma MoveKeepsOrigins(f0: Files, s: System, worlds: seq<World>, i: nat)
    requires i < |s.phases| == |worlds| && OriginsKnown(f0, s, worlds)
    ensures OriginsKnown(f0, Move(s, worlds, i), worlds)
  {
    var p, w := s.phases[i], worlds[i];
    assert ProgramKnown(f0, worlds, p);
    if p.Locked? && Payload(w).Some? {
      PayloadIsVerified(w, Payload(w).value);
      assert Source(f0, worlds, Payload(w).value);
      assert KnownOrigin(f0, worlds, Payload(w).value);
    } else if p.Cleared? && s.files.binary.Some? && w.copied.Some? {
      var program :| s.files.binary.value <= program && Source(f0, worlds, program);
      assert Prefix(s.files.binary.value, w.copied.value) <= program;
    }
    forall j | 0 <= j < |s.phases|
      ensures ProgramKnown(f0, worlds, Move(s, worlds, i).phases[j])
    {
      assert ProgramKnown(f0, worlds, s.phases[j]);
    }
  }

  /**
   * Even if stat fails to see the binary: in every interleaving the binary, like the backup, is a program that was
   * there at first or that some run has verified, or the beginning of one that a failed copy has left.
   */
  lemma {:induction false} BinaryHasKnownOrigin(s: System, worlds: seq<World>, moves: seq<nat>)
    requires |s.phases| == |worlds| && AllBegin(s) && Names(moves, |worlds|)
    ensures OriginsKnown(s.files, Schedule(s, worlds, moves), worlds)
  {
    if moves != [] {
      BinaryHasKnownOrigin(s, worlds, moves[..|moves| - 1]);
      MoveKeepsOrigins(s.files, Schedule(s, worlds, moves[..|moves| - 1]), worlds, moves[|moves| - 1]);
    } else {
      assert s.files.binary.Some? ==> Source(s.files, worlds, s.files.binary.value);
      assert s.files.backup.Some? ==> Source(s.files, worlds, s.files.backup.value);
    }
  }

  // ---- What one undisturbed run leaves behind ----

  /** The binary and the backup from the rename on. */
  lemma FinalFromReady(f: Files, next: Bytes, w: World)
    ensures var (f', r) := Final(f, Ready(next), w);
            f'.binary == (if !w.rename then f.binary
                          else if w.restart || f.backup.None? || !w.statBackup || !w.renameBack then Some(next)
                          else f.backup)
            && (r == Done <==> w.rename && w.restart)
            && (r.RolledBack? <==> w.rename && !w.restart && f.backup.Some? && w.statBackup && w.renameBack)
            && (r == RollbackFailed <==> w.rename && !w.restart && (f.backup.None? || !w.statBackup || !w.renameBack))
            && f'.lock == (f.lock && !w.unlock)
  {
    if !w.rename {
      FinalLeaving(f, Error, w);
    } else {
      var g := f.(binary := Some(next));
      if w.restart {
        FinalLeaving(g, Done, w);
      } else if g.backup.None? || !w.statBackup || !w.renameBack {
        FinalLeaving(g, RollbackFailed, w);
      } else {
        var h := g.(binary := g.backup, backup := None);
        FinalLeaving(h, RolledBack(w.restartBack), w);
        assert Final(g, Replaced, w) == Final(h, Restored, w);
      }
      assert Final(f, Ready(next), w) == Final(g, Replaced, w);
    }
  }

  lemma FinalLeaving(f: Files, r: Result, w: World)
    ensures Final(f, Leaving(r), w) == (if w.unlock then f.(lock := false) else f, r)
  {
    var (g, p) := Next(f, Leaving(r), w);
    assert Final(g, p, w) == (g, r);
  }

  /** The run makes a backup of the binary, as it should before replacing it. */
  predicate BacksUp(f: Files, w: World) {
    f.binary.Some? && w.statBinary
  }

  /** The backup that a rollback would restore. */
  function BackupAtRename(f: Files, w: World): Option<Bytes> {
    if BacksUp(f, w) then f.binary else f.backup
  }

  /** The copy to the backup works, or there is nothing to copy. */
  predicate CanBackUp(f: Files, w: World) {
    !BacksUp(f, w) || (w.openCopy && w.copied.None?)
  }

  lemma FinalFromStaged(f: Files, next: Bytes, w: World)
    ensures var (f', r) := Final(f, Staged(next), w);
            && (r.RolledBack? ==> f'.binary == BackupAtRename(f, w) && f'.binary.Some?)
            && (r == Done || r == RollbackFailed ==> f'.binary == Some(next))
            && (r == Error ==> f'.binary == f.binary)
            && (r == Done <==> CanBackUp(f, w) && w.rename && w.restart)
            && !r.NothingToDo? && !r.InProgress? && f'.lock == (f.lock && !w.unlock)
  {
    if BacksUp(f, w) {
      var g := if w.clearBackup then f.(backup := None) else f;
      assert Final(f, Staged(next), w) == Final(g, Cleared(next), w);
      if !w.openCopy {
        FinalLeaving(g, Error, w);
      } else if w.copied.Some? {
        FinalLeaving(g.(backup := Some(Prefix(f.binary.value, w.copied.value))), Error, w);
      } else {
        FinalFromReady(g.(backup := f.binary), next, w);
      }
    } else {
      assert Final(f, Staged(next), w) == Final(f, Ready(next), w);
      FinalFromReady(f, next, w);
    }
  }

  /** The whole run, from a free or a taken lock. */
  lemma FinalFromBegin(f: Files, w: World)
    ensures var (f', r) := Final(f, Begin, w);
            && (r.RolledBack? ==> f'.binary == BackupAtRename(f, w) && f'.binary.Some?)
            && (r == Done || r == RollbackFailed ==> Payload(w).Some? && f'.binary == Payload(w))
            && (r == Done <==> Precheck(w).None? && !f.lock && w.openLock && Payload(w).Some? && w.writeTemp
                               && CanBackUp(f, w) && w.rename && w.restart)
            && (r == Error || r == InProgress || r == NothingToDo ==> f'.binary == f.binary)
            && (f.lock ==> f' == f) && (!f.lock ==> (f'.lock ==> !w.unlock))
  {
    var (g, p) := Next(f, Begin, w);
    if p.Locked? {
      if Payload(w).None? || !w.writeTemp {
        FinalLeaving(g, Error, w);
        assert Final(g, Locked, w) == Final(g, Leaving(Error), w);
      } else {
        FinalFromStaged(g, Payload(w).value, w);
        assert Final(g, Locked, w) == Final(g, Staged(Payload(w).value), w);
      }
    } else {
      assert Final(g, p, w) == (g, p.result);
    }
  }

  /**
   * A run succeeds if and only if it has an offer, gets the lock, has downloaded a program that it can verify, and
   * every step works; then that program is installed.
   */
  lemma DoneIff(f: Files, w: World)
    ensures Final(f, Begin, w).1 == Done
       <==> Offers(w) && !f.lock && w.openLock && (exists program :: Verified(w, program))
            && w.writeTemp && CanBackUp(f, w) && w.rename && w.restart
    ensures Final(f, Begin, w).1 == Done ==> exists program :: Verified(w, program) && Final(f, Begin, w).0.binary == Some(program)
  {
    FinalFromBegin(f, w);
    if program :| Verified(w, program) {
      PayloadIsVerified(w, program);
    }
    if Payload(w).Some? {
      PayloadIsVerified(w, Payload(w).value);
    }
  }

  /** The backup that a run leaves which gets as far as replacing the binary. */
  function BackupLeft(f: Files, w: World): Option<Bytes> {
    if BacksUp(f, w) && !w.openCopy then (if w.clearBackup then None else f.backup)
    else if BacksUp(f, w) && w.copied.Some? then Some(Prefix(f.binary.value, w.copied.value))
    else if w.rename && !w.restart && w.statBackup && w.renameBack then None
    else BackupAtRename(f, w)
  }

  lemma BackupAfterReady(f: Files, next: Bytes, w: World)
    ensures Final(f, Ready(next), w).0.backup == if w.rename && !w.restart && w.statBackup && w.renameBack then None else f.backup
  {
    if !w.rename {
      FinalLeaving(f, Error, w);
    } else {
      var g := f.(binary := Some(next));
      if w.restart {
        FinalLeaving(g, Done, w);
      } else if g.backup.None? || !w.statBackup || !w.renameBack {
        FinalLeaving(g, RollbackFailed, w);
      } else {
        var h := g.(binary := g.backup, backup := None);
        FinalLeaving(h, RolledBack(w.restartBack), w);
        assert Final(g, Replaced, w) == Final(h, Restored, w);
      }
      assert Final(f, Ready(next), w) == Final(g, Replaced, w);
    }
  }

  /** The backup after a run: the old program unless the copy failed or was used up, and untouched if no program was staged. */
  lemma BackupAfterRun(f: Files, w: World)
    ensures Final(f, Begin, w).0.backup
         == if Offers(w) && !f.lock && w.openLock && (exists program :: Verified(w, program)) && w.writeTemp then BackupLeft(f, w) else f.backup
  {
    var (g, p) := Next(f, Begin, w);
    if program :| Verified(w, program) {
      PayloadIsVerified(w, program);
    }
    if p.Locked? {
      if Payload(w).None? || !w.writeTemp {
        FinalLeaving(g, Error, w);
        assert Final(g, Locked, w) == Final(g, Leaving(Error), w);
      } else {
        PayloadIsVerified(w, Payload(w).value);
        BackupAfterStaged(g, Payload(w).value, w);
        assert Final(g, Locked, w) == Final(g, Staged(Payload(w).value), w);
      }
    } else {
      assert Final(g, p, w) == (g, p.result);
    }
  }

  lemma BackupAfterStaged(f: Files, next: Bytes, w: World)
    ensures Final(f, Staged(next), w).0.backup == BackupLeft(f, w)
  {
    if BacksUp(f, w) {
      var g := if w.clearBackup then f.(backup := None) else f;
      assert Final(f, Staged(next), w) == Final(g, Cleared(next), w);
      if !w.openCopy {
        FinalLeaving(g, Error, w);
      } else if w.copied.Some? {
        FinalLeaving(g.(backup := Some(Prefix(f.binary.value, w.copied.value))), Error, w);
      } else {
        BackupAfterReady(g.(backup := f.binary), next, w);
      }
    } else {
      assert Final(f, Staged(next), w) == Final(f, Ready(next), w);
      BackupAfterReady(f, next, w);
    }
  }

  predicate IsFailure(r: Result) {
    r.InProgress? || r.Error? || r.RolledBack? || r.RollbackFailed?
  }

  /** The run gets as far as restoring a backup. */
  predicate Restores(f: Files, w: World) {
    && Precheck(w).None? && !f.lock && w.openLock && Payload(w).Some? && w.writeTemp
    && w.rename && !w.restart && w.statBackup && w.renameBack
  }

  /** The backup is not of this run's making. */
  predicate Stale(f: Files, w: World) {
    !w.statBinary && f.backup.Some? && f.backup != f.binary
  }

  /**
   * A run that fails, other than in its rollback, leaves the old program, unless stat does not see the binary, an
   * older backup of another program exists, and everything works but the restart.
   */
  lemma FailureKeepsOldIff(f: Files, w: World, current: Bytes)
    requires f.binary == Some(current)
    requires var r := Final(f, Begin, w).1; IsFailure(r) && !r.RollbackFailed?
    ensures Final(f, Begin, w).0.binary == Some(current) <==> !(Restores(f, w) && Stale(f, w))
  {
    FinalFromBegin(f, w);
    if Restores(f, w) && Stale(f, w) {
      StaleBackupComesBack(f, w, f.backup.value);
    } else if !Restores(f, w) {
      NoRestoreNoRollback(f, w);
    }
  }

  lemma NoRestoreNoRollback(f: Files, w: World)
    requires !Restores(f, w)
    ensures !Final(f, Begin, w).1.RolledBack?
  {
    var (g, p) := Next(f, Begin, w);
    if p.Locked? {
      if Payload(w).None? || !w.writeTemp {
        FinalLeaving(g, Error, w);
        assert Final(g, Locked, w) == Final(g, Leaving(Error), w);
      } else {
        StagedRestores(g, Payload(w).value, w);
        assert Final(g, Locked, w) == Final(g, Staged(Payload(w).value), w);
      }
    } else {
      assert Final(g, p, w) == (g, p.result);
    }
  }

  lemma StagedRestores(f: Files, next: Bytes, w: World)
    ensures Final(f, Staged(next), w).1.RolledBack? ==> w.rename && !w.restart && w.statBackup && w.renameBack
  {
    if BacksUp(f, w) {
      var g := if w.clearBackup then f.(backup := None) else f;
      assert Final(f, Staged(next), w) == Final(g, Cleared(next), w);
      if !w.openCopy {
        FinalLeaving(g, Error, w);
      } else if w.copied.Some? {
        FinalLeaving(g.(backup := Some(Prefix(f.binary.value, w.copied.value))), Error, w);
      } else {
        FinalFromReady(g.(backup := f.binary), next, w);
      }
    } else {
      assert Final(f, Staged(next), w) == Final(f, Ready(next), w);
      FinalFromReady(f, next, w);
    }
  }

  /** The instruction offers a program of another version, from an allowed address and with a checksum. */
  predicate Offers(w: World) {
    var i := w.instruction;
    i.available && i.version != "" && i.version != w.currentVersion && i.url != "" && i.sha256 != "" && w.urlAllowed
  }

  /** A run changes the file system at all if and only if it has such an offer and gets the lock. */
  lemma TouchesFilesIff(f: Files, w: World)
    ensures (exists g :: g in Trace(f, Begin, w) && g != f) <==> Offers(w) && !f.lock && w.openLock
  {
    var (g, p) := Next(f, Begin, w);
    assert Trace(f, Begin, w) == [g] + Trace(g, p, w);
    if Offers(w) && !f.lock && w.openLock {
      assert g in Trace(f, Begin, w) && g != f;
    } else {
      assert Trace(g, p, w) == [] && g == f;
    }
  }

  /** A run has nothing to do if and only if no upgrade is available or it is to the version that runs already. */
  lemma NothingToDoIff(f: Files, w: World)
    ensures Final(f, Begin, w).1 == NothingToDo
       <==> !w.instruction.available || (w.instruction.version != "" && w.instruction.version == w.currentVersion)
  {
    var (g, p) := Next(f, Begin, w);
    if p.Locked? {
      NeverNothingOnceLocked(g, w);
    } else {
      assert Final(g, p, w) == (g, p.result);
    }
  }

  /** A run reports that another is in progress if and only if it has an offer and finds the lock taken. */
  lemma InProgressIff(f: Files, w: World)
    ensures Final(f, Begin, w).1 == InProgress <==> Offers(w) && f.lock
  {
    var (g, p) := Next(f, Begin, w);
    if p.Locked? {
      NeverNothingOnceLocked(g, w);
    } else {
      assert Final(g, p, w) == (g, p.result);
    }
  }

  lemma NeverNothingOnceLocked(f: Files, w: World)
    ensures Final(f, Locked, w).1 != NothingToDo && Final(f, Locked, w).1 != InProgress
  {
    if Payload(w).None? || !w.writeTemp {
      FinalLeaving(f, Error, w);
      assert Final(f, Locked, w) == Final(f, Leaving(Error), w);
    } else {
      FinalFromStaged(f, Payload(w).value, w);
      assert Final(f, Locked, w) == Final(f, Staged(Payload(w).value), w);
    }
  }

  /** The runs that break the promise: unseen binary, an older backup, a failed restart. They bring the older backup back. */
  lemma StaleBackupComesBack(f: Files, w: World, stale: Bytes)
    requires !f.lock && f.binary.Some? && f.backup == Some(stale)
    requires Precheck(w).None? && w.openLock && Payload(w).Some? && w.writeTemp && !w.statBinary
    requires w.rename && !w.restart && w.statBackup && w.renameBack
    ensures Final(f, Begin, w) == (Files(Some(stale), None, !w.unlock), RolledBack(w.restartBack))
  {
    var next := Payload(w).value;
    var g := f.(lock := true);
    var h := g.(binary := Some(next));
    var k := h.(binary := Some(stale), backup := None);
    FinalLeaving(k, RolledBack(w.restartBack), w);
    assert Final(h, Replaced, w) == Final(k, Restored, w);
    assert Final(g, Staged(next), w) == Final(g, Ready(next), w);
    assert Final(f, Begin, w) == Final(g, Locked, w) == Final(g, Staged(next), w);
  }

  // ---- The run as the agent performs it ----

  /** From here the rest of the run, with its log, is that of the whole. */
  ghost predicate OnTrack(f0: Files, log0: seq<Files>, w: World, f: Files, log: seq<Files>, p: Phase) {
    log + Trace(f, p, w) == log0 + Trace(f0, Begin, w) && Final(f, p, w) == Final(f0, Begin, w)
  }

  lemma TraceStep(f: Files, p: Phase, w: World)
    requires !p.Finished?
    ensures var (f', p') := Next(f, p, w);
            Trace(f, p, w) == [f'] + Trace(f', p', w) && Final(f, p, w) == Final(f', p', w)
  {
  }

  lemma Advance(f0: Files, log0: seq<Files>, w: World, f: Files, log: seq<Files>, p: Phase)
    requires OnTrack(f0, log0, w, f, log, p) && !p.Finished?
    ensures OnTrack(f0, log0, w, Next(f, p, w).0, log + [Next(f, p, w).0], Next(f, p, w).1)
  {
    TraceStep(f, p, w);
    Regroup(log, Next(f, p, w).0, Trace(Next(f, p, w).0, Next(f, p, w).1, w));
  }

  lemma Regroup(log: seq<Files>, f: Files, rest: seq<Files>)
    ensures log + ([f] + rest) == (log + [f]) + rest
  {
  }

  class Runner {
    var binary: Option<Bytes>
    var backup: Option<Bytes>
    var lock: bool
    ghost var log: seq<Files>
    ghost var start: Files
    ghost var before: seq<Files>

    ghost function View(): Files
      reads this
    {
      Files(binary, backup, lock)
    }

    /** The run has come to this phase. */
    ghost predicate At(w: World, p: Phase)
      reads this
    {
      OnTrack(start, before, w, View(), log, p)
    }

    ghost predicate SameRun(s: Files, b: seq<Files>)
      reads this
    {
      start == s && before == b
    }

    /** Records that one step has been made. */
    ghost method Note(w: World, f: Files, p: Phase)
      requires OnTrack(start, before, w, f, log, p) && !p.Finished? && View() == Next(f, p, w).0
      modifies `log
      ensures At(w, Next(f, p, w).1)
    {
      Advance(start, before, w, f, log, p);
      log := log + [View()];
    }

    /** `acquireLock`. */
    method AcquireLock(w: World) returns (r: Option<Result>)
      requires Precheck(w).None? && At(w, Begin)
      modifies this
      ensures SameRun(old(start), old(before))
      ensures At(w, if r.Some? then Finished(r.value) else Locked)
    {
      ghost var f := View();
      if lock {
        r := Some(InProgress);
      } else if !w.openLock {
        r := Some(Error);
      } else {
        lock := true;
        r := None;
      }
      Note(w, f, Begin);
    }

    /** Download, compare the checksum, unpack, and check the program. */
    method Fetch(w: World) returns (program: Option<Bytes>)
      ensures program.Some? ==> Verified(w, program.value)
      ensures program.None? ==> forall p :: !Verified(w, p)
    {
      if w.body.None? || |w.body.value| > w.maxDownload {
        return None;
      }
      LowerIsCaseless(w.hash(w.body.value), w.instruction.sha256);
      if AsciiLower(w.hash(w.body.value)) != AsciiLower(w.instruction.sha256) {
        return None;
      }
      program := w.body;
      if w.instruction.gzip {
        program := w.unpack(w.body.value);
        if program.None? {
          return None;
        }
      }
      if |program.value| > w.maxBinary || !w.isExecutable(program.value) {
        return None;
      }
    }

    /** Fetch the program and write it to a temporary file. */
    method Stage(w: World) returns (next: Option<Bytes>)
      requires At(w, Locked)
      modifies `log
      ensures At(w, if next.Some? then Staged(next.value) else Leaving(Error))
    {
      next := Fetch(w);
      if next.Some? {
        PayloadIsVerified(w, next.value);
      } else if Payload(w).Some? {
        PayloadIsVerified(w, Payload(w).value);
      }
      if !w.writeTemp {
        next := None;
      }
      Note(w, View(), Locked);
    }

    /** `copyFile(binary, backup)`. */
    method CopyToBackup(w: World, next: Bytes) returns (ok: bool)
      requires At(w, Cleared(next))
      modifies this
      ensures SameRun(old(start), old(before))
      ensures At(w, if ok then Ready(next) else Leaving(Error))
    {
      ghost var f := View();
      ok := false;
      if binary.Some? && w.openCopy {
        if w.copied.Some? {
          backup := Some(Prefix(binary.value, w.copied.value));
        } else {
          backup := binary;
          ok := true;
        }
      }
      Note(w, f, Cleared(next));
    }

    /** `replaceBinary`. */
    method ReplaceBinary(w: World, next: Bytes) returns (ok: bool)
      requires At(w, Staged(next))
      modifies this
      ensures SameRun(old(start), old(before))
      ensures At(w, if ok then Replaced else Leaving(Error))
    {
      ghost var f := View();
      if binary.Some? && w.statBinary {
        if w.clearBackup {
          backup := None;
        }
        Note(w, f, Staged(next));
        ok := CopyToBackup(w, next);
        if !ok {
          return false;
        }
      } else {
        Note(w, f, Staged(next));
      }
      f := View();
      ok := w.rename;
      if ok {
        binary := Some(next);
      }
      Note(w, f, Ready(next));
    }

    /** `rollback`, after a restart that failed. */
    method Rollback(w: World) returns (ok: bool)
      requires At(w, Replaced) && !w.restart
      modifies this
      ensures SameRun(old(start), old(before))
      ensures At(w, if ok then Restored else Leaving(RollbackFailed))
    {
      ghost var f := View();
      ok := backup.Some? && w.statBackup && w.renameBack;
      if ok {
        binary, backup := backup, None;
      }
      Note(w, f, Replaced);
    }

    /** The deferred removal of the lock file. */
    method Unlock(w: World, r: Result)
      requires At(w, Leaving(r))
      modifies this
      ensures SameRun(old(start), old(before)) && At(w, Finished(r))
    {
      ghost var f := View();
      if w.unlock {
        lock := false;
      }
      Note(w, f, Leaving(r));
    }

    /** `Apply` with the lock held. */
    method ApplyLocked(w: World) returns (r: Result)
      requires At(w, Locked)
      modifies this
      ensures SameRun(old(start), old(before)) && At(w, Leaving(r))
    {
      var next := Stage(w);
      if next.None? {
        return Error;
      }
      var replaced := ReplaceBinary(w, next.value);
      if !replaced {
        return Error;
      }
      if w.restart {
        Note(w, View(), Replaced);
        return Done;
      }
      var restored := Rollback(w);
      if !restored {
        return RollbackFailed;
      }
      Note(w, View(), Restored);
      return RolledBack(w.restartBack);
    }

    /** The checks of the instruction, each with its own return. */
    method CheckInstruction(w: World) returns (early: Option<Result>)
      ensures early == Precheck(w) && (early.None? <==> Offers(w))
    {
      if !w.instruction.available {
        return Some(NothingToDo);
      }
      if w.instruction.version == "" {
        return Some(Error);
      }
      if w.instruction.version == w.currentVersion {
        return Some(NothingToDo);
      }
      if w.instruction.url == "" || w.instruction.sha256 == "" {
        return Some(Error);
      }
      if !w.urlAllowed {
        return Some(Error);
      }
      return None;
    }

    /** `Runner.Apply`: it ends, and passes through file systems, exactly as the steps above say. */
    method Apply(w: World) returns (r: Result)
      modifies this
      ensures Final(old(View()), Begin, w) == (View(), r)
      ensures log == old(log) + Trace(old(View()), Begin, w)
    {
      start, before := View(), log;
      var early := CheckInstruction(w);
      if early.Some? {
        Note(w, View(), Begin);
        return early.value;
      }
      var refused := AcquireLock(w);
      if refused.Some? {
        return refused.value;
      }
      r := ApplyLocked(w);
      Unlock(w, r);
    }
  }
}
