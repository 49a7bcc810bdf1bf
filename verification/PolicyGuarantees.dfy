/** What the compiler, the staging and the rollout guarantee together. */
module PolicyGuarantees {
  import opened Text
  import opened NetworkPolicy
  import opened PolicyTable
  import opened DnsProfiles
  import opened PortAllocator
  import opened RolloutHost
  import opened PolicyRollout
  import opened BridgeDetection

  /** If the installed table redirects the packet, it reaches exactly one daemon: one of that table's generation, for that MAC. */
  ghost predicate Answered(h: Host, pkt: Packet) {
    h.table.Some? && RedirectedTo(h.table.value.table.prerouting, pkt).Some? ==>
      exists p :: p in h.daemons && AnswersFor(h, p, pkt) && forall q :: q in h.daemons && AnswersFor(h, q, pkt) ==> q == p
  }

  lemma SoundAnswers(h: Host, pkt: Packet)
    requires Sound(h)
    ensures Answered(h, pkt)
  {
    if h.table.Some? && RedirectedTo(h.table.value.table.prerouting, pkt).Some? {
      var r := MatchingRedirect(h.table.value.table.prerouting, pkt);
      assert Answers(h.daemons, h.table.value.generation, r);
      var p :| p in h.daemons && h.daemons[p].home.dir == h.table.value.generation
        && h.daemons[p].profile.mac == r.mac && h.daemons[p].profile.port == r.port;
      assert AnswersFor(h, p, pkt);
    }
  }

  /**
   * At every moment of a run, whatever rollouts it holds and wherever they failed or were cut short, all redirected
   * DNS is answered, if and only if each swap in it listed the table, found none, or found one without redirects.
   */
  lemma RedirectedDnsIsAnsweredIff(start: Host, ops: seq<Op>)
    requires Sound(start) && AllAllowed(start, ops)
    ensures (forall k, pkt :: 0 <= k <= |ops| ==> Answered(Replay(start, ops[..k]), pkt)) <==> AllClean(start, ops)
  {
    EveryStateSoundIff(start, ops);
    if AllClean(start, ops) {
      forall k, pkt | 0 <= k <= |ops|
        ensures Answered(Replay(start, ops[..k]), pkt)
      {
        SoundAnswers(Replay(start, ops[..k]), pkt);
      }
    } else {
      var k := UncleanStep(start, ops);
      var pkt := StrandedPacket(Replay(start, ops[..k]), ops[k]);
      assert !Answered(Replay(start, ops[..k + 1]), pkt);
    }
  }

  lemma StrandedPacket(h: Host, op: Op) returns (pkt: Packet)
    requires Sound(h) && Allowed(h, op) && !Clean(h, op)
    ensures !Answered(Do(h, op), pkt)
  {
    var old', h' := h.table.value.table.prerouting, Do(h, op);
    var r := old'[0];
    pkt := Packet(r.mac, "", None, if r.udp then Udp(53) else Tcp(53));
    RedirectsAppend(old', op.next.table.prerouting, pkt);
    OldRedirectUnserved(h, op.next, op.listed, r);
    assert RedirectedTo(h'.table.value.table.prerouting, pkt) == Some(r.port);
    forall p | p in h'.daemons
      ensures !AnswersFor(h', p, pkt)
    {
    }
  }

  /** The daemon listens on the port the packet is sent to, belongs to the table's generation and serves the sender. */
  predicate AnswersFor(h: Host, p: nat, pkt: Packet)
    requires h.table.Some? && p in h.daemons
  {
    var d := h.daemons[p];
    && RedirectedTo(h.table.value.table.prerouting, pkt) == Some(d.profile.port)
    && d.home.dir == h.table.value.generation && d.profile.mac == pkt.src
  }

  lemma {:induction false} MatchingRedirect(chain: seq<Redirect>, pkt: Packet) returns (r: Redirect)
    requires RedirectedTo(chain, pkt).Some?
    ensures r in chain && RedirectMatches(r, pkt) && RedirectedTo(chain, pkt) == Some(r.port)
  {
    if RedirectMatches(chain[0], pkt) {
      r := chain[0];
    } else {
      r := MatchingRedirect(chain[1..], pkt);
    }
  }

  /** If no start leaves a daemon untracked and every kill and removal works, a failed call changes nothing at all. */
  lemma FailureChangesNothing(h0: Host, h: Host, w: World)
    requires RolledBack(h0, h, w)
    requires (forall j :: !w.start(j).Untracked?) && (forall path :: w.kill(path)) && w.remove(w.Dir())
    ensures h == h0
  {
    forall p | p in h.daemons
      ensures p in h0.daemons
    {
      assert p !in h0.daemons ==> Leftover(w, h, p);
    }
    assert h.daemons == h0.daemons;
  }

  /** If every older daemon has its pid file and every kill works, only the new generation runs after a success. */
  lemma OnlyTheNewGeneration(h0: Host, h: Host, w: World, t: Table, profiles: seq<Staged>, p: nat)
    requires Truthful(w, h0) && RolledOut(h0, h, w, t, profiles)
    requires forall q :: q in h0.daemons ==> h0.daemons[q].home in h0.pidFiles && h0.pidFiles[h0.daemons[q].home] == q
    requires (forall path :: path in h0.pidFiles ==> path.dir in h0.dirs) && forall path :: w.kill(path)
    ensures p in h.daemons <==> exists j: nat :: j < |profiles| && p == w.pid(j)
    ensures p in h.daemons ==> h.daemons[p].home.dir == w.Dir()
  {
    if p in h0.daemons {
      assert Stopped(w, h0, w.Dir(), p);
    } else if p in h.daemons {
      assert IsNew(w, h, Phase(0, |profiles|, false), p);
    }
    if j: nat :| j < |profiles| && p == w.pid(j) {
      assert RunsAs(w, h, profiles, j);
    }
  }

  predicate ConfiguredFor(s: Staged, syntax: Syntax, policies: seq<Policy>, mac: string) {
    && s.servers == Distinct(UnionOf(syntax, policies, mac, false))
    && s.lines == Distinct(UnionOf(syntax, policies, mac, true))
  }

  ghost predicate LineAskedFor(syntax: Syntax, policies: seq<Policy>, mac: string, line: string) {
    exists p :: p in policies && Names(p, mac) && AsksForLine(syntax, p.kind, line)
  }

  ghost predicate UpstreamAskedFor(syntax: Syntax, policies: seq<Policy>, mac: string, upstream: string) {
    upstream != "" && exists p :: p in policies && Names(p, mac) && AsksForUpstream(syntax, p.kind, upstream)
  }

  /** Exactly the lines and the upstreams that the policies naming the MAC ask for. */
  ghost predicate AsAskedFor(s: Staged, syntax: Syntax, policies: seq<Policy>, mac: string) {
    && (forall line :: line in s.lines <==> LineAskedFor(syntax, policies, mac, line))
    && (forall upstream :: upstream in s.servers <==> UpstreamAskedFor(syntax, policies, mac, upstream))
  }

  lemma ConfiguredAsAsked(s: Staged, syntax: Syntax, policies: seq<Policy>, mac: string)
    requires ConfiguredFor(s, syntax, policies, mac)
    ensures AsAskedFor(s, syntax, policies, mac)
  {
    forall line
      ensures line in s.lines <==> LineAskedFor(syntax, policies, mac, line)
    {
      LinesOfPolicies(syntax, policies, mac, line);
    }
    forall upstream
      ensures upstream in s.servers <==> UpstreamAskedFor(syntax, policies, mac, upstream)
    {
      UpstreamsOfPolicies(syntax, policies, mac, upstream);
    }
  }

  /** What the bundle asks for. */
  ghost function Wanted(policies: seq<Policy>, pkt: Packet): Verdict {
    if Blocked(policies, pkt) then Drop
    else if pkt.payload == Tcp(853) && ForbidsDoT(policies, pkt.src) then Reject
    else Accept
  }

  ghost predicate LetIn(profiles: seq<Staged>, bridge: string, incoming: Incoming) {
    incoming.iface == "lo" || incoming.iface == bridge || !ListensOn(profiles, incoming.payload)
  }

  lemma {:induction false} EvaluateAppend(a: seq<Rule>, b: seq<Rule>, pkt: Packet)
    ensures Evaluate(a + b, pkt) == if Evaluate(a, pkt) != Accept then Evaluate(a, pkt) else Evaluate(b, pkt)
  {
    if a == [] {
      assert a + b == b;
    } else {
      assert (a + b)[1..] == a[1..] + b;
      EvaluateAppend(a[1..], b, pkt);
    }
  }

  /**
   * After a successful call the installed forward chain does to a packet what the bundle asks for if and only if the
   * old table was listed, or there was none, or what it did to the packet was to accept it or just the same.
   */
  lemma InstalledTableEnforcesIff(
    h0: Host, h: Host, w: World, syntax: Syntax, policies: seq<Policy>, bridge: string, profiles: seq<Staged>, pkt: Packet)
    requires Probe(w.free) && Applies(w, syntax, policies)
    requires var d := Accumulate(syntax, Bindings(policies));
             StagedFrom(w, d.profiles, bridge, profiles) && RolledOut(h0, h, w, TableOf(d, profiles, bridge), profiles)
    ensures Evaluate(h.table.value.table.forward, pkt) == Wanted(policies, pkt)
       <==> Replaces(h0.table, w.listed) || Evaluate(h0.table.value.table.forward, pkt) in {Accept, Wanted(policies, pkt)}
  {
    var d := Accumulate(syntax, Bindings(policies));
    var t := TableOf(d, profiles, bridge);
    StagedIsStages(w, d, bridge, profiles);
    LoadableIff(syntax, policies, profiles, bridge);
    ForwardMeaning(syntax, policies, profiles, bridge, pkt);
    if !Replaces(h0.table, w.listed) {
      EvaluateAppend(h0.table.value.table.forward, t.forward, pkt);
    }
  }

  /**
   * After a successful call a dnsmasq port lets in what comes from the host itself or from the bridge, and nothing
   * else; rules of an old table that was not listed go first where they match.
   */
  lemma InstalledTableLetsIn(h0: Host, h: Host, w: World, d: Draft, bridge: string, profiles: seq<Staged>, incoming: Incoming)
    requires RolledOut(h0, h, w, TableOf(d, profiles, bridge), profiles)
    ensures InputAccepts(h.table.value.table.input, incoming)
       <==> if Replaces(h0.table, w.listed) || !SomeRuleMatches(h0.table.value.table.input, incoming) then LetIn(profiles, bridge, incoming)
            else InputAccepts(h0.table.value.table.input, incoming)
  {
    InputMeaning(bridge, profiles, incoming);
    if !Replaces(h0.table, w.listed) {
      InputAcceptsAppend(h0.table.value.table.input, InputRules(bridge, profiles), incoming);
    }
  }

  ghost predicate AnsweredAsConfigured(h: Host, syntax: Syntax, policies: seq<Policy>, pkt: Packet)
    requires h.table.Some?
  {
    exists p :: p in h.daemons && AnswersFor(h, p, pkt)
      && ConfiguredFor(h.daemons[p].profile, syntax, policies, pkt.src) && AsAskedFor(h.daemons[p].profile, syntax, policies, pkt.src)
  }

  /**
   * After a successful call, DNS of an instance that a DNS policy names goes to a running daemon that forwards to
   * exactly the distinct upstreams, and answers with exactly the distinct override lines, of the policies that name
   * it, if and only if the old table was listed, or there was none, or it did not redirect that DNS.
   */
  lemma DnsIsAnsweredAsConfiguredIff(
    h0: Host, h: Host, w: World, syntax: Syntax, policies: seq<Policy>, bridge: string, profiles: seq<Staged>, pkt: Packet)
    requires Sound(h0) && Truthful(w, h0)
    requires var d := Accumulate(syntax, Bindings(policies));
             StagedFrom(w, d.profiles, bridge, profiles) && RolledOut(h0, h, w, TableOf(d, profiles, bridge), profiles)
    requires HasDns(policies, pkt.src) && pkt.payload in {Udp(53), Tcp(53)}
    ensures AnsweredAsConfigured(h, syntax, policies, pkt)
       <==> Replaces(h0.table, w.listed) || RedirectedTo(h0.table.value.table.prerouting, pkt).None?
  {
    ForceRedirects(h0, h, w, Accumulate(syntax, Bindings(policies)), bridge, profiles, pkt);
    if Replaces(h0.table, w.listed) || RedirectedTo(h0.table.value.table.prerouting, pkt).None? {
      NewDaemonAnswers(h0, h, w, syntax, policies, bridge, profiles, pkt);
    } else {
      forall p | p in h.daemons && AnswersFor(h, p, pkt)
        ensures false
      {
        StrandedPort(h0, h, w, Accumulate(syntax, Bindings(policies)), bridge, profiles, pkt, p);
      }
    }
  }

  lemma ForceRedirects(h0: Host, h: Host, w: World, d: Draft, bridge: string, profiles: seq<Staged>, pkt: Packet)
    requires RolledOut(h0, h, w, TableOf(d, profiles, bridge), profiles)
    ensures RedirectedTo(h.table.value.table.prerouting, pkt)
         == if !Replaces(h0.table, w.listed) && RedirectedTo(h0.table.value.table.prerouting, pkt).Some?
            then RedirectedTo(h0.table.value.table.prerouting, pkt) else RedirectedTo(Redirects(profiles), pkt)
  {
    if !Replaces(h0.table, w.listed) {
      RedirectsAppend(h0.table.value.table.prerouting, Redirects(profiles), pkt);
    }
  }

  lemma NewDaemonAnswers(
    h0: Host, h: Host, w: World, syntax: Syntax, policies: seq<Policy>, bridge: string, profiles: seq<Staged>, pkt: Packet)
    requires Probe(w.free)
    requires var d := Accumulate(syntax, Bindings(policies));
             StagedFrom(w, d.profiles, bridge, profiles) && RolledOut(h0, h, w, TableOf(d, profiles, bridge), profiles)
    requires HasDns(policies, pkt.src) && pkt.payload in {Udp(53), Tcp(53)}
    requires RedirectedTo(h.table.value.table.prerouting, pkt) == RedirectedTo(Redirects(profiles), pkt)
    ensures AnsweredAsConfigured(h, syntax, policies, pkt)
  {
    var i := ProfileOfSender(w, syntax, policies, bridge, profiles, pkt);
    StagedAsConfigured(w, syntax, policies, bridge, profiles, i);
    ConfiguredAsAsked(profiles[i], syntax, policies, pkt.src);
    assert RunsAs(w, h, profiles, i);
    assert AnswersFor(h, w.pid(i), pkt);
  }

  lemma ProfileOfSender(w: World, syntax: Syntax, policies: seq<Policy>, bridge: string, profiles: seq<Staged>, pkt: Packet) returns (i: nat)
    requires Probe(w.free) && StagedFrom(w, Accumulate(syntax, Bindings(policies)).profiles, bridge, profiles)
    requires HasDns(policies, pkt.src) && pkt.payload in {Udp(53), Tcp(53)}
    ensures i < |profiles| && profiles[i].mac == pkt.src && RedirectedTo(Redirects(profiles), pkt) == Some(profiles[i].port)
  {
    StagedIsStages(w, Accumulate(syntax, Bindings(policies)), bridge, profiles);
    RedirectMeaning(syntax, policies, profiles, pkt);
    i :| 0 <= i < |profiles| && profiles[i].mac == pkt.src && RedirectedTo(Redirects(profiles), pkt) == Some(profiles[i].port);
  }

  lemma StagedAsConfigured(w: World, syntax: Syntax, policies: seq<Policy>, bridge: string, profiles: seq<Staged>, i: nat)
    requires Probe(w.free) && StagedFrom(w, Accumulate(syntax, Bindings(policies)).profiles, bridge, profiles) && i < |profiles|
    ensures ConfiguredFor(profiles[i], syntax, policies, profiles[i].mac)
  {
    var mac := profiles[i].mac;
    StagedProfile(w, Accumulate(syntax, Bindings(policies)).profiles, bridge, profiles, i);
    ProfileIsUnion(syntax, policies, mac, false);
    ProfileIsUnion(syntax, policies, mac, true);
  }

  /** A redirect that an unlisted table leaves in force leads to the old daemon or to none. */
  lemma StrandedPort(h0: Host, h: Host, w: World, d: Draft, bridge: string, profiles: seq<Staged>, pkt: Packet, p: nat)
    requires Sound(h0) && Truthful(w, h0) && !Replaces(h0.table, w.listed) && RedirectedTo(h0.table.value.table.prerouting, pkt).Some?
    requires StagedFrom(w, d.profiles, bridge, profiles) && RolledOut(h0, h, w, TableOf(d, profiles, bridge), profiles)
    requires p in h.daemons && RedirectedTo(h.table.value.table.prerouting, pkt) == Some(h.daemons[p].profile.port)
    ensures p in h0.daemons && !Stopped(w, h0, w.Dir(), p) && h.daemons[p] == h0.daemons[p] && h0.daemons[p].home.dir in h0.dirs
  {
    ForceRedirects(h0, h, w, d, bridge, profiles, pkt);
    var q := OldDaemon(h0, pkt);
    if p !in h0.daemons {
      NewDaemonsPort(h0, h, w, d, bridge, profiles, p);
    }
  }

  lemma OldDaemon(h: Host, pkt: Packet) returns (q: nat)
    requires Sound(h) && h.table.Some? && RedirectedTo(h.table.value.table.prerouting, pkt).Some?
    ensures q in h.daemons && RedirectedTo(h.table.value.table.prerouting, pkt) == Some(h.daemons[q].profile.port)
    ensures h.daemons[q].home.dir == h.table.value.generation && h.table.value.generation in h.dirs
  {
    var r := MatchingRedirect(h.table.value.table.prerouting, pkt);
    assert Answers(h.daemons, h.table.value.generation, r);
    q :| q in h.daemons && h.daemons[q].home.dir == h.table.value.generation
      && h.daemons[q].profile.mac == r.mac && h.daemons[q].profile.port == r.port;
  }

  lemma NewDaemonsPort(h0: Host, h: Host, w: World, d: Draft, bridge: string, profiles: seq<Staged>, p: nat)
    requires Truthful(w, h0) && StagedFrom(w, d.profiles, bridge, profiles)
    requires RolledOut(h0, h, w, TableOf(d, profiles, bridge), profiles) && p in h.daemons && p !in h0.daemons
    ensures w.free(h.daemons[p].profile.port)
  {
    var i := h.daemons[p].home.index;
    assert IsNew(w, h, Phase(0, |profiles|, false), p) && RunsAs(w, h, profiles, i);
    StagedPorts(w, d.profiles, bridge, profiles);
  }

  /** Such DNS reaches a process after the call if and only if the old daemon could not be killed. */
  lemma StrandedIff(h0: Host, h: Host, w: World, d: Draft, bridge: string, profiles: seq<Staged>, pkt: Packet) returns (q: nat)
    requires Sound(h0) && Truthful(w, h0) && !Replaces(h0.table, w.listed) && RedirectedTo(h0.table.value.table.prerouting, pkt).Some?
    requires StagedFrom(w, d.profiles, bridge, profiles) && RolledOut(h0, h, w, TableOf(d, profiles, bridge), profiles)
    ensures q in h0.daemons && h0.daemons[q].home.dir == h0.table.value.generation
    ensures RedirectedTo(h.table.value.table.prerouting, pkt) == Some(h0.daemons[q].profile.port)
    ensures (exists p :: p in h.daemons && h.daemons[p].profile.port == h0.daemons[q].profile.port) <==> !Stopped(w, h0, w.Dir(), q)
  {
    ForceRedirects(h0, h, w, d, bridge, profiles, pkt);
    q := OldDaemon(h0, pkt);
    forall p | p in h.daemons && h.daemons[p].profile.port == h0.daemons[q].profile.port
      ensures p == q
    {
      StrandedPort(h0, h, w, d, bridge, profiles, pkt, p);
    }
    assert q in h.daemons ==> h.daemons[q] == h0.daemons[q];
  }

  /** A successful call whose listing succeeds leaves a sound host, whatever redirects an older one has left in force. */
  lemma ListedCallRepairs(h0: Host, h: Host, w: World, d: Draft, bridge: string, profiles: seq<Staged>)
    requires Tracked(h0) && Truthful(w, h0) && w.listed
    requires StagedFrom(w, d.profiles, bridge, profiles) && RolledOut(h0, h, w, TableOf(d, profiles, bridge), profiles)
    ensures Sound(h)
  {
    forall path | path in h.pidFiles
      ensures path.dir in h.dirs && Owns(h, path)
    {
      assert RunsAs(w, h, profiles, path.index);
    }
    forall p, q | p in h.daemons && q in h.daemons && p != q
      ensures h.daemons[p].profile.port != h.daemons[q].profile.port
    {
      PortsDiffer(h0, h, w, d, bridge, profiles, p, q);
    }
    forall r | r in h.table.value.table.prerouting
      ensures Answers(h.daemons, w.Dir(), r)
    {
      RedirectsIn(profiles, r);
      var i :| 0 <= i < |profiles| && r.mac == profiles[i].mac && r.port == profiles[i].port;
      assert RunsAs(w, h, profiles, i);
    }
  }

  lemma PortsDiffer(h0: Host, h: Host, w: World, d: Draft, bridge: string, profiles: seq<Staged>, p: nat, q: nat)
    requires Tracked(h0) && Truthful(w, h0) && StagedFrom(w, d.profiles, bridge, profiles)
    requires RolledOut(h0, h, w, TableOf(d, profiles, bridge), profiles) && p in h.daemons && q in h.daemons && p != q
    ensures h.daemons[p].profile.port != h.daemons[q].profile.port
  {
    if p !in h0.daemons && q !in h0.daemons {
      NewPortsDiffer(h0, h, w, d, bridge, profiles, p, q);
    } else {
      if p !in h0.daemons {
        NewDaemonsPort(h0, h, w, d, bridge, profiles, p);
      }
      if q !in h0.daemons {
        NewDaemonsPort(h0, h, w, d, bridge, profiles, q);
      }
    }
  }

  lemma NewPortsDiffer(h0: Host, h: Host, w: World, d: Draft, bridge: string, profiles: seq<Staged>, p: nat, q: nat)
    requires Probe(w.free) && StagedFrom(w, d.profiles, bridge, profiles) && NewRunning(h0, h, w, profiles)
    requires p in h.daemons && q in h.daemons && p !in h0.daemons && q !in h0.daemons && p != q
    ensures h.daemons[p].profile.port != h.daemons[q].profile.port
  {
    var i := ProfileOfNew(h0, h, w, profiles, p);
    var j := ProfileOfNew(h0, h, w, profiles, q);
    StagedPorts(w, d.profiles, bridge, profiles);
    assert i < j || j < i;
  }

  lemma ProfileOfNew(h0: Host, h: Host, w: World, profiles: seq<Staged>, p: nat) returns (i: nat)
    requires NewRunning(h0, h, w, profiles) && p in h.daemons && p !in h0.daemons
    ensures i < |profiles| && p == w.pid(i) && h.daemons[p].profile == profiles[i]
  {
    i := h.daemons[p].home.index;
    assert IsNew(w, h, Phase(0, |profiles|, false), p) && RunsAs(w, h, profiles, i);
  }

  function OneProfile(mac: string, port: nat): Staged {
    Staged(mac, port, "incus0", ["9.9.9.9"], [], false)
  }

  /** A host with one locked instance. */
  function OneHost(mac: string): Host {
    var profile := OneProfile(mac, 10000);
    var table := Table([], InputRules("incus0", [profile]), Redirects([profile]));
    Host(Some(Installed(Generation(0), table)), map[100 := Daemon(PidPath(Generation(0), 0), profile)],
         map[PidPath(Generation(0), 0) := 100], {Root, Generation(0)})
  }

  lemma OneProfileRedirects(mac: string, port: nat, pkt: Packet)
    ensures Redirects([OneProfile(mac, port)]) == [Redirect(mac, true, port), Redirect(mac, false, port)]
    ensures RedirectedTo(Redirects([OneProfile(mac, port)]), pkt)
         == if pkt.src == mac && pkt.payload in {Udp(53), Tcp(53)} then Some(port) else None
  {
    assert [OneProfile(mac, port)][..0] == [];
    assert Redirects([OneProfile(mac, port)]) == Redirects([]) + [Redirect(mac, true, port), Redirect(mac, false, port)];
    PairMeaning(mac, port, pkt);
  }

  lemma OneHostSound(mac: string)
    ensures Sound(OneHost(mac))
  {
    var h := OneHost(mac);
    OneProfileRedirects(mac, 10000, Packet("", "", None, OtherPayload));
    forall r | r in h.table.value.table.prerouting
      ensures Answers(h.daemons, Generation(0), r)
    {
      assert h.daemons[100].profile.mac == r.mac && h.daemons[100].profile.port == r.port;
    }
  }

  /** The bundle that locked the instance. */
  function OnePolicy(mac: string): Policy {
    Policy(1, DnsLock(DnsConfig(["9.9.9.9"], false)), [mac])
  }

  /** A call on that host in which everything works but `nft list`. */
  function UnlistedWorld(): World {
    World(true, true, None, true, 1, 10000, p => p != 10000 && p <= MAX_PORT, i => true, i => Started, i => 200 + i,
          false, true, path => true, dir => true)
  }

  lemma ValidMacIsNormal(mac: string)
    requires ValidMac(mac)
    ensures NormalMac(mac) == mac
  {
    assert HexDigit(mac[0]) && HexDigit(mac[16]);
    assert TrimLeft(mac) == mac && TrimRight(mac) == mac;
    assert forall i :: 0 <= i < |mac| ==> mac[i] == ':' || HexDigit(mac[i]);
    assert ToLower(mac) == mac;
  }

  lemma OneBinding(mac: string)
    requires ValidMac(mac)
    ensures Bindings([OnePolicy(mac)]) == [Binding(OnePolicy(mac).kind, mac)]
  {
    ValidMacIsNormal(mac);
    var p, b := OnePolicy(mac), Binding(OnePolicy(mac).kind, mac);
    assert [mac][..0] == [] && [p][..0] == [];
    assert TargetBindings(p.kind, [mac]) == TargetBindings(p.kind, []) + [b];
    assert Bindings([p]) == Bindings([]) + TargetBindings(p.kind, [mac]);
  }

  lemma OneDraft(syntax: Syntax, mac: string)
    requires ValidMac(mac) && syntax.isIp("9.9.9.9")
    ensures Accumulate(syntax, Bindings([OnePolicy(mac)])).profiles == map[mac := Profile(["9.9.9.9"], [], false)]
  {
    OneBinding(mac);
    var b := Binding(OnePolicy(mac).kind, mac);
    assert [b][..0] == [] && ["9.9.9.9"][..0] == [];
    assert Accumulate(syntax, [b]) == AddBinding(syntax, Accumulate(syntax, []), b);
    assert IpWords(syntax, ["9.9.9.9"]) == IpWords(syntax, []) + ["9.9.9.9"];
    assert ExtendProfile(syntax, b.kind, EMPTY_PROFILE) == Profile(["9.9.9.9"], [], false);
  }

  lemma OneCallRuns(profiles: map<string, Profile>, mac: string)
    requires profiles == map[mac := Profile(["9.9.9.9"], [], false)]
    ensures Probe(UnlistedWorld().free) && CanRun(UnlistedWorld(), profiles)
  {
    var w := UnlistedWorld();
    assert |profiles| == 1 by {
      assert profiles.Keys == {mac};
    }
    assert ["9.9.9.9"][..0] == [];
    assert Distinct(["9.9.9.9"]) == Extend([], []) + ["9.9.9.9"];
    assert FreeBelow(w.free, 10000, MAX_PORT) == FreeBelow(w.free, 10001, MAX_PORT) == 1 + FreeBelow(w.free, 10002, MAX_PORT);
    assert AllWrite(w, 0) && AllWrite(w, 1) && AllStart(w, 0) && AllStart(w, 1);
  }

  lemma OneCallApplies(syntax: Syntax, mac: string)
    requires ValidMac(mac) && syntax.isIp("9.9.9.9")
    ensures Truthful(UnlistedWorld(), OneHost(mac)) && Applies(UnlistedWorld(), syntax, [OnePolicy(mac)])
  {
    ValidMacIsNormal(mac);
    assert AllTargetsValid([OnePolicy(mac)]) && NoMappedLiteral([OnePolicy(mac)]);
    OneDraft(syntax, mac);
    OneCallRuns(Accumulate(syntax, Bindings([OnePolicy(mac)])).profiles, mac);
  }

  /**
   * The call succeeds, and wherever it ends the instance's DNS is sent to a port where nothing runs. The conditions
   * on the outcome and on the host are those that `Apply` ensures.
   */
  lemma UnlistedCallStrands(syntax: Syntax, mac: string, configured: string, h: Host, r: Outcome, pkt: Packet)
    requires ValidMac(mac) && syntax.isIp("9.9.9.9")
    requires Probe(UnlistedWorld().free) && (r.Applied? <==> Applies(UnlistedWorld(), syntax, [OnePolicy(mac)]))
    requires Ends(OneHost(mac), h, UnlistedWorld(), Accumulate(syntax, Bindings([OnePolicy(mac)])), configured, r)
    requires pkt.src == mac && pkt.payload in {Udp(53), Tcp(53)}
    ensures Sound(OneHost(mac)) && Truthful(UnlistedWorld(), OneHost(mac)) && r.Applied?
    ensures h.table.Some? && RedirectedTo(h.table.value.table.prerouting, pkt) == Some(10000)
    ensures forall p :: p in h.daemons ==> h.daemons[p].profile.port != 10000
  {
    OneHostSound(mac);
    OneCallApplies(syntax, mac);
    OneProfileRedirects(mac, 10000, pkt);
    var q := StrandedIff(OneHost(mac), h, UnlistedWorld(), Accumulate(syntax, Bindings([OnePolicy(mac)])), r.bridge, r.profiles, pkt);
    assert Stopped(UnlistedWorld(), OneHost(mac), UnlistedWorld().Dir(), q);
  }

  lemma StagedProfile(w: World, profiles: map<string, Profile>, bridge: string, staged: seq<Staged>, i: nat)
    requires Probe(w.free) && StagedFrom(w, profiles, bridge, staged) && i < |staged|
    ensures staged[i].mac in profiles
    ensures staged[i].servers == Distinct(profiles[staged[i].mac].upstreams)
    ensures staged[i].lines == Distinct(profiles[staged[i].mac].lines)
    ensures staged[i].iface == if TrimSpace(bridge) == "" then "incus0" else bridge
  {
  }

  /** The chosen bridge has a name. */
  lemma BridgeIsNamed(w: World, profiles: map<string, Profile>, configured: string, bridge: string)
    requires ChosenBridge(w, profiles, configured, bridge) && profiles != map[]
    ensures TrimSpace(bridge) != ""
  {
    if TrimSpace(configured) != "" {
      var front, back := TrimSpaceIs(configured);
      TrimNothing(bridge);
    } else {
      var best :| Detected(w, profiles, best) && bridge == if best != "" then best else "incus0";
      if best != "" {
        assert SaneName(best);
        assert best[0] in best && best[|best| - 1] in best;
      }
      TrimNothing(bridge);
    }
  }

  lemma DaemonRuns(h0: Host, h: Host, w: World, t: Table, profiles: seq<Staged>, j: nat)
    requires RolledOut(h0, h, w, t, profiles) && j < |profiles|
    ensures w.pid(j) in h.daemons && h.daemons[w.pid(j)].profile == profiles[j]
  {
    assert RunsAs(w, h, profiles, j);
  }

  lemma BindsToBridge(w: World, profiles: map<string, Profile>, configured: string, bridge: string, staged: seq<Staged>, j: nat)
    requires Probe(w.free) && ChosenBridge(w, profiles, configured, bridge) && StagedFrom(w, profiles, bridge, staged) && j < |staged|
    ensures staged[j].iface == bridge
  {
    StagedProfile(w, profiles, bridge, staged, j);
    BridgeIsNamed(w, profiles, configured, bridge);
  }

  /** Every daemon of a successful call binds to the interface from which the input chain lets in its port. */
  lemma DaemonsBindToBridge(h0: Host, h: Host, w: World, d: Draft, configured: string, bridge: string, profiles: seq<Staged>, j: nat)
    requires Probe(w.free) && Ends(h0, h, w, d, configured, Applied(profiles, bridge)) && j < |profiles|
    ensures w.pid(j) in h.daemons && h.daemons[w.pid(j)].profile == profiles[j] && profiles[j].iface == bridge
    ensures AcceptPort(profiles[j].iface, true, profiles[j].port) in TableOf(d, profiles, bridge).input
    ensures AcceptPort(profiles[j].iface, false, profiles[j].port) in TableOf(d, profiles, bridge).input
  {
    DaemonRuns(h0, h, w, TableOf(d, profiles, bridge), profiles, j);
    BindsToBridge(w, d.profiles, configured, bridge, profiles, j);
    InputRulesIn(bridge, profiles, j);
    assert AcceptPort(bridge, true, profiles[j].port) in PortRules(bridge, profiles[j].port);
    assert AcceptPort(bridge, false, profiles[j].port) in PortRules(bridge, profiles[j].port);
  }

  lemma {:induction false} InputRulesIn(bridge: string, profiles: seq<Staged>, j: nat)
    requires j < |profiles|
    ensures forall r :: r in PortRules(bridge, profiles[j].port) ==> r in InputRules(bridge, profiles)
  {
    if j < |profiles| - 1 {
      InputRulesIn(bridge, profiles[..|profiles| - 1], j);
    }
  }
}
