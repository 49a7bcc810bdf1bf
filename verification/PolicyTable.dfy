/** The nftables table that a rollout installs, and what it means for a packet. */
module PolicyTable {
  import opened Text
  import opened NetworkPolicy

  /** A dnsmasq profile that has been written to disk and given a port. */
  datatype Staged = Staged(mac: string, port: nat, iface: string, servers: seq<string>, lines: seq<string>, blockDoT: bool)

  /** Rules of the input chain; the first names an interface alone. */
  datatype InputRule =
    | AcceptIface(iface: string)
    | AcceptPort(iface: string, udp: bool, port: nat)
    | DropPort(udp: bool, port: nat)

  /** A rule of the nat chain: DNS from this MAC goes to this local port. */
  datatype Redirect = Redirect(mac: string, udp: bool, port: nat)

  datatype Table = Table(forward: seq<Rule>, input: seq<InputRule>, prerouting: seq<Redirect>)

  datatype Incoming = Incoming(iface: string, payload: Payload)

  predicate ToPort(payload: Payload, udp: bool, port: nat) {
    payload == if udp then Udp(port) else Tcp(port)
  }

  predicate InputMatches(r: InputRule, pkt: Incoming) {
    match r
    case AcceptIface(iface) => pkt.iface == iface
    case AcceptPort(iface, udp, port) => pkt.iface == iface && ToPort(pkt.payload, udp, port)
    case DropPort(udp, port) => ToPort(pkt.payload, udp, port)
  }

  predicate InputAccepts(chain: seq<InputRule>, pkt: Incoming) {
    chain == [] ||
    if InputMatches(chain[0], pkt) then !chain[0].DropPort? else InputAccepts(chain[1..], pkt)
  }

  predicate RedirectMatches(r: Redirect, pkt: Packet) {
    pkt.src == r.mac && ToPort(pkt.payload, r.udp, 53)
  }

  function RedirectedTo(chain: seq<Redirect>, pkt: Packet): Option<nat> {
    if chain == [] then None
    else if RedirectMatches(chain[0], pkt) then Some(chain[0].port)
    else RedirectedTo(chain[1..], pkt)
  }

  /** nft loads the document only if every address literal suits its selector. */
  predicate Loadable(t: Table) {
    forall r :: r in t.forward ==> WellTyped(r)
  }

  // ---- Building the table ----

  function Redirects(profiles: seq<Staged>): seq<Redirect> {
    if profiles == [] then []
    else
      var p := profiles[|profiles| - 1];
      Redirects(profiles[..|profiles| - 1]) + [Redirect(p.mac, true, p.port), Redirect(p.mac, false, p.port)]
  }

  function DoTRules(profiles: seq<Staged>): seq<Rule> {
    if profiles == [] then []
    else
      var p := profiles[|profiles| - 1];
      DoTRules(profiles[..|profiles| - 1]) + if p.blockDoT then [RejectDoT(p.mac)] else []
  }

  function PortRules(bridge: string, port: nat): seq<InputRule> {
    [AcceptPort(bridge, true, port), AcceptPort(bridge, false, port), DropPort(true, port), DropPort(false, port)]
  }

  function InputRules(bridge: string, profiles: seq<Staged>): seq<InputRule> {
    if profiles == [] then [AcceptIface("lo")]
    else InputRules(bridge, profiles[..|profiles| - 1]) + PortRules(bridge, profiles[|profiles| - 1].port)
  }

  function DropRules(d: Draft): seq<Rule> {
    d.ipv4 + d.ipv6 + d.transport + d.ping
  }

  function TableOf(d: Draft, profiles: seq<Staged>, bridge: string): Table {
    Table(DropRules(d) + DoTRules(profiles), InputRules(bridge, profiles), Redirects(profiles))
  }

  method BuildTable(d: Draft, profiles: seq<Staged>, bridge: string) returns (t: Table)
    ensures t == TableOf(d, profiles, bridge)
  {
    var dnsRules, dotRules := [], [];
    for i := 0 to |profiles|
      invariant dnsRules == Redirects(profiles[..i]) && dotRules == DoTRules(profiles[..i])
    {
      var profile := profiles[i];
      assert profiles[..i + 1][..i] == profiles[..i];
      dnsRules := dnsRules + [Redirect(profile.mac, true, profile.port), Redirect(profile.mac, false, profile.port)];
      if profile.blockDoT {
        dotRules := dotRules + [RejectDoT(profile.mac)];
      }
    }
    var inputLines := [AcceptIface("lo")];
    for i := 0 to |profiles|
      invariant inputLines == InputRules(bridge, profiles[..i])
    {
      assert profiles[..i + 1][..i] == profiles[..i];
      var port := profiles[i].port;
      inputLines := inputLines +
      [AcceptPort(bridge, true, port), AcceptPort(bridge, false, port), DropPort(true, port), DropPort(false, port)];
    }
    assert profiles[..|profiles|] == profiles;
    t := Table(d.ipv4 + d.ipv6 + d.transport + d.ping + dotRules, inputLines, dnsRules);
  }

  // ---- What the policies ask for, without rules ----

  /** The policy kind, applied to an instance, stops the packet. */
  predicate Blocks(kind: Kind, mac: string, pkt: Packet) {
    match kind
    case IpBlock(cidrs) => pkt.src == mac && pkt.to.Some? && exists c :: c in cidrs && c.Contains(pkt.to.value)
    case UdpBlock => (pkt.src == mac || pkt.dst == mac) && pkt.payload.Udp?
    case PingBlock => (pkt.src == mac || pkt.dst == mac) && (pkt.payload.IcmpEcho? || pkt.payload.Icmp6Echo?)
    case _ => false
  }

  ghost predicate Blocked(policies: seq<Policy>, pkt: Packet) {
    exists p, t :: p in policies && t in p.targets && Blocks(p.kind, NormalMac(t), pkt)
  }

  /** Some DNS policy that names the instance asks for DNS over TLS to be blocked. */
  ghost predicate ForbidsDoT(policies: seq<Policy>, mac: string) {
    exists p, t :: p in policies && t in p.targets && p.kind.IsDns() && p.kind.dns.blockDot && NormalMac(t) == mac
  }

  ghost predicate HasDns(policies: seq<Policy>, mac: string) {
    exists p, t :: p in policies && t in p.targets && p.kind.IsDns() && NormalMac(t) == mac
  }

  /** The staged profiles are those of the draft, one for each MAC. */
  ghost predicate Stages(d: Draft, profiles: seq<Staged>) {
    && (forall i :: 0 <= i < |profiles| ==> profiles[i].mac in d.profiles && profiles[i].blockDoT == d.profiles[profiles[i].mac].blockDoT)
    && (forall m :: m in d.profiles ==> exists i :: 0 <= i < |profiles| && profiles[i].mac == m)
    && (forall i, j :: 0 <= i < j < |profiles| ==> profiles[i].mac != profiles[j].mac)
  }

  ghost predicate AnyMatch(rules: seq<Rule>, pkt: Packet) {
    exists r :: r in rules && Matches(r, pkt)
  }

  /** A literal covers itself alone, or with a prefix length all addresses of its family that begin with the same bits. */
  lemma LiteralCovers(c: CidrText, to: Address)
    requires c.Parses()
    ensures c.prefix.None? ==> (c.Contains(to) <==> to == c.address.value)
    ensures c.prefix.Some? ==>
      (c.Contains(to) <==> to.V4? == c.address.value.V4? && forall i :: 0 <= i < c.prefix.value ==> to.Bits()[i] == c.address.value.Bits()[i])
  {
    var bits, own := to.Bits(), c.address.value.Bits();
    if to.V4? == c.address.value.V4? {
      assert bits[..|bits|] == bits && own[..|own|] == own;
      var n := c.Length();
      assert bits[..n] == own[..n] <==> forall i :: 0 <= i < n ==> bits[i] == own[i] by {
        if forall i :: 0 <= i < n ==> bits[i] == own[i] {
          assert bits[..n] == own[..n];
        }
        if bits[..n] == own[..n] {
          assert forall i :: 0 <= i < n ==> bits[i] == bits[..n][i] == own[..n][i] == own[i];
        }
      }
    }
  }

  // ---- From bindings to rules ----

  lemma {:induction false} BlockRulesMatch(mac: string, cidrs: seq<CidrText>, pkt: Packet)
    requires forall c :: c in cidrs && c.Parses() ==> c.address.value.To4() == c.address.value.V4?
    ensures AnyMatch(BlockRules(mac, cidrs, true), pkt) || AnyMatch(BlockRules(mac, cidrs, false), pkt)
       <==> Blocks(IpBlock(cidrs), mac, pkt)
  {
    if cidrs != [] {
      var init, c := cidrs[..|cidrs| - 1], cidrs[|cidrs| - 1];
      assert forall x :: x in cidrs <==> x in init || x == c;
      BlockRulesMatch(mac, init, pkt);
      var added := if c.Parses() then [DropTo(mac, c.address.value.To4(), c)] else [];
      assert AnyMatch(added, pkt) <==> Blocks(IpBlock([c]), mac, pkt) by {
        assert c in [c];
        if c.Parses() {
          assert DropTo(mac, c.address.value.To4(), c) in added;
        }
      }
      AnyMatchAppend(BlockRules(mac, init, true), if c.Parses() && c.address.value.To4() then added else [], pkt);
      AnyMatchAppend(BlockRules(mac, init, false), if c.Parses() && !c.address.value.To4() then added else [], pkt);
    }
  }

  lemma AnyMatchAppend(a: seq<Rule>, b: seq<Rule>, pkt: Packet)
    ensures AnyMatch(a + b, pkt) <==> AnyMatch(a, pkt) || AnyMatch(b, pkt)
  {
    forall r | r in a || r in b
      ensures r in a + b
    {
    }
  }

  /** Every usable literal of the kind is written with the selector of its own family. */
  ghost predicate TypedKind(kind: Kind) {
    kind.IpBlock? ==> forall c :: c in kind.cidrs && c.Parses() ==> c.address.value.To4() == c.address.value.V4?
  }

  /** The drop rules that one binding adds. */
  function AddedRules(b: Binding): seq<Rule> {
    match b.kind
    case IpBlock(cidrs) => BlockRules(b.mac, cidrs, true) + BlockRules(b.mac, cidrs, false)
    case UdpBlock => [DropUdp(b.mac, Saddr), DropUdp(b.mac, Daddr)]
    case PingBlock => [DropEcho(b.mac, Saddr, false), DropEcho(b.mac, Daddr, false),
                       DropEcho(b.mac, Saddr, true), DropEcho(b.mac, Daddr, true)]
    case _ => []
  }

  lemma AddedRulesIn(syntax: Syntax, d: Draft, b: Binding)
    ensures forall r :: r in DropRules(AddBinding(syntax, d, b)) <==> r in DropRules(d) || r in AddedRules(b)
  {
  }

  lemma AddedRulesMatch(b: Binding, pkt: Packet)
    requires TypedKind(b.kind)
    ensures AnyMatch(AddedRules(b), pkt) <==> Blocks(b.kind, b.mac, pkt)
  {
    match b.kind
    case IpBlock(cidrs) =>
      BlockRulesMatch(b.mac, cidrs, pkt);
      AnyMatchAppend(BlockRules(b.mac, cidrs, true), BlockRules(b.mac, cidrs, false), pkt);
    case UdpBlock =>
      assert DropUdp(b.mac, Saddr) in AddedRules(b) && DropUdp(b.mac, Daddr) in AddedRules(b);
    case PingBlock =>
      assert DropEcho(b.mac, Saddr, false) in AddedRules(b) && DropEcho(b.mac, Daddr, false) in AddedRules(b);
      assert DropEcho(b.mac, Saddr, true) in AddedRules(b) && DropEcho(b.mac, Daddr, true) in AddedRules(b);
    case _ =>
  }

  lemma {:induction false} DropRulesIn(syntax: Syntax, bs: seq<Binding>, r: Rule)
    ensures r in DropRules(Accumulate(syntax, bs)) <==> exists b :: b in bs && r in AddedRules(b)
  {
    if bs != [] {
      var init, b := bs[..|bs| - 1], bs[|bs| - 1];
      assert forall x :: x in bs <==> x in init || x == b;
      DropRulesIn(syntax, init, r);
      AddedRulesIn(syntax, Accumulate(syntax, init), b);
    }
  }

  lemma {:induction false} TargetBindingsIn(kind: Kind, targets: seq<string>, b: Binding)
    ensures b in TargetBindings(kind, targets) <==> exists t :: t in targets && b == Binding(kind, NormalMac(t))
  {
    if targets != [] {
      var init, last := targets[..|targets| - 1], targets[|targets| - 1];
      assert forall x :: x in targets <==> x in init || x == last;
      TargetBindingsIn(kind, init, b);
    }
  }

  lemma {:induction false} BindingsIn(policies: seq<Policy>, b: Binding)
    ensures b in Bindings(policies) <==> exists p, t :: p in policies && t in p.targets && b == Binding(p.kind, NormalMac(t))
  {
    if policies != [] {
      var init, last := policies[..|policies| - 1], policies[|policies| - 1];
      assert forall x :: x in policies <==> x in init || x == last;
      BindingsIn(init, b);
      TargetBindingsIn(last.kind, last.targets, b);
    }
  }

  // ---- When nft loads the table ----

  /** No ip_block policy with a target lists a usable literal of the form ::ffff:a.b.c.d. */
  ghost predicate NoMappedLiteral(policies: seq<Policy>) {
    forall p :: p in policies && p.targets != [] ==> TypedKind(p.kind)
  }

  lemma {:induction false} BlockRulesIn(mac: string, cidrs: seq<CidrText>, asV4: bool, r: Rule)
    ensures r in BlockRules(mac, cidrs, asV4)
       <==> exists c :: c in cidrs && c.Parses() && c.address.value.To4() == asV4 && r == DropTo(mac, asV4, c)
  {
    if cidrs != [] {
      var init, last := cidrs[..|cidrs| - 1], cidrs[|cidrs| - 1];
      assert forall x :: x in cidrs <==> x in init || x == last;
      BlockRulesIn(mac, init, asV4, r);
    }
  }

  lemma AddedRulesTyped(b: Binding)
    ensures (forall r :: r in AddedRules(b) ==> WellTyped(r)) <==> TypedKind(b.kind)
  {
    if b.kind.IpBlock? {
      var cidrs := b.kind.cidrs;
      forall r | r in AddedRules(b) && TypedKind(b.kind)
        ensures WellTyped(r)
      {
        BlockRulesIn(b.mac, cidrs, true, r);
        BlockRulesIn(b.mac, cidrs, false, r);
      }
      forall c | c in cidrs && c.Parses() && c.address.value.To4() != c.address.value.V4?
        ensures exists r :: r in AddedRules(b) && !WellTyped(r)
      {
        var r := DropTo(b.mac, c.address.value.To4(), c);
        BlockRulesIn(b.mac, cidrs, c.address.value.To4(), r);
        assert r in AddedRules(b);
      }
    }
  }

  lemma {:induction false} DoTRulesIn(profiles: seq<Staged>, r: Rule)
    ensures r in DoTRules(profiles) <==> exists i :: 0 <= i < |profiles| && profiles[i].blockDoT && r == RejectDoT(profiles[i].mac)
  {
    if profiles != [] {
      DoTRulesIn(profiles[..|profiles| - 1], r);
    }
  }

  /** nft refuses the table exactly when some ip_block policy in force lists an IPv4-mapped IPv6 literal. */
  lemma LoadableIff(syntax: Syntax, policies: seq<Policy>, profiles: seq<Staged>, bridge: string)
    ensures Loadable(TableOf(Accumulate(syntax, Bindings(policies)), profiles, bridge)) <==> NoMappedLiteral(policies)
  {
    var bs := Bindings(policies);
    var forward := TableOf(Accumulate(syntax, bs), profiles, bridge).forward;
    forall r | r in forward && NoMappedLiteral(policies)
      ensures WellTyped(r)
    {
      DropRulesIn(syntax, bs, r);
      DoTRulesIn(profiles, r);
      if r in DropRules(Accumulate(syntax, bs)) {
        var b :| b in bs && r in AddedRules(b);
        BindingsIn(policies, b);
        AddedRulesTyped(b);
      }
    }
    if p :| p in policies && p.targets != [] && !TypedKind(p.kind) {
      var b := Binding(p.kind, NormalMac(p.targets[0]));
      assert p.targets[0] in p.targets;
      BindingsIn(policies, b);
      AddedRulesTyped(b);
      var r :| r in AddedRules(b) && !WellTyped(r);
      DropRulesIn(syntax, bs, r);
      assert r in forward;
    }
  }

  function MappedAddress(quad: Bits32): Address {
    V6(seq(80, i => false) + seq(16, i => true) + quad)
  }

  /** A policy that lists ::ffff:a.b.c.d, whatever the address, the prefix and the target, is refused. */
  lemma MappedLiteralRefused(
    syntax: Syntax, quad: Bits32, prefix: Option<nat>, target: string, profiles: seq<Staged>, bridge: string)
    requires prefix.Some? ==> prefix.value <= 128
    ensures var policies := [Policy(1, IpBlock([CidrText(Some(MappedAddress(quad)), prefix)]), [target])];
            !Loadable(TableOf(Accumulate(syntax, Bindings(policies)), profiles, bridge))
  {
    var address, literal := MappedAddress(quad), CidrText(Some(MappedAddress(quad)), prefix);
    assert address.bits6[..80] == seq(80, i => false) && address.bits6[80..96] == seq(16, i => true);
    var p := Policy(1, IpBlock([literal]), [target]);
    assert literal in p.kind.cidrs && literal.Parses() && !TypedKind(p.kind);
    assert p in [p] && !NoMappedLiteral([p]);
    LoadableIff(syntax, [p], profiles, bridge);
  }

  // ---- Meaning of the three chains ----

  lemma {:induction false} EvaluateDrops(drops: seq<Rule>, rejects: seq<Rule>, pkt: Packet)
    requires forall r :: r in drops ==> !r.RejectDoT?
    requires forall r :: r in rejects ==> r.RejectDoT?
    ensures Evaluate(drops + rejects, pkt)
         == if AnyMatch(drops, pkt) then Drop else if AnyMatch(rejects, pkt) then Reject else Accept
  {
    if drops != [] {
      assert (drops + rejects)[1..] == drops[1..] + rejects;
      assert forall r :: r in drops <==> r == drops[0] || r in drops[1..];
      EvaluateDrops(drops[1..], rejects, pkt);
    } else if rejects != [] {
      assert drops + rejects == rejects;
      assert forall r :: r in rejects <==> r == rejects[0] || r in rejects[1..];
      assert drops + rejects[1..] == rejects[1..];
      EvaluateDrops(drops, rejects[1..], pkt);
    }
  }

  lemma {:induction false} AccumulatedProfile(syntax: Syntax, bs: seq<Binding>, mac: string)
    ensures var profiles := Accumulate(syntax, bs).profiles;
            (mac in profiles <==> exists b :: b in bs && b.kind.IsDns() && b.mac == mac) &&
            (mac in profiles ==> (profiles[mac].blockDoT <==> exists b :: b in bs && b.kind.IsDns() && b.mac == mac && b.kind.dns.blockDot))
  {
    if bs != [] {
      var init, last := bs[..|bs| - 1], bs[|bs| - 1];
      assert forall x :: x in bs <==> x in init || x == last;
      AccumulatedProfile(syntax, init, mac);
    }
  }

  lemma DropsMatch(syntax: Syntax, policies: seq<Policy>, pkt: Packet)
    requires NoMappedLiteral(policies)
    ensures AnyMatch(DropRules(Accumulate(syntax, Bindings(policies))), pkt) <==> Blocked(policies, pkt)
  {
    var bs := Bindings(policies);
    var drops := DropRules(Accumulate(syntax, bs));
    if r :| r in drops && Matches(r, pkt) {
      DropRulesIn(syntax, bs, r);
      var b :| b in bs && r in AddedRules(b);
      BindingsIn(policies, b);
      AddedRulesMatch(b, pkt);
      assert AnyMatch(AddedRules(b), pkt);
    }
    if p, t :| p in policies && t in p.targets && Blocks(p.kind, NormalMac(t), pkt) {
      var b := Binding(p.kind, NormalMac(t));
      BindingsIn(policies, b);
      AddedRulesMatch(b, pkt);
      var r :| r in AddedRules(b) && Matches(r, pkt);
      DropRulesIn(syntax, bs, r);
    }
  }

  lemma NoRejectAmongDrops(syntax: Syntax, bs: seq<Binding>, r: Rule)
    requires r in DropRules(Accumulate(syntax, bs))
    ensures !r.RejectDoT?
  {
    DropRulesIn(syntax, bs, r);
    var b :| b in bs && r in AddedRules(b);
    if b.kind.IpBlock? {
      BlockRulesIn(b.mac, b.kind.cidrs, true, r);
      BlockRulesIn(b.mac, b.kind.cidrs, false, r);
    }
  }

  lemma RejectsMatch(syntax: Syntax, policies: seq<Policy>, profiles: seq<Staged>, pkt: Packet)
    requires Stages(Accumulate(syntax, Bindings(policies)), profiles)
    ensures AnyMatch(DoTRules(profiles), pkt) <==> pkt.payload == Tcp(853) && ForbidsDoT(policies, pkt.src)
  {
    var bs := Bindings(policies);
    var d := Accumulate(syntax, bs);
    AccumulatedProfile(syntax, bs, pkt.src);
    if r :| r in DoTRules(profiles) && Matches(r, pkt) {
      DoTRulesIn(profiles, r);
      var b :| b in bs && b.kind.IsDns() && b.mac == pkt.src && b.kind.dns.blockDot;
      BindingsIn(policies, b);
    }
    if p, t :| p in policies && t in p.targets && p.kind.IsDns() && p.kind.dns.blockDot && NormalMac(t) == pkt.src {
      var b := Binding(p.kind, pkt.src);
      BindingsIn(policies, b);
      DoTRulesIn(profiles, RejectDoT(pkt.src));
      assert RejectDoT(pkt.src) in DoTRules(profiles);
    }
  }

  /**
   * The translation preserves meaning. In the table that a rollout of the compiled bundle installs, the forward
   * chain drops a packet if and only if some policy covers it, otherwise rejects exactly the DNS over TLS that
   * some DNS policy forbids, and otherwise accepts.
   */
  lemma ForwardMeaning(syntax: Syntax, policies: seq<Policy>, profiles: seq<Staged>, bridge: string, pkt: Packet)
    requires Stages(Accumulate(syntax, Bindings(policies)), profiles)
    requires Loadable(TableOf(Accumulate(syntax, Bindings(policies)), profiles, bridge))
    ensures Evaluate(TableOf(Accumulate(syntax, Bindings(policies)), profiles, bridge).forward, pkt)
         == if Blocked(policies, pkt) then Drop
            else if pkt.payload == Tcp(853) && ForbidsDoT(policies, pkt.src) then Reject
            else Accept
  {
    var bs := Bindings(policies);
    LoadableIff(syntax, policies, profiles, bridge);
    DropsMatch(syntax, policies, pkt);
    RejectsMatch(syntax, policies, profiles, pkt);
    var drops := DropRules(Accumulate(syntax, bs));
    forall r | r in drops
      ensures !r.RejectDoT?
    {
      NoRejectAmongDrops(syntax, bs, r);
    }
    forall r | r in DoTRules(profiles)
      ensures r.RejectDoT?
    {
      DoTRulesIn(profiles, r);
    }
    EvaluateDrops(drops, DoTRules(profiles), pkt);
  }

  ghost predicate ListensOn(profiles: seq<Staged>, payload: Payload) {
    exists i :: 0 <= i < |profiles| && (payload == Udp(profiles[i].port) || payload == Tcp(profiles[i].port))
  }

  ghost predicate SomeRuleMatches(chain: seq<InputRule>, pkt: Incoming) {
    exists i :: 0 <= i < |chain| && InputMatches(chain[i], pkt)
  }

  lemma {:induction false} InputAcceptsAppend(a: seq<InputRule>, b: seq<InputRule>, pkt: Incoming)
    ensures InputAccepts(a + b, pkt) <==> if SomeRuleMatches(a, pkt) then InputAccepts(a, pkt) else InputAccepts(b, pkt)
  {
    if a == [] {
      assert a + b == b;
    } else {
      assert (a + b)[1..] == a[1..] + b;
      InputAcceptsAppend(a[1..], b, pkt);
      if SomeRuleMatches(a, pkt) && !InputMatches(a[0], pkt) {
        var i :| 0 <= i < |a| && InputMatches(a[i], pkt);
        assert InputMatches(a[1..][i - 1], pkt);
      }
    }
  }

  lemma PortRulesMeaning(bridge: string, port: nat, pkt: Incoming)
    ensures var rules, mine := PortRules(bridge, port), pkt.payload == Udp(port) || pkt.payload == Tcp(port);
            SomeRuleMatches(rules, pkt) == mine && InputAccepts(rules, pkt) == (mine ==> pkt.iface == bridge)
  {
    var rules := PortRules(bridge, port);
    var r1, r2, r3 := rules[1..], rules[2..], rules[3..];
    assert r1[1..] == r2 && r2[1..] == r3 && r3[1..] == [];
    assert InputAccepts(r3, pkt) == (pkt.payload != Tcp(port));
    assert InputAccepts(r2, pkt) == (pkt.payload != Udp(port) && pkt.payload != Tcp(port));
    assert InputMatches(rules[2], pkt) <==> pkt.payload == Udp(port);
    assert InputMatches(rules[3], pkt) <==> pkt.payload == Tcp(port);
  }

  /** A dnsmasq port is reachable from the bridge and from the host itself, and from nowhere else. */
  lemma {:induction false} InputMeaning(bridge: string, profiles: seq<Staged>, pkt: Incoming)
    ensures InputAccepts(InputRules(bridge, profiles), pkt)
       <==> pkt.iface == "lo" || pkt.iface == bridge || !ListensOn(profiles, pkt.payload)
    ensures SomeRuleMatches(InputRules(bridge, profiles), pkt) <==> pkt.iface == "lo" || ListensOn(profiles, pkt.payload)
  {
    if profiles == [] {
      var chain := [AcceptIface("lo")];
      assert chain[1..] == [] && (pkt.iface == "lo" <==> InputMatches(chain[0], pkt));
    } else {
      var init, last := profiles[..|profiles| - 1], profiles[|profiles| - 1];
      assert profiles == init + [last];
      InputMeaning(bridge, init, pkt);
      PortRulesMeaning(bridge, last.port, pkt);
      InputAcceptsAppend(InputRules(bridge, init), PortRules(bridge, last.port), pkt);
      ListensSnoc(init, last, pkt.payload);
      MatchesAppend(InputRules(bridge, init), PortRules(bridge, last.port), pkt);
    }
  }

  lemma ListensSnoc(init: seq<Staged>, last: Staged, payload: Payload)
    ensures ListensOn(init + [last], payload)
       <==> ListensOn(init, payload) || payload == Udp(last.port) || payload == Tcp(last.port)
  {
    var all := init + [last];
    assert all[|init|] == last;
    assert forall i :: 0 <= i < |init| ==> all[i] == init[i];
  }

  lemma MatchesAppend(a: seq<InputRule>, b: seq<InputRule>, pkt: Incoming)
    ensures SomeRuleMatches(a + b, pkt) <==> SomeRuleMatches(a, pkt) || SomeRuleMatches(b, pkt)
  {
    assert forall i :: 0 <= i < |a| ==> (a + b)[i] == a[i];
    assert forall i :: 0 <= i < |b| ==> (a + b)[|a| + i] == b[i];
  }

  lemma {:induction false} RedirectsAppend(a: seq<Redirect>, b: seq<Redirect>, pkt: Packet)
    ensures RedirectedTo(a + b, pkt) == if RedirectedTo(a, pkt).Some? then RedirectedTo(a, pkt) else RedirectedTo(b, pkt)
  {
    if a == [] {
      assert a + b == b;
    } else {
      assert (a + b)[1..] == a[1..] + b;
      RedirectsAppend(a[1..], b, pkt);
    }
  }

  lemma PairMeaning(mac: string, port: nat, pkt: Packet)
    ensures RedirectedTo([Redirect(mac, true, port), Redirect(mac, false, port)], pkt)
         == if pkt.src == mac && pkt.payload in {Udp(53), Tcp(53)} then Some(port) else None
  {
    var pair := [Redirect(mac, true, port), Redirect(mac, false, port)];
    var second := pair[1..];
    assert second == [Redirect(mac, false, port)] && second[1..] == [];
    assert RedirectedTo(second, pkt) == if pkt.src == mac && pkt.payload == Tcp(53) then Some(port) else None;
  }

  lemma {:induction false} RedirectedAt(profiles: seq<Staged>, pkt: Packet, i: nat)
    requires i < |profiles| && pkt.src == profiles[i].mac
    requires forall j :: 0 <= j < |profiles| && j != i ==> profiles[j].mac != profiles[i].mac
    ensures RedirectedTo(Redirects(profiles), pkt) == if pkt.payload in {Udp(53), Tcp(53)} then Some(profiles[i].port) else None
  {
    var init, last := profiles[..|profiles| - 1], profiles[|profiles| - 1];
    RedirectsAppend(Redirects(init), [Redirect(last.mac, true, last.port), Redirect(last.mac, false, last.port)], pkt);
    PairMeaning(last.mac, last.port, pkt);
    if i < |init| {
      RedirectedAt(init, pkt, i);
    } else {
      NotRedirected(init, pkt);
    }
  }

  lemma {:induction false} NotRedirected(profiles: seq<Staged>, pkt: Packet)
    requires forall j :: 0 <= j < |profiles| ==> profiles[j].mac != pkt.src
    ensures RedirectedTo(Redirects(profiles), pkt) == None
  {
    if profiles != [] {
      var init, last := profiles[..|profiles| - 1], profiles[|profiles| - 1];
      RedirectsAppend(Redirects(init), [Redirect(last.mac, true, last.port), Redirect(last.mac, false, last.port)], pkt);
      PairMeaning(last.mac, last.port, pkt);
      NotRedirected(init, pkt);
    }
  }

  /**
   * DNS over UDP and over TCP of exactly the instances that some DNS policy names is redirected, each instance's
   * to the port of the profile staged for its own MAC; nothing else is.
   */
  lemma RedirectMeaning(syntax: Syntax, policies: seq<Policy>, profiles: seq<Staged>, pkt: Packet)
    requires Stages(Accumulate(syntax, Bindings(policies)), profiles)
    ensures var port := RedirectedTo(Redirects(profiles), pkt);
            (port.Some? <==> HasDns(policies, pkt.src) && pkt.payload in {Udp(53), Tcp(53)}) &&
            (port.Some? ==> exists i :: 0 <= i < |profiles| && profiles[i].mac == pkt.src && port.value == profiles[i].port)
  {
    var bs := Bindings(policies);
    AccumulatedProfile(syntax, bs, pkt.src);
    NamedByDns(policies, pkt.src);
    if HasDns(policies, pkt.src) {
      var i :| 0 <= i < |profiles| && profiles[i].mac == pkt.src;
      RedirectedAt(profiles, pkt, i);
    } else {
      NotRedirected(profiles, pkt);
    }
  }

  lemma NamedByDns(policies: seq<Policy>, mac: string)
    ensures HasDns(policies, mac) <==> exists b :: b in Bindings(policies) && b.kind.IsDns() && b.mac == mac
  {
    if b :| b in Bindings(policies) && b.kind.IsDns() && b.mac == mac {
      BindingsIn(policies, b);
    }
    if p, t :| p in policies && t in p.targets && p.kind.IsDns() && NormalMac(t) == mac {
      BindingsIn(policies, Binding(p.kind, mac));
    }
  }
}
