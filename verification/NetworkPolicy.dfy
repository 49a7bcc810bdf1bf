/**
 * The bundle of network policies that the panel sends, the nftables rules that a host evaluates,
 * and the translation of the one into the other.
 */
module NetworkPolicy {
  import opened Text

  // ---- Addresses and packets ----

  type Bits32 = b: seq<bool> | |b| == 32 witness seq(32, i => false)
  type Bits128 = b: seq<bool> | |b| == 128 witness seq(128, i => false)

  datatype Address = V4(bits4: Bits32) | V6(bits6: Bits128)
  {
    function Bits(): seq<bool> {
      if V4? then bits4 else bits6
    }

    /** `ip.To4() != nil`: an IPv4 address, or an IPv6 one of the form ::ffff:a.b.c.d. */
    predicate To4() {
      V4? || (bits6[..80] == seq(80, i => false) && bits6[80..96] == seq(16, i => true))
    }
  }

  /** An entry of a `cidrs` list: the address literal, if it is one, and the number after the slash, if any. */
  datatype CidrText = CidrText(address: Option<Address>, prefix: Option<nat>)
  {
    /** `net.ParseCIDR(normalizeCIDR(text))` succeeds. */
    predicate Parses() {
      address.Some? && (prefix.Some? ==> prefix.value <= |address.value.Bits()|)
    }

    /** The prefix length; a bare address stands for itself alone. */
    function Length(): (n: nat)
      requires Parses()
      ensures n <= |address.value.Bits()|
    {
      if prefix.Some? then prefix.value else |address.value.Bits()|
    }

    /** The destination is of the same family and agrees with the literal on the prefix. */
    predicate Contains(to: Address) {
      Parses() && to.V4? == address.value.V4? && to.Bits()[..Length()] == address.value.Bits()[..Length()]
    }
  }

  datatype Payload = Tcp(port: nat) | Udp(port: nat) | IcmpEcho | Icmp6Echo | OtherPayload

  /** A forwarded packet; `to` is absent when it carries no IP destination. */
  datatype Packet = Packet(src: string, dst: string, to: Option<Address>, payload: Payload)

  datatype Verdict = Accept | Drop | Reject

  // ---- Rules of the forward chain ----

  datatype Side = Saddr | Daddr

  datatype Rule =
    | DropTo(mac: string, asV4: bool, target: CidrText)
    | DropUdp(mac: string, side: Side)
    | DropEcho(mac: string, side: Side, v6: bool)
    | RejectDoT(mac: string)

  predicate OnSide(side: Side, mac: string, pkt: Packet) {
    mac == if side.Saddr? then pkt.src else pkt.dst
  }

  predicate Matches(r: Rule, pkt: Packet) {
    match r
    case DropTo(mac, asV4, target) => mac == pkt.src && pkt.to.Some? && pkt.to.value.V4? == asV4 && target.Contains(pkt.to.value)
    case DropUdp(mac, side) => OnSide(side, mac, pkt) && pkt.payload.Udp?
    case DropEcho(mac, side, v6) => OnSide(side, mac, pkt) && (if v6 then pkt.payload.Icmp6Echo? else pkt.payload.IcmpEcho?)
    case RejectDoT(mac) => mac == pkt.src && pkt.payload == Tcp(853)
  }

  function RuleVerdict(r: Rule): Verdict {
    if r.RejectDoT? then Reject else Drop
  }

  /** The first matching rule decides; the chain's policy is accept. */
  function Evaluate(chain: seq<Rule>, pkt: Packet): Verdict {
    if chain == [] then Accept
    else if Matches(chain[0], pkt) then RuleVerdict(chain[0])
    else Evaluate(chain[1..], pkt)
  }

  /** An `ip` selector takes an IPv4 literal and an `ip6` selector an IPv6 literal; nft refuses anything else. */
  predicate WellTyped(r: Rule) {
    r.DropTo? ==> r.target.address.Some? && r.asV4 == r.target.address.value.V4?
  }

  // ---- Policies ----

  datatype DnsConfig = DnsConfig(upstreams: seq<string>, blockDot: bool)

  datatype Kind =
    | IpBlock(cidrs: seq<CidrText>)
    | UdpBlock
    | PingBlock
    | DnsLock(dns: DnsConfig)
    | DnsOverride(dns: DnsConfig, action: string, domains: seq<string>, addresses: seq<string>)
    | OtherKind(name: string)
  {
    predicate IsDns() {
      DnsLock? || DnsOverride?
    }
  }

  datatype Policy = Policy(id: int, kind: Kind, targets: seq<string>)

  predicate HexDigit(c: char) {
    '0' <= c <= '9' || 'a' <= c <= 'f'
  }

  predicate DigitsAndColons(m: string) {
    forall i :: 0 <= i < |m| ==> if i % 3 == 2 then m[i] == ':' else HexDigit(m[i])
  }

  predicate ValidMac(m: string) {
    |m| == 17 && DigitsAndColons(m)
  }

  predicate HexPair(s: string) {
    |s| == 2 && s[0] in "0123456789abcdef" && s[1] in "0123456789abcdef"
  }

  /** n pairs of digits with colons between them, as the regular expression reads them from the front. */
  predicate HexPairs(m: string, n: nat) {
    if n <= 1 then HexPair(m) else |m| > 3 && HexPair(m[..2]) && m[2] == ':' && HexPairs(m[3..], n - 1)
  }

  lemma HexDigitIs(c: char)
    ensures HexDigit(c) <==> c in "0123456789abcdef"
  {
    var digits := "0123456789abcdef";
    if HexDigit(c) {
      assert digits[if c <= '9' then c as int - '0' as int else c as int - 'a' as int + 10] == c;
    }
  }

  lemma FirstPair(m: string)
    requires |m| >= 3
    ensures DigitsAndColons(m) <==> HexDigit(m[0]) && HexDigit(m[1]) && m[2] == ':' && DigitsAndColons(m[3..])
  {
    var rest := m[3..];
    if DigitsAndColons(m) {
      forall i | 0 <= i < |rest|
        ensures if i % 3 == 2 then rest[i] == ':' else HexDigit(rest[i])
      {
        assert rest[i] == m[i + 3] && (i + 3) % 3 == i % 3;
      }
    }
    if HexDigit(m[0]) && HexDigit(m[1]) && m[2] == ':' && DigitsAndColons(rest) {
      forall i | 3 <= i < |m|
        ensures if i % 3 == 2 then m[i] == ':' else HexDigit(m[i])
      {
        assert rest[i - 3] == m[i] && (i - 3) % 3 == i % 3;
      }
    }
  }

  lemma {:induction false} HexPairsAre(m: string, n: nat)
    requires n >= 1
    ensures HexPairs(m, n) <==> |m| == 3 * n - 1 && DigitsAndColons(m)
  {
    if |m| >= 2 {
      HexDigitIs(m[0]);
      HexDigitIs(m[1]);
    }
    if n > 1 && |m| >= 3 {
      FirstPair(m);
      HexPairsAre(m[3..], n - 1);
    }
  }

  /** A valid MAC is six pairs of lower-case hexadecimal digits with colons between them. */
  lemma ValidMacIff(m: string)
    ensures ValidMac(m) <==> HexPairs(m, 6)
  {
    HexPairsAre(m, 6);
  }

  function NormalMac(raw: string): string {
    ToLower(TrimSpace(raw))
  }

  predicate AllTargetsValid(policies: seq<Policy>) {
    forall i, j :: 0 <= i < |policies| && 0 <= j < |policies[i].targets| ==> ValidMac(NormalMac(policies[i].targets[j]))
  }

  /** One policy applied to one instance. */
  datatype Binding = Binding(kind: Kind, mac: string)

  function TargetBindings(kind: Kind, targets: seq<string>): seq<Binding> {
    if targets == [] then []
    else TargetBindings(kind, targets[..|targets| - 1]) + [Binding(kind, NormalMac(targets[|targets| - 1]))]
  }

  /** Policies in order, and the targets of each in order. */
  function Bindings(policies: seq<Policy>): seq<Binding> {
    if policies == [] then []
    else
      var last := policies[|policies| - 1];
      Bindings(policies[..|policies| - 1]) + TargetBindings(last.kind, last.targets)
  }

  // ---- What the translation produces ----

  /** The parsers of the Go library that decide which words of a DNS policy are usable. */
  datatype Syntax = Syntax(isIp: string -> bool, isDomain: string -> bool)

  datatype Profile = Profile(upstreams: seq<string>, lines: seq<string>, blockDoT: bool)

  const EMPTY_PROFILE := Profile([], [], false)

  datatype Draft = Draft(
    ipv4: seq<Rule>, ipv6: seq<Rule>, transport: seq<Rule>, ping: seq<Rule>,
    profiles: map<string, Profile>)

  const EMPTY_DRAFT := Draft([], [], [], [], map[])

  function BlockRules(mac: string, cidrs: seq<CidrText>, asV4: bool): seq<Rule> {
    if cidrs == [] then []
    else
      var c := cidrs[|cidrs| - 1];
      BlockRules(mac, cidrs[..|cidrs| - 1], asV4) +
      if c.Parses() && c.address.value.To4() == asV4 then [DropTo(mac, asV4, c)] else []
  }

  function IpWords(syntax: Syntax, words: seq<string>): seq<string> {
    if words == [] then []
    else
      var w := words[|words| - 1];
      IpWords(syntax, words[..|words| - 1]) + if syntax.isIp(w) then [w] else []
  }

  function BareDomain(domain: string): string {
    ToLower(if "*." <= domain then domain[2..] else domain)
  }

  function AddressLines(syntax: Syntax, domain: string, addresses: seq<string>): seq<string> {
    if addresses == [] then []
    else
      var a := addresses[|addresses| - 1];
      AddressLines(syntax, domain, addresses[..|addresses| - 1]) +
      if syntax.isIp(a) then ["address=/" + domain + "/" + a] else []
  }

  function DomainLines(syntax: Syntax, action: string, domain: string, addresses: seq<string>): seq<string> {
    if !syntax.isDomain(domain) then []
    else if action == "nxdomain" then ["address=/" + domain + "/"]
    else if action == "zero" then ["address=/" + domain + "/0.0.0.0", "address=/" + domain + "/::"]
    else AddressLines(syntax, domain, addresses)
  }

  function DomainsLines(syntax: Syntax, action: string, domains: seq<string>, addresses: seq<string>): seq<string> {
    if domains == [] then []
    else
      DomainsLines(syntax, action, domains[..|domains| - 1], addresses) +
      DomainLines(syntax, action, BareDomain(domains[|domains| - 1]), addresses)
  }

  function OverrideLines(syntax: Syntax, kind: Kind): seq<string> {
    if kind.DnsOverride? then DomainsLines(syntax, kind.action, kind.domains, kind.addresses) else []
  }

  function ProfileOf(profiles: map<string, Profile>, mac: string): Profile {
    if mac in profiles then profiles[mac] else EMPTY_PROFILE
  }

  function ExtendProfile(syntax: Syntax, kind: Kind, p: Profile): Profile
    requires kind.IsDns()
  {
    Profile(p.upstreams + IpWords(syntax, kind.dns.upstreams),
            p.lines + OverrideLines(syntax, kind),
            p.blockDoT || kind.dns.blockDot)
  }

  /** One binding's contribution. */
  function AddBinding(syntax: Syntax, d: Draft, b: Binding): Draft {
    match b.kind
    case IpBlock(cidrs) => d.(ipv4 := d.ipv4 + BlockRules(b.mac, cidrs, true), ipv6 := d.ipv6 + BlockRules(b.mac, cidrs, false))
    case UdpBlock => d.(transport := d.transport + [DropUdp(b.mac, Saddr), DropUdp(b.mac, Daddr)])
    case PingBlock => d.(ping := d.ping + [DropEcho(b.mac, Saddr, false), DropEcho(b.mac, Daddr, false),
                                           DropEcho(b.mac, Saddr, true), DropEcho(b.mac, Daddr, true)])
    case OtherKind(_) => d
    case _ => d.(profiles := d.profiles[b.mac := ExtendProfile(syntax, b.kind, ProfileOf(d.profiles, b.mac))])
  }

  function Accumulate(syntax: Syntax, bs: seq<Binding>): Draft {
    if bs == [] then EMPTY_DRAFT
    else AddBinding(syntax, Accumulate(syntax, bs[..|bs| - 1]), bs[|bs| - 1])
  }

  /** What the first half of `apply` computes; no draft stands for the missing-MAC error. */
  function Compiled(syntax: Syntax, policies: seq<Policy>): Option<Draft> {
    if AllTargetsValid(policies) then Some(Accumulate(syntax, Bindings(policies))) else None
  }

  // ---- The translation as the agent runs it ----

  method AppendBlocks(mac: string, cidrs: seq<CidrText>, ipv4: seq<Rule>, ipv6: seq<Rule>)
    returns (ipv4': seq<Rule>, ipv6': seq<Rule>)
    ensures ipv4' == ipv4 + BlockRules(mac, cidrs, true)
    ensures ipv6' == ipv6 + BlockRules(mac, cidrs, false)
  {
    ipv4', ipv6' := ipv4, ipv6;
    for i := 0 to |cidrs|
      invariant ipv4' == ipv4 + BlockRules(mac, cidrs[..i], true)
      invariant ipv6' == ipv6 + BlockRules(mac, cidrs[..i], false)
    {
      assert cidrs[..i + 1][..i] == cidrs[..i];
      if cidrs[i].Parses() {
        if cidrs[i].address.value.To4() {
          ipv4' := ipv4' + [DropTo(mac, true, cidrs[i])];
        } else {
          ipv6' := ipv6' + [DropTo(mac, false, cidrs[i])];
        }
      }
    }
    assert cidrs[..|cidrs|] == cidrs;
  }

  method AppendIpWords(syntax: Syntax, words: seq<string>, into: seq<string>) returns (r: seq<string>)
    ensures r == into + IpWords(syntax, words)
  {
    r := into;
    for i := 0 to |words|
      invariant r == into + IpWords(syntax, words[..i])
    {
      assert words[..i + 1][..i] == words[..i];
      if syntax.isIp(words[i]) {
        r := r + [words[i]];
      }
    }
    assert words[..|words|] == words;
  }

  method AppendAddresses(syntax: Syntax, domain: string, addresses: seq<string>, into: seq<string>) returns (r: seq<string>)
    ensures r == into + AddressLines(syntax, domain, addresses)
  {
    r := into;
    for i := 0 to |addresses|
      invariant r == into + AddressLines(syntax, domain, addresses[..i])
    {
      assert addresses[..i + 1][..i] == addresses[..i];
      if syntax.isIp(addresses[i]) {
        r := r + ["address=/" + domain + "/" + addresses[i]];
      }
    }
    assert addresses[..|addresses|] == addresses;
  }

  /** The switch on the action, for one domain. */
  method AppendDomain(syntax: Syntax, action: string, domain: string, addresses: seq<string>, into: seq<string>) returns (r: seq<string>)
    ensures r == into + DomainLines(syntax, action, domain, addresses)
  {
    if !syntax.isDomain(domain) {
      return into;
    }
    if action == "nxdomain" {
      r := into + ["address=/" + domain + "/"];
    } else if action == "zero" {
      r := into + ["address=/" + domain + "/0.0.0.0", "address=/" + domain + "/::"];
    } else {
      r := AppendAddresses(syntax, domain, addresses, into);
    }
  }

  method AppendOverrides(syntax: Syntax, action: string, domains: seq<string>, addresses: seq<string>, into: seq<string>)
    returns (r: seq<string>)
    ensures r == into + DomainsLines(syntax, action, domains, addresses)
  {
    r := into;
    for i := 0 to |domains|
      invariant r == into + DomainsLines(syntax, action, domains[..i], addresses)
    {
      assert domains[..i + 1][..i] == domains[..i];
      r := AppendDomain(syntax, action, BareDomain(domains[i]), addresses, r);
    }
    assert domains[..|domains|] == domains;
  }

  /** The switch on the policy type. */
  method AddTarget(syntax: Syntax, kind: Kind, mac: string, d: Draft) returns (r: Draft)
    ensures r == AddBinding(syntax, d, Binding(kind, mac))
  {
    r := d;
    if kind.IpBlock? {
      var ipv4, ipv6 := AppendBlocks(mac, kind.cidrs, r.ipv4, r.ipv6);
      r := r.(ipv4 := ipv4, ipv6 := ipv6);
    } else if kind.UdpBlock? {
      r := r.(transport := r.transport + [DropUdp(mac, Saddr), DropUdp(mac, Daddr)]);
    } else if kind.PingBlock? {
      r := r.(ping := r.ping + [DropEcho(mac, Saddr, false), DropEcho(mac, Daddr, false),
                                DropEcho(mac, Saddr, true), DropEcho(mac, Daddr, true)]);
    } else if kind.IsDns() {
      var profile := EMPTY_PROFILE;
      if mac in r.profiles {
        profile := r.profiles[mac];
      }
      var upstreams := AppendIpWords(syntax, kind.dns.upstreams, profile.upstreams);
      profile := profile.(upstreams := upstreams);
      if kind.dns.blockDot {
        profile := profile.(blockDoT := true);
      }
      if kind.DnsOverride? {
        var lines := AppendOverrides(syntax, kind.action, kind.domains, kind.addresses, profile.lines);
        profile := profile.(lines := lines);
      }
      assert profile == ExtendProfile(syntax, kind, ProfileOf(d.profiles, mac));
      r := r.(profiles := r.profiles[mac := profile]);
    }
  }

  /** The first pass: no part of a bundle is used unless every target has a MAC. */
  method CheckTargets(policies: seq<Policy>) returns (ok: bool)
    ensures ok <==> AllTargetsValid(policies)
  {
    for i := 0 to |policies|
      invariant AllTargetsValid(policies[..i])
    {
      var targets := policies[i].targets;
      for j := 0 to |targets|
        invariant forall k :: 0 <= k < j ==> ValidMac(NormalMac(targets[k]))
      {
        if !ValidMac(NormalMac(targets[j])) {
          return false;
        }
      }
    }
    assert policies[..|policies|] == policies;
    return true;
  }

  /** The translating half of `apply`. */
  method Compile(syntax: Syntax, policies: seq<Policy>) returns (r: Option<Draft>)
    ensures r == Compiled(syntax, policies)
  {
    var ok := CheckTargets(policies);
    if !ok {
      return None;
    }
    var d := EMPTY_DRAFT;
    for i := 0 to |policies|
      invariant d == Accumulate(syntax, Bindings(policies[..i]))
    {
      var item := policies[i];
      ghost var before := Bindings(policies[..i]);
      assert policies[..i + 1][..i] == policies[..i];
      assert before + TargetBindings(item.kind, []) == before;
      for j := 0 to |item.targets|
        invariant d == Accumulate(syntax, before + TargetBindings(item.kind, item.targets[..j]))
      {
        BindingStep(before, item.kind, item.targets, j);
        var mac := NormalMac(item.targets[j]);
        d := AddTarget(syntax, item.kind, mac, d);
      }
      assert item.targets[..|item.targets|] == item.targets;
    }
    assert policies[..|policies|] == policies;
    return Some(d);
  }

  lemma BindingStep(before: seq<Binding>, kind: Kind, targets: seq<string>, j: nat)
    requires j < |targets|
    ensures before + TargetBindings(kind, targets[..j + 1])
         == before + TargetBindings(kind, targets[..j]) + [Binding(kind, NormalMac(targets[j]))]
  {
    assert targets[..j + 1][..j] == targets[..j];
  }
}
