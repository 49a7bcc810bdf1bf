/** What ends up in each instance's dnsmasq profile. */
module DnsProfiles {
  import opened Text
  import opened NetworkPolicy
  import opened PolicyTable

  // ---- unique ----

  /** `values` appended to `kept`, leaving out empty and already present ones. */
  function Extend(kept: seq<string>, values: seq<string>): seq<string> {
    if values == [] then kept
    else
      var before := Extend(kept, values[..|values| - 1]);
      var v := values[|values| - 1];
      if v == "" || v in before then before else before + [v]
  }

  function Distinct(values: seq<string>): seq<string> {
    Extend([], values)
  }

  /** `unique`. */
  method Unique(values: seq<string>) returns (out: seq<string>)
    ensures out == Distinct(values)
  {
    var seen: set<string> := {};
    out := [];
    for i := 0 to |values|
      invariant out == Distinct(values[..i])
      invariant forall v :: v in seen <==> v in out
    {
      assert values[..i + 1][..i] == values[..i];
      if values[i] != "" && values[i] !in seen {
        seen := seen + {values[i]};
        out := out + [values[i]];
      }
    }
    assert values[..|values|] == values;
  }

  lemma {:induction false} ExtendMembers(kept: seq<string>, values: seq<string>, v: string)
    ensures v in Extend(kept, values) <==> v in kept || (v in values && v != "")
  {
    if values != [] {
      var init, last := values[..|values| - 1], values[|values| - 1];
      assert v in values <==> v in init || v == last;
      ExtendMembers(kept, init, v);
      ExtendMembers(kept, init, last);
    }
  }

  lemma {:induction false} ExtendAppend(kept: seq<string>, a: seq<string>, b: seq<string>)
    ensures Extend(kept, a + b) == Extend(Extend(kept, a), b)
  {
    if b == [] {
      assert a + b == a;
    } else {
      ExtendAppend(kept, a, b[..|b| - 1]);
      assert (a + b)[..|a + b| - 1] == a + b[..|b| - 1];
    }
  }

  lemma {:induction false} ExtendNothing(kept: seq<string>, values: seq<string>)
    requires forall v :: v in values ==> v == "" || v in kept
    ensures Extend(kept, values) == kept
  {
    if values != [] {
      ExtendNothing(kept, values[..|values| - 1]);
    }
  }

  /** Each kept value stands where it first occurs: before it come exactly the distinct values of the part before. */
  lemma {:induction false} FirstOccurrenceOrder(values: seq<string>, i: nat) returns (k: nat)
    requires i < |Distinct(values)|
    ensures k < |values| && values[k] == Distinct(values)[i] && values[k] !in values[..k]
    ensures Distinct(values[..k]) == Distinct(values)[..i]
  {
    var init, last := values[..|values| - 1], values[|values| - 1];
    if i < |Distinct(init)| {
      k := FirstOccurrenceOrder(init, i);
      assert init[..k] == values[..k];
      assert Distinct(values)[..i] == Distinct(init)[..i];
    } else {
      k := |values| - 1;
      ExtendMembers([], init, last);
      assert Distinct(values)[..i] == Distinct(init);
    }
  }

  lemma {:induction false} NoRepeats(values: seq<string>, i: nat, j: nat)
    requires i < j < |Distinct(values)|
    ensures Distinct(values)[i] != Distinct(values)[j]
  {
    var k := FirstOccurrenceOrder(values, j);
    var l := FirstOccurrenceOrder(values, i);
    ExtendMembers([], values[..k], Distinct(values)[j]);
    assert Distinct(values)[i] == Distinct(values[..k])[i];
  }

  // ---- The union over all policies that name an instance ----

  /** The words that one DNS policy contributes to a profile: its upstreams, or its override lines. */
  function Words(syntax: Syntax, kind: Kind, lines: bool): seq<string> {
    if !kind.IsDns() then []
    else if lines then OverrideLines(syntax, kind)
    else IpWords(syntax, kind.dns.upstreams)
  }

  predicate Names(p: Policy, mac: string) {
    exists t :: t in p.targets && NormalMac(t) == mac
  }

  /** Policy by policy in bundle order, the words of those that name the MAC, each policy once. */
  function UnionOf(syntax: Syntax, policies: seq<Policy>, mac: string, lines: bool): seq<string> {
    if policies == [] then []
    else
      var last := policies[|policies| - 1];
      UnionOf(syntax, policies[..|policies| - 1], mac, lines) + if Names(last, mac) then Words(syntax, last.kind, lines) else []
  }

  function ProfileWords(p: Profile, lines: bool): seq<string> {
    if lines then p.lines else p.upstreams
  }

  /** What the bindings accumulate for the MAC. */
  function Accumulated(syntax: Syntax, bs: seq<Binding>, mac: string, lines: bool): seq<string> {
    ProfileWords(ProfileOf(Accumulate(syntax, bs).profiles, mac), lines)
  }

  lemma AccumulatedSnoc(syntax: Syntax, bs: seq<Binding>, b: Binding, mac: string, lines: bool)
    ensures Accumulated(syntax, bs + [b], mac, lines)
         == Accumulated(syntax, bs, mac, lines) + if b.mac == mac then Words(syntax, b.kind, lines) else []
  {
    assert (bs + [b])[..|bs|] == bs;
  }

  lemma ExtendAgain(kept: seq<string>, words: seq<string>)
    ensures Extend(Extend(kept, words), words) == Extend(kept, words)
  {
    forall v | v in words && v != ""
      ensures v in Extend(kept, words)
    {
      ExtendMembers(kept, words, v);
    }
    ExtendNothing(Extend(kept, words), words);
  }

  lemma {:induction false} AccumulatedWords(syntax: Syntax, a: seq<Binding>, b: seq<Binding>, mac: string, lines: bool, words: seq<string>)
    requires forall x :: x in b && x.mac == mac ==> Words(syntax, x.kind, lines) == words
    ensures Distinct(Accumulated(syntax, a + b, mac, lines))
         == Extend(Distinct(Accumulated(syntax, a, mac, lines)), if exists x :: x in b && x.mac == mac then words else [])
  {
    if b == [] {
      assert a + b == a;
    } else {
      var init, last := b[..|b| - 1], b[|b| - 1];
      assert forall x :: x in b <==> x in init || x == last;
      assert a + b == (a + init) + [last];
      AccumulatedWords(syntax, a, init, mac, lines, words);
      AccumulatedSnoc(syntax, a + init, last, mac, lines);
      var prior := Accumulated(syntax, a + init, mac, lines);
      if last.mac == mac {
        ExtendAppend([], prior, words);
        ExtendAgain(Distinct(Accumulated(syntax, a, mac, lines)), words);
      } else {
        assert prior + [] == prior;
      }
    }
  }

  /**
   * Naming an instance twice in one policy adds nothing: after duplicates are removed, the accumulated words are
   * those of the policies that name the MAC, in bundle order and each policy once.
   */
  lemma {:induction false} ProfileIsUnion(syntax: Syntax, policies: seq<Policy>, mac: string, lines: bool)
    ensures Distinct(Accumulated(syntax, Bindings(policies), mac, lines))
         == Distinct(UnionOf(syntax, policies, mac, lines))
  {
    if policies != [] {
      var init, last := policies[..|policies| - 1], policies[|policies| - 1];
      ProfileIsUnion(syntax, init, mac, lines);
      var bs, words := TargetBindings(last.kind, last.targets), Words(syntax, last.kind, lines);
      forall b | b in bs
        ensures Words(syntax, b.kind, lines) == words
      {
        TargetBindingsIn(last.kind, last.targets, b);
      }
      AccumulatedWords(syntax, Bindings(init), bs, mac, lines, words);
      NamesByBinding(last, mac);
      ExtendAppend([], UnionOf(syntax, init, mac, lines), if Names(last, mac) then words else []);
    }
  }

  lemma NamesByBinding(p: Policy, mac: string)
    ensures Names(p, mac) <==> exists b :: b in TargetBindings(p.kind, p.targets) && b.mac == mac
  {
    if b :| b in TargetBindings(p.kind, p.targets) && b.mac == mac {
      TargetBindingsIn(p.kind, p.targets, b);
    }
    if t :| t in p.targets && NormalMac(t) == mac {
      TargetBindingsIn(p.kind, p.targets, Binding(p.kind, mac));
    }
  }

  // ---- Which words a profile holds ----

  /** The domain of an entry, in lower case and without a leading `*.`. */
  ghost predicate BareOf(entry: string, domain: string) {
    exists rest :: (entry == "*." + rest || (entry == rest && !("*." <= entry))) && domain == ToLower(rest)
  }

  /** A line that overrides the domain as the action says: no address, the null addresses, or the listed ones. */
  ghost predicate Overrides(syntax: Syntax, action: string, domain: string, addresses: seq<string>, line: string) {
    if action == "nxdomain" then line == "address=/" + domain + "/"
    else if action == "zero" then line == "address=/" + domain + "/0.0.0.0" || line == "address=/" + domain + "/::"
    else exists a :: a in addresses && syntax.isIp(a) && line == "address=/" + domain + "/" + a
  }

  /** The policy is a dns_override with a valid domain that asks for the line. */
  ghost predicate AsksForLine(syntax: Syntax, kind: Kind, line: string) {
    kind.DnsOverride? && exists entry, domain ::
      entry in kind.domains && BareOf(entry, domain) && syntax.isDomain(domain) && Overrides(syntax, kind.action, domain, kind.addresses, line)
  }

  ghost predicate AsksForUpstream(syntax: Syntax, kind: Kind, upstream: string) {
    kind.IsDns() && upstream in kind.dns.upstreams && syntax.isIp(upstream)
  }

  lemma BareOfIs(entry: string, domain: string)
    ensures BareOf(entry, domain) <==> domain == BareDomain(entry)
  {
    var rest := if "*." <= entry then entry[2..] else entry;
    if "*." <= entry {
      assert entry == "*." + rest;
      forall other | entry == "*." + other
        ensures other == rest
      {
        assert other == entry[2..];
      }
    }
    assert BareOf(entry, ToLower(rest));
  }

  lemma {:induction false} AddressLinesIff(syntax: Syntax, domain: string, addresses: seq<string>, line: string)
    ensures line in AddressLines(syntax, domain, addresses)
       <==> exists a :: a in addresses && syntax.isIp(a) && line == "address=/" + domain + "/" + a
  {
    if addresses != [] {
      var init, last := addresses[..|addresses| - 1], addresses[|addresses| - 1];
      assert forall x :: x in addresses <==> x in init || x == last;
      AddressLinesIff(syntax, domain, init, line);
    }
  }

  lemma DomainLinesIff(syntax: Syntax, action: string, domain: string, addresses: seq<string>, line: string)
    ensures line in DomainLines(syntax, action, domain, addresses)
       <==> syntax.isDomain(domain) && Overrides(syntax, action, domain, addresses, line)
  {
    AddressLinesIff(syntax, domain, addresses, line);
  }

  lemma {:induction false} DomainsLinesIff(syntax: Syntax, action: string, domains: seq<string>, addresses: seq<string>, line: string)
    ensures line in DomainsLines(syntax, action, domains, addresses)
       <==> exists entry :: entry in domains && line in DomainLines(syntax, action, BareDomain(entry), addresses)
  {
    if domains != [] {
      var init, last := domains[..|domains| - 1], domains[|domains| - 1];
      assert forall x :: x in domains <==> x in init || x == last;
      DomainsLinesIff(syntax, action, init, addresses, line);
    }
  }

  lemma OverrideLinesIff(syntax: Syntax, kind: Kind, line: string)
    ensures line in OverrideLines(syntax, kind) <==> AsksForLine(syntax, kind, line)
  {
    if kind.DnsOverride? {
      DomainsLinesIff(syntax, kind.action, kind.domains, kind.addresses, line);
      forall entry
        ensures line in DomainLines(syntax, kind.action, BareDomain(entry), kind.addresses)
           <==> exists domain :: BareOf(entry, domain) && syntax.isDomain(domain) && Overrides(syntax, kind.action, domain, kind.addresses, line)
      {
        EntryLines(syntax, kind, entry, line);
      }
    }
  }

  lemma EntryLines(syntax: Syntax, kind: Kind, entry: string, line: string)
    requires kind.DnsOverride?
    ensures line in DomainLines(syntax, kind.action, BareDomain(entry), kind.addresses)
       <==> exists domain :: BareOf(entry, domain) && syntax.isDomain(domain) && Overrides(syntax, kind.action, domain, kind.addresses, line)
  {
    DomainLinesIff(syntax, kind.action, BareDomain(entry), kind.addresses, line);
    BareOfIs(entry, BareDomain(entry));
    forall domain | BareOf(entry, domain)
      ensures domain == BareDomain(entry)
    {
      BareOfIs(entry, domain);
    }
  }

  lemma {:induction false} IpWordsIff(syntax: Syntax, words: seq<string>, w: string)
    ensures w in IpWords(syntax, words) <==> w in words && syntax.isIp(w)
  {
    if words != [] {
      var init, last := words[..|words| - 1], words[|words| - 1];
      assert forall x :: x in words <==> x in init || x == last;
      IpWordsIff(syntax, init, w);
    }
  }

  lemma {:induction false} UnionIff(syntax: Syntax, policies: seq<Policy>, mac: string, lines: bool, w: string)
    ensures w in UnionOf(syntax, policies, mac, lines)
       <==> exists p :: p in policies && Names(p, mac) && w in Words(syntax, p.kind, lines)
  {
    if policies != [] {
      var init, last := policies[..|policies| - 1], policies[|policies| - 1];
      assert forall x :: x in policies <==> x in init || x == last;
      UnionIff(syntax, init, mac, lines, w);
    }
  }

  /** An override line is among those of the policies if and only if one that names the MAC asks for it. */
  lemma LinesOfPolicies(syntax: Syntax, policies: seq<Policy>, mac: string, line: string)
    ensures line in Distinct(UnionOf(syntax, policies, mac, true))
       <==> exists p :: p in policies && Names(p, mac) && AsksForLine(syntax, p.kind, line)
  {
    ExtendMembers([], UnionOf(syntax, policies, mac, true), line);
    UnionIff(syntax, policies, mac, true, line);
    forall p: Policy
      ensures line in Words(syntax, p.kind, true) <==> AsksForLine(syntax, p.kind, line)
    {
      OverrideLinesIff(syntax, p.kind, line);
    }
    if p :| p in policies && Names(p, mac) && AsksForLine(syntax, p.kind, line) {
      LineNotEmpty(syntax, p.kind, line);
    }
  }

  lemma LineNotEmpty(syntax: Syntax, kind: Kind, line: string)
    requires AsksForLine(syntax, kind, line)
    ensures line != ""
  {
  }

  /** So is an upstream; the empty text is never kept. */
  lemma UpstreamsOfPolicies(syntax: Syntax, policies: seq<Policy>, mac: string, upstream: string)
    ensures upstream in Distinct(UnionOf(syntax, policies, mac, false))
       <==> upstream != "" && exists p :: p in policies && Names(p, mac) && AsksForUpstream(syntax, p.kind, upstream)
  {
    ExtendMembers([], UnionOf(syntax, policies, mac, false), upstream);
    UnionIff(syntax, policies, mac, false, upstream);
    forall p: Policy
      ensures upstream in Words(syntax, p.kind, false) <==> AsksForUpstream(syntax, p.kind, upstream)
    {
      if p.kind.IsDns() {
        IpWordsIff(syntax, p.kind.dns.upstreams, upstream);
      }
    }
  }
}
