/** Finding the bridge of the instances from the output of `bridge fdb show`. */
module BridgeDetection {
  import opened Text

  /** The length of the run of characters at the front that are not white space. */
  function WordLength(s: string): (n: nat)
    ensures n <= |s| && (n == 0 <==> s == "" || IsSpace(s[0]))
  {
    if s == "" || IsSpace(s[0]) then 0 else 1 + WordLength(s[1..])
  }

  /** `strings.Fields`. */
  function Fields(line: string): seq<string> {
    if line == "" then []
    else
      var n := WordLength(line);
      if n == 0 then Fields(line[1..]) else [line[..n]] + Fields(line[n..])
  }

  predicate NoSpace(s: string) {
    forall i :: 0 <= i < |s| ==> !IsSpace(s[i])
  }

  lemma {:induction false} WordEnds(w: string, rest: string)
    requires NoSpace(w) && (rest == "" || IsSpace(rest[0]))
    ensures WordLength(w + rest) == |w|
  {
    if w == "" {
      assert w + rest == rest;
    } else {
      assert (w + rest)[1..] == w[1..] + rest;
      WordEnds(w[1..], rest);
    }
  }

  /** The fields of a line are what stands between white space, which these three equations determine. */
  lemma FieldsAre(w: string, c: char, rest: string)
    requires IsSpace(c) && w != "" && NoSpace(w)
    ensures Fields([c] + rest) == Fields(rest)
    ensures Fields(w + [c] + rest) == [w] + Fields([c] + rest)
    ensures Fields(w) == [w]
  {
    assert ([c] + rest)[1..] == rest;
    WordEnds(w, [c] + rest);
    assert w + [c] + rest == w + ([c] + rest);
    assert (w + ([c] + rest))[..|w|] == w && (w + ([c] + rest))[|w|..] == [c] + rest;
    WordEnds(w, "");
    assert w + "" == w && w[..|w|] == w && w[|w|..] == "";
  }

  function AllFields(lines: seq<string>): (r: seq<seq<string>>)
    ensures |r| == |lines|
  {
    seq(|lines|, i requires 0 <= i < |lines| => Fields(lines[i]))
  }

  /** A device name that may be written into a rule: at most 15 of the listed ASCII characters. */
  predicate SaneName(name: string) {
    name != "" && |name| <= 15 &&
    forall c :: c in name ==> 'a' <= c <= 'z' || 'A' <= c <= 'Z' || '0' <= c <= '9' || c in {'.', '-', '_'}
  }

  /** `isSaneInterfaceName`. */
  method IsSaneInterfaceName(name: string) returns (sane: bool)
    ensures sane <==> SaneName(name)
  {
    if name == "" || |name| > 15 {
      return false;
    }
    for i := 0 to |name|
      invariant forall j :: 0 <= j < i ==> name[j] in name && ('a' <= name[j] <= 'z' || 'A' <= name[j] <= 'Z' || '0' <= name[j] <= '9' || name[j] in {'.', '-', '_'})
    {
      var r := name[i];
      if !('a' <= r <= 'z' || 'A' <= r <= 'Z' || '0' <= r <= '9' || r == '.' || r == '-' || r == '_') {
        assert r in name;
        return false;
      }
    }
    return true;
  }

  type Weights = map<string, nat>

  function Weight(w: Weights, name: string): nat {
    if name in w then w[name] else 0
  }

  predicate Wanted(fields: seq<string>, wanted: set<string>) {
    |fields| >= 2 && ToLower(fields[0]) in wanted
  }

  /** What the field at position i is worth: 2 after `master`, 1 after a `dev` that no `master` precedes. */
  function PositionWeight(fields: seq<string>, i: nat): nat
    requires 2 <= i < |fields|
  {
    if fields[i - 1] == "master" then 2
    else if fields[i - 1] == "dev" && "master" !in fields[1..i - 1] then 1
    else 0
  }

  /** What a name is worth in the fields before position n. */
  function FieldWeight(fields: seq<string>, n: nat, name: string): nat
    requires n <= |fields|
  {
    if n <= 2 then 0
    else FieldWeight(fields, n - 1, name) + if fields[n - 1] == name then PositionWeight(fields, n - 1) else 0
  }

  function LineWeight(fields: seq<string>, wanted: set<string>, name: string): nat {
    if Wanted(fields, wanted) then FieldWeight(fields, |fields|, name) else 0
  }

  /** The weight a name accumulates over all lines. */
  function TotalWeight(lines: seq<seq<string>>, wanted: set<string>, name: string): nat {
    if lines == [] then 0
    else TotalWeight(lines[..|lines| - 1], wanted, name) + LineWeight(lines[|lines| - 1], wanted, name)
  }

  /** The body of the line loop. */
  method AddLine(fields: seq<string>, wanted: set<string>, weights: Weights) returns (weights': Weights)
    ensures forall name :: Weight(weights', name) == Weight(weights, name) + LineWeight(fields, wanted, name)
  {
    weights' := weights;
    if |fields| < 2 || ToLower(fields[0]) !in wanted {
      return;
    }
    var hasMaster := false;
    assert forall name :: FieldWeight(fields, 2, name) == 0;
    for i := 1 to |fields| - 1
      invariant hasMaster <==> "master" in fields[1..i]
      invariant forall name :: Weight(weights', name) == Weight(weights, name) + FieldWeight(fields, i + 1, name)
    {
      var next := fields[i + 1];
      assert fields[1..i + 1] == fields[1..i] + [fields[i]];
      if fields[i] == "master" {
        weights' := weights'[next := Weight(weights', next) + 2];
        hasMaster := true;
      } else if fields[i] == "dev" {
        if !hasMaster {
          weights' := weights'[next := Weight(weights', next) + 1];
        }
      }
    }
  }

  /** The least sane name of maximal weight; the empty name if no sane name has any weight. */
  ghost predicate IsBest(lines: seq<seq<string>>, wanted: set<string>, best: string) {
    if best == "" then forall name :: SaneName(name) ==> TotalWeight(lines, wanted, name) == 0
    else
      && SaneName(best) && TotalWeight(lines, wanted, best) > 0
      && forall name :: SaneName(name) && name != best ==> Beats(lines, wanted, best, name)
  }

  ghost predicate Beats(lines: seq<seq<string>>, wanted: set<string>, best: string, name: string) {
    var w, v := TotalWeight(lines, wanted, best), TotalWeight(lines, wanted, name);
    w > v || (w == v && Less(best, name))
  }

  /** `pickBridgeFromFdbOutput`. */
  method PickBridge(output: string, wanted: set<string>) returns (best: string)
    ensures IsBest(AllFields(Split(output, '\n')), wanted, best)
  {
    var text := Split(output, '\n');
    ghost var lines := AllFields(text);
    var weights: Weights := map[];
    for i := 0 to |text|
      invariant forall name :: Weight(weights, name) == TotalWeight(lines[..i], wanted, name)
    {
      assert lines[..i + 1][..i] == lines[..i];
      weights := AddLine(Fields(text[i]), wanted, weights);
    }
    assert lines[..|text|] == lines;

    var keys := weights.Keys;
    var listed: seq<string> := [];
    while keys != {}
      invariant forall x :: x in weights <==> x in keys || x in listed
      invariant forall x :: x in keys ==> x !in listed
      invariant forall i, j :: 0 <= i < j < |listed| ==> listed[i] != listed[j]
      decreases |keys|
    {
      var name :| name in keys;
      keys := keys - {name};
      listed := listed + [name];
    }
    var names := SortKeys(listed);
    best := ChooseBest(names, weights);
    assert forall name :: SaneName(name) && TotalWeight(lines, wanted, name) > 0 ==> name in names;
    if best != "" {
      forall name | SaneName(name) && name != best
        ensures Beats(lines, wanted, best, name)
      {
        if name in names {
          var i :| 0 <= i < |names| && names[i] == name;
        }
      }
    }
  }

  /** The last loop: names in ascending order, and only a strictly greater weight replaces the choice. */
  method ChooseBest(names: seq<string>, weights: Weights) returns (best: string)
    requires Ascending(names)
    requires forall x :: x in names ==> x in weights
    ensures best == "" ==> forall name :: name in names && SaneName(name) ==> weights[name] == 0
    ensures best != "" ==> SaneName(best) && best in weights && weights[best] > 0
    ensures best != "" ==> forall i :: 0 <= i < |names| && SaneName(names[i]) && names[i] != best ==>
      weights[best] > weights[names[i]] || (weights[best] == weights[names[i]] && Less(best, names[i]))
  {
    best := "";
    var bestWeight := 0;
    for i := 0 to |names|
      invariant best == "" ==> bestWeight == 0
      invariant best != "" ==> best in names[..i] && SaneName(best) && bestWeight == weights[best] > 0
      invariant forall j :: 0 <= j < i && SaneName(names[j]) && names[j] != best ==>
        bestWeight > weights[names[j]] || (bestWeight == weights[names[j]] && (best == "" || Less(best, names[j])))
    {
      var name := names[i];
      var sane := IsSaneInterfaceName(name);
      if weights[name] > bestWeight && sane {
        best := name;
        bestWeight := weights[name];
      }
    }
  }

  // ---- Consequences ----

  lemma BestUnique(lines: seq<seq<string>>, wanted: set<string>, a: string, b: string)
    requires IsBest(lines, wanted, a) && IsBest(lines, wanted, b)
    ensures a == b
  {
    if a != b {
      assert a != "" && b != "" ==> Beats(lines, wanted, a, b) && Beats(lines, wanted, b, a);
      LessTotal(a, b);
    }
  }

  lemma {:induction false} RemoveLine(lines: seq<seq<string>>, wanted: set<string>, name: string, i: nat)
    requires i < |lines|
    ensures TotalWeight(lines, wanted, name) == TotalWeight(lines[..i] + lines[i + 1..], wanted, name) + LineWeight(lines[i], wanted, name)
  {
    var init, last := lines[..|lines| - 1], lines[|lines| - 1];
    if i == |init| {
      assert lines[..i] + lines[i + 1..] == init;
    } else {
      RemoveLine(init, wanted, name, i);
      var rest := lines[..i] + lines[i + 1..];
      assert rest[..|rest| - 1] == init[..i] + init[i + 1..] && rest[|rest| - 1] == last;
    }
  }

  lemma RemoveElement<T>(s: seq<T>, i: nat)
    requires i < |s|
    ensures multiset(s[..i] + s[i + 1..]) == multiset(s) - multiset{s[i]}
  {
    assert s == s[..i] + ([s[i]] + s[i + 1..]);
  }

  lemma {:induction false} WeightPermutes(a: seq<seq<string>>, b: seq<seq<string>>, wanted: set<string>, name: string)
    requires multiset(a) == multiset(b)
    ensures TotalWeight(a, wanted, name) == TotalWeight(b, wanted, name)
    decreases |a|
  {
    if a == [] {
      assert |multiset(b)| == 0;
    } else {
      var init, last := a[..|a| - 1], a[|a| - 1];
      assert a == init + [last];
      assert last in multiset(b);
      var i :| 0 <= i < |b| && b[i] == last;
      RemoveLine(b, wanted, name, i);
      RemoveElement(b, i);
      assert multiset(init) == multiset(a) - multiset{last};
      WeightPermutes(init, b[..i] + b[i + 1..], wanted, name);
    }
  }

  /** The order in which the kernel lists the entries does not matter. */
  lemma OrderDoesNotMatter(a: seq<seq<string>>, b: seq<seq<string>>, wanted: set<string>, best: string)
    requires multiset(a) == multiset(b)
    ensures IsBest(a, wanted, best) <==> IsBest(b, wanted, best)
  {
    forall name
      ensures TotalWeight(a, wanted, name) == TotalWeight(b, wanted, name)
    {
      WeightPermutes(a, b, wanted, name);
    }
  }

  predicate Keyword(word: string) {
    word == "dev" || word == "master"
  }

  /** `mac dev D master M`, and then words that are no keywords. */
  ghost predicate PortOf(fields: seq<string>, bridge: string) {
    && |fields| >= 5 && fields[1] == "dev" && fields[3] == "master" && fields[4] == bridge
    && !Keyword(fields[2]) && forall i :: 4 <= i < |fields| ==> !Keyword(fields[i])
  }

  lemma {:induction false} PortWeight(fields: seq<string>, bridge: string, name: string, n: nat)
    requires PortOf(fields, bridge) && 5 <= n <= |fields|
    ensures FieldWeight(fields, n, name) == (if name == fields[2] then 1 else 0) + (if name == bridge then 2 else 0)
  {
    if n > 5 {
      PortWeight(fields, bridge, name, n - 1);
    } else {
      assert fields[1..1] == [];
      assert FieldWeight(fields, 3, name) == if name == fields[2] then 1 else 0;
      assert FieldWeight(fields, 4, name) == FieldWeight(fields, 3, name);
    }
  }

  function WantedCount(lines: seq<seq<string>>, wanted: set<string>): nat {
    if lines == [] then 0
    else WantedCount(lines[..|lines| - 1], wanted) + if Wanted(lines[|lines| - 1], wanted) then 1 else 0
  }

  lemma {:induction false} BridgeOutweighs(lines: seq<seq<string>>, wanted: set<string>, bridge: string, name: string)
    requires forall l :: l in lines && Wanted(l, wanted) ==> PortOf(l, bridge)
    ensures TotalWeight(lines, wanted, bridge) >= 2 * WantedCount(lines, wanted)
    ensures name != bridge ==> TotalWeight(lines, wanted, name) <= WantedCount(lines, wanted)
  {
    if lines != [] {
      var last := lines[|lines| - 1];
      BridgeOutweighs(lines[..|lines| - 1], wanted, bridge, name);
      if Wanted(last, wanted) {
        PortWeight(last, bridge, name, |last|);
        PortWeight(last, bridge, bridge, |last|);
      }
    }
  }

  /** If every wanted entry is a port of one bridge, that bridge is the choice. */
  lemma CommonBridgeWins(lines: seq<seq<string>>, wanted: set<string>, bridge: string, best: string)
    requires SaneName(bridge) && WantedCount(lines, wanted) > 0
    requires forall l :: l in lines && Wanted(l, wanted) ==> PortOf(l, bridge)
    requires IsBest(lines, wanted, best)
    ensures best == bridge
  {
    assert best != "" && best != bridge ==> Beats(lines, wanted, best, bridge);
    BridgeOutweighs(lines, wanted, bridge, best);
  }

  // ---- What the comment on the function says ----

  /** The comment's weights: a line that has a `master` counts for its masters only. */
  function CommentPosition(fields: seq<string>, i: nat): nat
    requires 2 <= i < |fields|
  {
    if fields[i - 1] == "master" then 2
    else if fields[i - 1] == "dev" && "master" !in fields[1..|fields| - 1] then 1
    else 0
  }

  function CommentWeight(fields: seq<string>, n: nat, name: string): nat
    requires n <= |fields|
  {
    if n <= 2 then 0
    else CommentWeight(fields, n - 1, name) + if fields[n - 1] == name then CommentPosition(fields, n - 1) else 0
  }

  /** A `dev` that no `master` precedes, and one follows. */
  predicate EarlyDev(fields: seq<string>, j: nat) {
    1 <= j < |fields| - 1 && fields[j] == "dev" && "master" !in fields[1..j] && "master" in fields[j..|fields| - 1]
  }

  ghost predicate HasEarlyDev(fields: seq<string>) {
    exists j :: EarlyDev(fields, j)
  }

  lemma PositionsDiffer(fields: seq<string>, i: nat)
    requires 2 <= i < |fields|
    ensures PositionWeight(fields, i) == CommentPosition(fields, i) + if EarlyDev(fields, i - 1) then 1 else 0
  {
    assert fields[1..|fields| - 1] == fields[1..i - 1] + fields[i - 1..|fields| - 1];
  }

  /** How many positions of the name count against the comment. */
  function EarlyDevs(fields: seq<string>, n: nat, name: string): nat
    requires n <= |fields|
  {
    if n <= 2 then 0
    else EarlyDevs(fields, n - 1, name) + if fields[n - 1] == name && EarlyDev(fields, n - 2) then 1 else 0
  }

  lemma {:induction false} WeightsDiffer(fields: seq<string>, n: nat, name: string)
    requires n <= |fields|
    ensures FieldWeight(fields, n, name) == CommentWeight(fields, n, name) + EarlyDevs(fields, n, name)
  {
    if n > 2 {
      PositionsDiffer(fields, n - 1);
      WeightsDiffer(fields, n - 1, name);
    }
  }

  lemma {:induction false} EarlyDevsCount(fields: seq<string>, n: nat, j: nat)
    requires EarlyDev(fields, j) && j + 1 < n <= |fields|
    ensures EarlyDevs(fields, n, fields[j + 1]) > 0
  {
    if n - 2 != j {
      EarlyDevsCount(fields, n - 1, j);
    }
  }

  lemma {:induction false} NoEarlyDevs(fields: seq<string>, n: nat, name: string)
    requires n <= |fields| && !HasEarlyDev(fields)
    ensures EarlyDevs(fields, n, name) == 0
  {
    if n > 2 {
      NoEarlyDevs(fields, n - 1, name);
    }
  }

  ghost predicate CountsAsCommented(fields: seq<string>) {
    forall name :: FieldWeight(fields, |fields|, name) == CommentWeight(fields, |fields|, name)
  }

  /** A line counts as the comment says if and only if no `dev` stands before its first `master`. */
  lemma CommentHoldsIff(fields: seq<string>)
    ensures CountsAsCommented(fields) <==> !HasEarlyDev(fields)
  {
    if HasEarlyDev(fields) {
      var j :| EarlyDev(fields, j);
      EarlyDevsCount(fields, |fields|, j);
      WeightsDiffer(fields, |fields|, fields[j + 1]);
    } else {
      forall name
        ensures FieldWeight(fields, |fields|, name) == CommentWeight(fields, |fields|, name)
      {
        WeightsDiffer(fields, |fields|, name);
        NoEarlyDevs(fields, |fields|, name);
      }
    }
  }

  /** `mac dev D`, and then words that are no keywords. */
  ghost predicate BarePort(fields: seq<string>) {
    |fields| >= 3 && fields[1] == "dev" && forall i :: 2 <= i < |fields| ==> !Keyword(fields[i])
  }

  lemma {:induction false} BarePortWeight(fields: seq<string>, name: string, n: nat)
    requires BarePort(fields) && 3 <= n <= |fields|
    ensures FieldWeight(fields, n, name) == if name == fields[2] then 1 else 0
  {
    if n > 3 {
      BarePortWeight(fields, name, n - 1);
    } else {
      assert fields[1..1] == [];
    }
  }

  /** An entry of the port, with its bridge or without. */
  ghost predicate EntryOf(fields: seq<string>, port: string, bridge: string) {
    (PortOf(fields, bridge) || BarePort(fields)) && fields[2] == port
  }

  /** How many of the wanted entries name the bridge. */
  function MasterCount(lines: seq<seq<string>>, wanted: set<string>): nat {
    if lines == [] then 0
    else
      var last := lines[|lines| - 1];
      MasterCount(lines[..|lines| - 1], wanted) + if Wanted(last, wanted) && |last| > 3 && last[3] == "master" then 1 else 0
  }

  lemma {:induction false} PortAndBridgeWeights(lines: seq<seq<string>>, wanted: set<string>, port: string, bridge: string, name: string)
    requires forall l :: l in lines && Wanted(l, wanted) ==> EntryOf(l, port, bridge)
    ensures TotalWeight(lines, wanted, name)
         == (if name == port then WantedCount(lines, wanted) else 0) + if name == bridge then 2 * MasterCount(lines, wanted) else 0
  {
    if lines != [] {
      var last := lines[|lines| - 1];
      PortAndBridgeWeights(lines[..|lines| - 1], wanted, port, bridge, name);
      if Wanted(last, wanted) {
        if PortOf(last, bridge) {
          PortWeight(last, bridge, name, |last|);
        } else {
          BarePortWeight(last, name, |last|);
        }
      }
    }
  }

  /** The bridge outweighs its port. */
  predicate BridgeWins(lines: seq<seq<string>>, wanted: set<string>, port: string, bridge: string) {
    var n, a := WantedCount(lines, wanted), MasterCount(lines, wanted);
    2 * a > n || (2 * a == n && Less(bridge, port))
  }

  /**
   * If all wanted entries are of one port of one bridge, the bridge is the choice if and only if more than half of the
   * entries name it, or just half do and its name is the lesser; otherwise the port is.
   */
  lemma PortOrBridge(lines: seq<seq<string>>, wanted: set<string>, port: string, bridge: string, best: string)
    requires SaneName(port) && SaneName(bridge) && port != bridge && WantedCount(lines, wanted) > 0
    requires forall l :: l in lines && Wanted(l, wanted) ==> EntryOf(l, port, bridge)
    ensures IsBest(lines, wanted, best) <==> best == if BridgeWins(lines, wanted, port, bridge) then bridge else port
  {
    var winner := if BridgeWins(lines, wanted, port, bridge) then bridge else port;
    LessTotal(port, bridge);
    PortAndBridgeWeights(lines, wanted, port, bridge, winner);
    forall name | SaneName(name) && name != winner
      ensures Beats(lines, wanted, winner, name)
    {
      PortAndBridgeWeights(lines, wanted, port, bridge, name);
    }
    assert IsBest(lines, wanted, winner);
    if IsBest(lines, wanted, best) {
      BestUnique(lines, wanted, best, winner);
    }
  }

  /** The entries of a running instance, one of them without its bridge. */
  function TwoEntries(mac: string): seq<seq<string>> {
    [[mac, "dev", "vethabc123", "master", "vmbr0", "permanent"], [mac, "dev", "vethabc123", "permanent"]]
  }

  lemma CountsSnoc(lines: seq<seq<string>>, l: seq<string>, wanted: set<string>)
    ensures WantedCount(lines + [l], wanted) == WantedCount(lines, wanted) + if Wanted(l, wanted) then 1 else 0
    ensures MasterCount(lines + [l], wanted)
         == MasterCount(lines, wanted) + if Wanted(l, wanted) && |l| > 3 && l[3] == "master" then 1 else 0
  {
    assert (lines + [l])[..|lines|] == lines;
  }

  /** Of these two the port is chosen. */
  lemma PortIsChosen(mac: string)
    ensures IsBest(TwoEntries(mac), {ToLower(mac)}, "vethabc123")
  {
    var lines, wanted := TwoEntries(mac), {ToLower(mac)};
    CountsSnoc([], lines[0], wanted);
    CountsSnoc([lines[0]], lines[1], wanted);
    assert [] + [lines[0]] == [lines[0]] && [lines[0]] + [lines[1]] == lines;
    assert Wanted(lines[0], wanted) && Wanted(lines[1], wanted) && lines[0][3] == "master" && lines[1][3] == "permanent";
    assert PortOf(lines[0], "vmbr0") && BarePort(lines[1]);
    VethBeforeVmbr();
    PortOrBridge(lines, wanted, "vethabc123", "vmbr0", "vethabc123");
  }

  lemma VethBeforeVmbr()
    ensures SaneName("vethabc123") && SaneName("vmbr0") && Less("vethabc123", "vmbr0") && !Less("vmbr0", "vethabc123")
  {
  }
}
