/**
 * The PPS guard configuration: the normaliser that the agent runs before every heartbeat,
 * and the two programs that read the file it leaves behind.
 */
module PpsConfig {
  import opened Text
  import opened Decimal

  const MINIMUM_PPS: nat := 20000
  const MAXIMUM_PPS: nat := 500000
  const DEFAULT_OBSERVE_SECS: nat := 120

  const CR := '\r'
  const LF := '\n'

  datatype Key = Limit | SingleTargetLimit | MinLimit | ObserveSeconds

  /** The key with its equals sign, as it starts a line. */
  function Prefix(k: Key): (p: string)
    ensures |p| >= 10 && p[0] == 'P' && p[|p| - 1] == '='
    ensures p[4] == match k case Limit => 'L' case SingleTargetLimit => 'S' case MinLimit => 'M' case ObserveSeconds => 'O'
    ensures LF !in p && CR !in p
  {
    match k
    case Limit => "PPS_LIMIT="
    case SingleTargetLimit => "PPS_SINGLE_TARGET_LIMIT="
    case MinLimit => "PPS_MIN_LIMIT="
    case ObserveSeconds => "PPS_OBSERVE_SECONDS="
  }

  predicate Carries(text: string, k: Key) {
    Prefix(k) <= text
  }

  /** No text starts with two of the prefixes, so the order in which they are tried is immaterial. */
  lemma CarriesOne(text: string, j: Key, k: Key)
    requires Carries(text, j) && Carries(text, k)
    ensures j == k
  {
    var p, q := Prefix(j), Prefix(k);
    assert p[4] == text[4] == q[4];
  }

  // ---- What one line means ----

  /** The first key of the list that the text carries. */
  function FirstKey(text: string, keys: seq<Key>): (k: Option<Key>)
    ensures k.Some? ==> Carries(text, k.value)
  {
    if keys == [] then None
    else if Carries(text, keys[0]) then Some(keys[0])
    else FirstKey(text, keys[1..])
  }

  const KEYS: seq<Key> := [Limit, SingleTargetLimit, MinLimit, ObserveSeconds]

  /** The key a line sets, if it sets one. */
  function KeyOf(line: string): Option<Key> {
    FirstKey(TrimSpace(line), KEYS)
  }

  lemma {:induction false} FirstKeyIs(text: string, keys: seq<Key>, k: Key)
    requires Carries(text, k) && k in keys
    ensures FirstKey(text, keys) == Some(k)
  {
    if Carries(text, keys[0]) {
      CarriesOne(text, keys[0], k);
    } else {
      FirstKeyIs(text, keys[1..], k);
    }
  }

  lemma KeyOfCarried(line: string, k: Key)
    ensures KeyOf(line) == Some(k) <==> Carries(TrimSpace(line), k)
  {
    if Carries(TrimSpace(line), k) {
      assert KEYS[0] == Limit && KEYS[1] == SingleTargetLimit && KEYS[2] == MinLimit && KEYS[3] == ObserveSeconds;
      FirstKeyIs(TrimSpace(line), KEYS, k);
    }
  }

  /** The number that is stored for a key whose line carried this one, or none that can be read. */
  function Stored(k: Key, parsed: Option<int>): (n: nat)
    ensures parsed.Some? && parsed.value <= MAX_INT64 ==> n <= MAX_INT64
    ensures parsed.None? ==> n <= MAX_INT64
  {
    match k
    case MinLimit => MINIMUM_PPS
    case ObserveSeconds => if parsed.None? || parsed.value < 1 then DEFAULT_OBSERVE_SECS else parsed.value
    case _ =>
      if parsed.None? || parsed.value < MINIMUM_PPS then MINIMUM_PPS
      else if parsed.value > MAXIMUM_PPS then MAXIMUM_PPS
      else parsed.value
  }

  function Canonical(k: Key, text: string): (n: nat)
    ensures n <= MAX_INT64
  {
    Stored(k, Atoi(text))
  }

  function ValueText(k: Key, line: string): string
    requires Carries(TrimSpace(line), k)
  {
    TrimSpace(TrimSpace(line)[|Prefix(k)|..])
  }

  /** The number a key line is stored with. */
  function LineValue(k: Key, line: string): nat
    requires Carries(TrimSpace(line), k)
  {
    Canonical(k, ValueText(k, line))
  }

  function KeyLine(k: Key, n: nat): string {
    Prefix(k) + Itoa(n)
  }

  function NormalLine(line: string): string {
    match KeyOf(line)
    case Some(k) => KeyLine(k, LineValue(k, line))
    case None => line
  }

  function NormalLines(lines: seq<string>): (r: seq<string>)
    ensures |r| == |lines|
  {
    if lines == [] then [] else NormalLines(lines[..|lines| - 1]) + [NormalLine(lines[|lines| - 1])]
  }

  // ---- The text around the lines ----

  /** `strings.ReplaceAll(s, "\r\n", "\n")`. */
  function ReplaceCrLf(s: string): string {
    if |s| >= 2 && s[0] == CR && s[1] == LF then [LF] + ReplaceCrLf(s[2..])
    else if s != "" then [s[0]] + ReplaceCrLf(s[1..])
    else ""
  }

  /** `strings.TrimRight(s, "\n")`. */
  function DropNewlines(s: string): string {
    if s != "" && s[|s| - 1] == LF then DropNewlines(s[..|s| - 1]) else s
  }

  /** The lines the normaliser works on. */
  function InputLines(content: string): seq<string> {
    var lines := Split(DropNewlines(ReplaceCrLf(content)), LF);
    if lines == [""] then [] else lines
  }

  function TagSet(tag: Option<Key>): set<Key> {
    if tag.Some? then {tag.value} else {}
  }

  /** The keys that some line sets. */
  function KeysSet(lines: seq<string>): set<Key> {
    if lines == [] then {} else KeysSet(lines[..|lines| - 1]) + TagSet(KeyOf(lines[|lines| - 1]))
  }

  function Default(k: Key): nat {
    if k.ObserveSeconds? then DEFAULT_OBSERVE_SECS else MINIMUM_PPS
  }

  function MissingLine(lines: seq<string>, k: Key): seq<string> {
    if k in KeysSet(lines) then [] else [KeyLine(k, Default(k))]
  }

  /** The two keys that are appended when no line sets them. */
  function MissingLines(lines: seq<string>): seq<string> {
    MissingLine(lines, MinLimit) + MissingLine(lines, ObserveSeconds)
  }

  function OutputLines(content: string): seq<string> {
    NormalLines(InputLines(content)) + MissingLines(InputLines(content))
  }

  /** The text that `NormalizeConfig` returns. */
  function Normalized(content: string): string {
    Join(OutputLines(content), LF) + [LF]
  }

  /** The defaults survive in `updates` for every key that no line has set yet. */
  ghost predicate DefaultsKept(updates: map<Key, nat>, seen: set<Key>) {
    forall k: Key :: (k.MinLimit? || k.ObserveSeconds?) && k !in seen ==> k in updates && updates[k] == Default(k)
  }

  /** The value switch of the inner loop. */
  method ParseSetting(key: Key, value: string) returns (number: nat)
    ensures number == Canonical(key, value)
  {
    var parsed := Atoi(value);
    match key {
      case MinLimit =>
        number := MINIMUM_PPS;
      case ObserveSeconds =>
        number := if parsed == None || parsed.value < 1 then DEFAULT_OBSERVE_SECS else parsed.value;
      case _ =>
        number := if parsed == None || parsed.value < MINIMUM_PPS then MINIMUM_PPS else parsed.value;
        if number > MAXIMUM_PPS {
          number := MAXIMUM_PPS;
        }
    }
  }

  /** The inner loop: the first key whose prefix the trimmed line carries rewrites the line. */
  method RewriteLine(line: string, updates: map<Key, nat>, seen: set<Key>)
    returns (line': string, updates': map<Key, nat>, seen': set<Key>)
    requires DefaultsKept(updates, seen)
    ensures line' == NormalLine(line)
    ensures seen' == seen + TagSet(KeyOf(line))
    ensures DefaultsKept(updates', seen')
  {
    line', updates', seen' := line, updates, seen;
    var trimmed := TrimSpace(line);
    for i := 0 to |KEYS|
      invariant line' == line && updates' == updates && seen' == seen
      invariant KeyOf(line) == FirstKey(trimmed, KEYS[i..])
    {
      var key := KEYS[i];
      assert KEYS[i..][0] == key && KEYS[i..][1..] == KEYS[i + 1..];
      if !Carries(trimmed, key) {
        continue;
      }
      var value := TrimSpace(trimmed[|Prefix(key)|..]);
      var number := ParseSetting(key, value);
      updates' := updates'[key := number];
      line' := KeyLine(key, updates'[key]);
      seen' := seen' + {key};
      return;
    }
  }

  /** The lines when the first `index` of them have been rewritten. */
  function PartlyRewritten(input: seq<string>, index: nat): (lines: seq<string>)
    requires index <= |input|
    ensures |lines| == |input|
    ensures index < |input| ==> lines[index] == input[index]
  {
    NormalLines(input[..index]) + input[index..]
  }

  lemma RewriteStep(input: seq<string>, index: nat)
    requires index < |input|
    ensures PartlyRewritten(input, index)[index := NormalLine(input[index])] == PartlyRewritten(input, index + 1)
    ensures KeysSet(input[..index + 1]) == KeysSet(input[..index]) + TagSet(KeyOf(input[index]))
  {
    assert input[..index + 1][..index] == input[..index];
  }

  /** The body of the first loop. */
  method RewriteAt(ghost input: seq<string>, lines: seq<string>, index: nat, updates: map<Key, nat>, seen: set<Key>)
    returns (lines': seq<string>, updates': map<Key, nat>, seen': set<Key>)
    requires index < |input| && lines == PartlyRewritten(input, index) && seen == KeysSet(input[..index]) && DefaultsKept(updates, seen)
    ensures lines' == PartlyRewritten(input, index + 1) && seen' == KeysSet(input[..index + 1]) && DefaultsKept(updates', seen')
  {
    RewriteStep(input, index);
    var line;
    line, updates', seen' := RewriteLine(lines[index], updates, seen);
    lines' := lines[index := line];
  }

  /** The first loop: `lines` is rewritten in place from front to back. */
  method RewriteLines(input: seq<string>)
    returns (lines: seq<string>, updates: map<Key, nat>, seen: set<Key>)
    ensures lines == NormalLines(input)
    ensures seen == KeysSet(input)
    ensures DefaultsKept(updates, seen)
  {
    lines := input;
    updates := map[MinLimit := MINIMUM_PPS, ObserveSeconds := DEFAULT_OBSERVE_SECS];
    seen := {};
    for index := 0 to |lines|
      invariant |lines| == |input| && lines == PartlyRewritten(input, index)
      invariant seen == KeysSet(input[..index])
      invariant DefaultsKept(updates, seen)
    {
      lines, updates, seen := RewriteAt(input, lines, index, updates, seen);
    }
    assert input[..|input|] == input;
  }

  /** The second loop: the keys that no line has set are appended with their defaults. */
  method AppendMissing(ghost input: seq<string>, rewritten: seq<string>, updates: map<Key, nat>, seen: set<Key>)
    returns (lines: seq<string>)
    requires seen == KeysSet(input) && DefaultsKept(updates, seen)
    ensures lines == rewritten + MissingLines(input)
  {
    lines := rewritten;
    for i := 2 to |KEYS|
      invariant i == 2 ==> lines == rewritten
      invariant i == 3 ==> lines == rewritten + MissingLine(input, MinLimit)
      invariant i == 4 ==> lines == rewritten + MissingLines(input)
    {
      var key := KEYS[i];
      if key !in seen {
        lines := lines + [KeyLine(key, updates[key])];
      }
    }
  }

  /** `normalizeConfig`. */
  method NormalizeConfig(content: string) returns (text: string)
    ensures text == Normalized(content)
  {
    var lines := Split(DropNewlines(ReplaceCrLf(content)), LF);
    if |lines| == 1 && lines[0] == "" {
      lines := [];
    }
    var updates, seen;
    lines, updates, seen := RewriteLines(lines);
    lines := AppendMissing(InputLines(content), lines, updates, seen);
    text := Join(lines, LF) + [LF];
  }

  // ---- Reading the written text back ----

  /** Every line with its line feed. */
  function Unlines(lines: seq<string>): string {
    if lines == [] then "" else lines[0] + [LF] + Unlines(lines[1..])
  }

  ghost predicate NoLf(lines: seq<string>) {
    forall l :: l in lines ==> LF !in l
  }

  predicate EndsCr(line: string) {
    line != "" && line[|line| - 1] == CR
  }

  function StripCr(line: string): string {
    if EndsCr(line) then line[..|line| - 1] else line
  }

  function StripAll(lines: seq<string>): seq<string> {
    if lines == [] then [] else [StripCr(lines[0])] + StripAll(lines[1..])
  }

  function DropEmptyTail(lines: seq<string>): seq<string> {
    if lines != [] && lines[|lines| - 1] == "" then DropEmptyTail(lines[..|lines| - 1]) else lines
  }

  lemma {:induction false} JoinUnlines(lines: seq<string>)
    requires lines != []
    ensures Join(lines, LF) + [LF] == Unlines(lines)
  {
    if |lines| == 1 {
      assert Unlines(lines[1..]) == "";
    } else {
      JoinUnlines(lines[1..]);
      var rest := Join(lines[1..], LF);
      assert (lines[0] + [LF] + rest) + [LF] == lines[0] + [LF] + (rest + [LF]);
    }
  }

  lemma {:induction false} UnlinesSnoc(lines: seq<string>, l: string)
    ensures Unlines(lines + [l]) == Unlines(lines) + l + [LF]
  {
    if lines == [] {
      assert [l][1..] == [];
      assert Unlines([l]) == l + [LF] + Unlines([l][1..]);
    } else {
      UnlinesSnoc(lines[1..], l);
      assert (lines + [l])[1..] == lines[1..] + [l];
      var head, rest := lines[0] + [LF], Unlines(lines[1..]);
      assert head + (rest + l + [LF]) == (head + rest) + l + [LF];
    }
  }

  lemma {:induction false} ReplaceFirstLine(line: string, rest: string)
    requires LF !in line
    ensures ReplaceCrLf(line + [LF] + rest) == StripCr(line) + [LF] + ReplaceCrLf(rest)
  {
    var s := line + [LF] + rest;
    if line == "" {
      assert s[1..] == rest;
    } else if line == [CR] {
      assert s[0] == CR && s[1] == LF && s[2..] == rest;
    } else {
      var tail := line[1..];
      ReplaceFirstLine(tail, rest);
      assert s[1..] == tail + [LF] + rest;
      assert |line| > 1 ==> s[1] == line[1];
      assert line == [line[0]] + tail;
      assert StripCr(line) == [line[0]] + StripCr(tail);
    }
  }

  lemma {:induction false} ReplaceUnlines(lines: seq<string>)
    requires NoLf(lines)
    ensures ReplaceCrLf(Unlines(lines)) == Unlines(StripAll(lines))
  {
    if lines != [] {
      assert lines[0] in lines;
      ReplaceFirstLine(lines[0], Unlines(lines[1..]));
      ReplaceUnlines(lines[1..]);
    }
  }

  lemma {:induction false} DropUnlines(lines: seq<string>)
    requires NoLf(lines)
    ensures DropNewlines(Unlines(lines)) == Join(DropEmptyTail(lines), LF)
  {
    if lines != [] {
      var init, l := lines[..|lines| - 1], lines[|lines| - 1];
      assert lines == init + [l] && l in lines;
      UnlinesSnoc(init, l);
      var text := Unlines(init) + l;
      assert Unlines(lines) == text + [LF] && (text + [LF])[..|text|] == text;
      if l == "" {
        DropUnlines(init);
        assert text == Unlines(init);
      } else {
        JoinUnlines(lines);
        assert text == Join(lines, LF);
        assert text[|text| - 1] == l[|l| - 1];
      }
    }
  }

  lemma {:induction false} StripAllNoLf(lines: seq<string>)
    requires NoLf(lines)
    ensures NoLf(StripAll(lines))
  {
    if lines != [] {
      assert lines[0] in lines;
      StripAllNoLf(lines[1..]);
    }
  }

  lemma {:induction false} DropEmptyTailNoLf(lines: seq<string>)
    requires NoLf(lines)
    ensures NoLf(DropEmptyTail(lines))
    ensures var kept := DropEmptyTail(lines); kept != [] ==> kept[|kept| - 1] != ""
  {
    if lines != [] && lines[|lines| - 1] == "" {
      DropEmptyTailNoLf(lines[..|lines| - 1]);
    }
  }

  /** The lines of the next pass: one CR fewer on each line that ends in CR, and no empty lines at the end. */
  lemma ReadBack(lines: seq<string>)
    requires NoLf(lines)
    ensures InputLines(Unlines(lines)) == DropEmptyTail(StripAll(lines))
  {
    ReplaceUnlines(lines);
    StripAllNoLf(lines);
    DropUnlines(StripAll(lines));
    var kept := DropEmptyTail(StripAll(lines));
    DropEmptyTailNoLf(StripAll(lines));
    if kept == [] {
      assert Split("", LF) == [""];
    } else {
      SplitJoin(kept, LF);
    }
  }

  // ---- One pass over lines that are already normal ----

  lemma KeyLineReads(k: Key, n: nat)
    requires n <= MAX_INT64
    ensures TrimSpace(KeyLine(k, n)) == KeyLine(k, n)
    ensures KeyOf(KeyLine(k, n)) == Some(k)
    ensures Carries(KeyLine(k, n), k) && Atoi(ValueText(k, KeyLine(k, n))) == Some(n)
  {
    var digits := Itoa(n);
    var line := Prefix(k) + digits;
    assert line[|line| - 1] == digits[|digits| - 1] && IsDigit(digits[0]);
    TrimNothing(line);
    TrimNothing(digits);
    assert line[|Prefix(k)|..] == digits;
    assert Carries(line, k);
    KeyOfCarried(line, k);
    AtoiItoa(n);
  }

  /** Storing a stored line again changes nothing. */
  lemma KeyLineNormal(k: Key, n: nat)
    requires n <= MAX_INT64
    ensures KeyOf(KeyLine(k, n)) == Some(k) && NormalLine(KeyLine(k, n)) == KeyLine(k, Stored(k, Some(n)))
  {
    KeyLineReads(k, n);
  }

  lemma NormalLineStable(line: string)
    ensures NormalLine(NormalLine(line)) == NormalLine(line)
    ensures KeyOf(NormalLine(line)) == KeyOf(line)
  {
    var key := KeyOf(line);
    if key.Some? {
      var n := LineValue(key.value, line);
      assert NormalLine(line) == KeyLine(key.value, n);
      KeyLineNormal(key.value, n);
      StoredTwice(key.value, Atoi(ValueText(key.value, line)));
    } else {
      assert NormalLine(line) == line;
    }
  }

  lemma StoredTwice(k: Key, parsed: Option<int>)
    ensures Stored(k, Some(Stored(k, parsed))) == Stored(k, parsed)
  {
  }

  lemma DefaultLineStable(k: Key)
    requires k.MinLimit? || k.ObserveSeconds?
    ensures NormalLine(KeyLine(k, Default(k))) == KeyLine(k, Default(k))
    ensures KeyOf(KeyLine(k, Default(k))) == Some(k)
  {
    KeyLineReads(k, Default(k));
  }

  lemma NormalLinesAppend(a: seq<string>, b: seq<string>)
    ensures NormalLines(a + b) == NormalLines(a) + NormalLines(b)
    ensures KeysSet(a + b) == KeysSet(a) + KeysSet(b)
  {
    LinesAppend(a, b);
    KeysAppend(a, b);
  }

  lemma Reassociate(a: seq<string>, b: seq<string>, c: seq<string>)
    ensures a + (b + c) == (a + b) + c
  {
  }

  lemma Regroup(a: set<Key>, b: set<Key>, c: set<Key>)
    ensures a + (b + c) == (a + b) + c
  {
  }

  lemma {:induction false} LinesAppend(a: seq<string>, b: seq<string>)
    ensures NormalLines(a + b) == NormalLines(a) + NormalLines(b)
  {
    if b == [] {
      assert a + b == a;
    } else {
      LinesAppend(a, b[..|b| - 1]);
      assert (a + b)[..|a + b| - 1] == a + b[..|b| - 1];
      Reassociate(NormalLines(a), NormalLines(b[..|b| - 1]), [NormalLine(b[|b| - 1])]);
    }
  }

  lemma {:induction false} KeysAppend(a: seq<string>, b: seq<string>)
    ensures KeysSet(a + b) == KeysSet(a) + KeysSet(b)
  {
    if b == [] {
      assert a + b == a;
    } else {
      KeysAppend(a, b[..|b| - 1]);
      assert (a + b)[..|a + b| - 1] == a + b[..|b| - 1];
      Regroup(KeysSet(a), KeysSet(b[..|b| - 1]), TagSet(KeyOf(b[|b| - 1])));
    }
  }

  lemma {:induction false} NormalLinesStable(lines: seq<string>)
    ensures NormalLines(NormalLines(lines)) == NormalLines(lines)
    ensures KeysSet(NormalLines(lines)) == KeysSet(lines)
  {
    if lines != [] {
      var init := lines[..|lines| - 1];
      NormalLinesStable(init);
      NormalLineStable(lines[|lines| - 1]);
      NormalLinesAppend(NormalLines(init), [NormalLine(lines[|lines| - 1])]);
    }
  }

  lemma SingleLine(l: string)
    ensures NormalLines([l]) == [NormalLine(l)] && KeysSet([l]) == TagSet(KeyOf(l))
  {
    assert [l][..0] == [];
  }

  lemma MissingLineStable(lines: seq<string>, k: Key)
    requires k.MinLimit? || k.ObserveSeconds?
    ensures NormalLines(MissingLine(lines, k)) == MissingLine(lines, k)
    ensures KeysSet(MissingLine(lines, k)) == if k in KeysSet(lines) then {} else {k}
  {
    DefaultLineStable(k);
    SingleLine(KeyLine(k, Default(k)));
  }

  lemma MissingLinesStable(lines: seq<string>)
    ensures NormalLines(MissingLines(lines)) == MissingLines(lines)
    ensures KeysSet(lines) + KeysSet(MissingLines(lines)) == KeysSet(lines) + {MinLimit, ObserveSeconds}
  {
    MissingLineStable(lines, MinLimit);
    MissingLineStable(lines, ObserveSeconds);
    NormalLinesAppend(MissingLine(lines, MinLimit), MissingLine(lines, ObserveSeconds));
  }

  /** A second pass over the lines of a first pass leaves them alone and appends nothing. */
  lemma OutputStable(lines: seq<string>)
    ensures var out := NormalLines(lines) + MissingLines(lines);
            NormalLines(out) == out && MissingLines(out) == []
  {
    NormalLinesStable(lines);
    MissingLinesStable(lines);
    NormalLinesAppend(NormalLines(lines), MissingLines(lines));
  }

  // ---- The output has no line feed inside a line, and its last line is not empty ----

  predicate Plain(s: string) {
    forall i :: 0 <= i < |s| ==> s[i] != LF && s[i] != CR
  }

  lemma KeyLinePlain(k: Key, n: nat)
    ensures Plain(KeyLine(k, n)) && KeyLine(k, n) != ""
  {
    var p, digits := Prefix(k), Itoa(n);
    forall i | 0 <= i < |p + digits|
      ensures (p + digits)[i] != LF && (p + digits)[i] != CR
    {
      if i < |p| {
        assert p[i] in p;
      } else {
        assert IsDigit(digits[i - |p|]);
      }
    }
  }

  lemma {:induction false} NormalLinesNoLf(lines: seq<string>)
    requires NoLf(lines)
    ensures NoLf(NormalLines(lines))
    ensures lines != [] && lines[|lines| - 1] != "" ==> NormalLines(lines)[|lines| - 1] != ""
  {
    if lines != [] {
      var init, l := lines[..|lines| - 1], lines[|lines| - 1];
      assert forall x :: x in init ==> x in lines;
      assert l in lines;
      NormalLinesNoLf(init);
      if KeyOf(l).Some? {
        KeyLinePlain(KeyOf(l).value, LineValue(KeyOf(l).value, l));
      }
    }
  }

  lemma MissingLinesNoLf(lines: seq<string>)
    ensures NoLf(MissingLines(lines))
    ensures forall l :: l in MissingLines(lines) ==> l != ""
    ensures lines == [] ==> MissingLines(lines) != []
  {
    KeyLinePlain(MinLimit, Default(MinLimit));
    KeyLinePlain(ObserveSeconds, Default(ObserveSeconds));
  }

  lemma {:induction false} DropNewlinesLast(s: string)
    ensures var r := DropNewlines(s); r != "" ==> r[|r| - 1] != LF
  {
    if s != "" && s[|s| - 1] == LF {
      DropNewlinesLast(s[..|s| - 1]);
    }
  }

  lemma {:induction false} SplitLast(s: string)
    requires s != "" && s[|s| - 1] != LF
    ensures var parts := Split(s, LF); parts[|parts| - 1] != ""
  {
    if |s| > 1 {
      SplitLast(s[1..]);
    } else {
      assert s[1..] == "";
    }
  }

  lemma InputLinesShape(content: string)
    ensures var lines := InputLines(content);
            NoLf(lines) && (lines != [] ==> lines[|lines| - 1] != "")
  {
    var s := DropNewlines(ReplaceCrLf(content));
    DropNewlinesLast(ReplaceCrLf(content));
    SplitPieces(s, LF);
    if s != "" {
      SplitLast(s);
    }
  }

  lemma OutputLinesShape(content: string)
    ensures var out := OutputLines(content);
            NoLf(out) && out != [] && out[|out| - 1] != ""
    ensures Normalized(content) == Unlines(OutputLines(content))
  {
    InputLinesShape(content);
    NormalLinesNoLf(InputLines(content));
    MissingLinesNoLf(InputLines(content));
    JoinUnlines(OutputLines(content));
  }

  // ---- Idempotence, exactly ----

  ghost predicate NoCrAtEnd(lines: seq<string>) {
    forall l :: l in lines ==> !EndsCr(l)
  }

  /** Some line that sets no key would keep a CR at its end. */
  ghost predicate StrayCr(content: string) {
    exists l :: l in InputLines(content) && KeyOf(l).None? && EndsCr(l)
  }

  lemma {:induction false} StripNothing(lines: seq<string>)
    requires NoCrAtEnd(lines)
    ensures StripAll(lines) == lines
  {
    if lines != [] {
      assert lines[0] in lines;
      StripNothing(lines[1..]);
    }
  }

  lemma {:induction false} NormalLineIn(lines: seq<string>, l: string)
    requires l in lines
    ensures NormalLine(l) in NormalLines(lines)
  {
    if l != lines[|lines| - 1] {
      NormalLineIn(lines[..|lines| - 1], l);
    }
  }

  lemma {:induction false} NormalLineOf(lines: seq<string>, out: string) returns (l: string)
    requires out in NormalLines(lines)
    ensures l in lines && out == NormalLine(l)
  {
    var init := lines[..|lines| - 1];
    if out in NormalLines(init) {
      l := NormalLineOf(init, out);
    } else {
      l := lines[|lines| - 1];
    }
  }

  lemma NormalLineEndsCr(l: string)
    ensures EndsCr(NormalLine(l)) <==> KeyOf(l).None? && EndsCr(l)
  {
    if KeyOf(l).Some? {
      KeyLinePlain(KeyOf(l).value, LineValue(KeyOf(l).value, l));
    }
  }

  lemma OutputCr(content: string)
    ensures NoCrAtEnd(OutputLines(content)) <==> !StrayCr(content)
  {
    var lines := InputLines(content);
    forall l | l in OutputLines(content) && EndsCr(l)
      ensures StrayCr(content)
    {
      if l in NormalLines(lines) {
        var source := NormalLineOf(lines, l);
        NormalLineEndsCr(source);
      } else {
        KeyLinePlain(MinLimit, Default(MinLimit));
        KeyLinePlain(ObserveSeconds, Default(ObserveSeconds));
      }
    }
    if StrayCr(content) {
      var l :| l in lines && KeyOf(l).None? && EndsCr(l);
      NormalLineIn(lines, l);
      NormalLineEndsCr(l);
    }
  }

  lemma StableWithoutCr(content: string)
    requires !StrayCr(content)
    ensures Normalized(Normalized(content)) == Normalized(content)
  {
    var out := OutputLines(content);
    OutputLinesShape(content);
    OutputCr(content);
    StripNothing(out);
    ReadBack(out);
    OutputStable(InputLines(content));
    assert InputLines(Normalized(content)) == out;
    assert OutputLines(Normalized(content)) == out;
  }

  function CrCount(s: string): nat {
    if s == "" then 0 else (if s[0] == CR then 1 else 0) + CrCount(s[1..])
  }

  function LinesCr(lines: seq<string>): nat {
    if lines == [] then 0 else CrCount(lines[0]) + LinesCr(lines[1..])
  }

  lemma {:induction false} CrCountAppend(a: string, b: string)
    ensures CrCount(a + b) == CrCount(a) + CrCount(b)
  {
    if a == "" {
      assert a + b == b;
    } else {
      CrCountAppend(a[1..], b);
      assert (a + b)[1..] == a[1..] + b;
    }
  }

  lemma {:induction false} CrCountReplace(s: string)
    ensures CrCount(ReplaceCrLf(s)) <= CrCount(s)
    decreases |s|
  {
    if |s| >= 2 && s[0] == CR && s[1] == LF {
      CrCountReplace(s[2..]);
      assert s[1..][1..] == s[2..];
      CrCountAppend([LF], ReplaceCrLf(s[2..]));
    } else if s != "" {
      CrCountReplace(s[1..]);
      CrCountAppend([s[0]], ReplaceCrLf(s[1..]));
    }
  }

  lemma {:induction false} CrCountDrop(s: string)
    ensures CrCount(DropNewlines(s)) <= CrCount(s)
  {
    if s != "" && s[|s| - 1] == LF {
      CrCountDrop(s[..|s| - 1]);
      CrCountAppend(s[..|s| - 1], [LF]);
      assert s == s[..|s| - 1] + [LF];
    }
  }

  lemma {:induction false} LinesCrUnlines(lines: seq<string>)
    ensures CrCount(Unlines(lines)) == LinesCr(lines)
  {
    if lines != [] {
      LinesCrUnlines(lines[1..]);
      CrCountAppend(lines[0], [LF]);
      CrCountAppend(lines[0] + [LF], Unlines(lines[1..]));
    }
  }

  lemma {:induction false} LinesCrAppend(a: seq<string>, b: seq<string>)
    ensures LinesCr(a + b) == LinesCr(a) + LinesCr(b)
  {
    if a == [] {
      assert a + b == b;
    } else {
      LinesCrAppend(a[1..], b);
      assert (a + b)[1..] == a[1..] + b;
    }
  }

  lemma {:induction false} PlainCr(s: string)
    requires Plain(s)
    ensures CrCount(s) == 0
  {
    if s != "" {
      PlainCr(s[1..]);
    }
  }

  lemma {:induction false} NormalLinesCr(lines: seq<string>)
    ensures LinesCr(NormalLines(lines)) <= LinesCr(lines)
  {
    if lines != [] {
      var init, l := lines[..|lines| - 1], lines[|lines| - 1];
      NormalLinesCr(init);
      LinesCrAppend(init, [l]);
      LinesCrAppend(NormalLines(init), [NormalLine(l)]);
      assert lines == init + [l];
      if KeyOf(l).Some? {
        KeyLinePlain(KeyOf(l).value, LineValue(KeyOf(l).value, l));
        PlainCr(NormalLine(l));
      }
    }
  }

  lemma MissingLineCr(lines: seq<string>, k: Key)
    ensures LinesCr(MissingLine(lines, k)) == 0
  {
    KeyLinePlain(k, Default(k));
    PlainCr(KeyLine(k, Default(k)));
  }

  lemma MissingLinesCr(lines: seq<string>)
    ensures LinesCr(MissingLines(lines)) == 0
  {
    MissingLineCr(lines, MinLimit);
    MissingLineCr(lines, ObserveSeconds);
    LinesCrAppend(MissingLine(lines, MinLimit), MissingLine(lines, ObserveSeconds));
  }

  lemma SplitCr(s: string)
    ensures LinesCr(Split(s, LF)) == CrCount(s)
  {
    JoinSplit(s, LF);
    JoinUnlines(Split(s, LF));
    LinesCrUnlines(Split(s, LF));
    CrCountAppend(s, [LF]);
  }

  /** A pass never adds a CR: the result has at most as many as the text once CR LF pairs are replaced. */
  lemma PassCr(content: string)
    ensures CrCount(Normalized(content)) <= CrCount(ReplaceCrLf(content)) <= CrCount(content)
  {
    var lines := InputLines(content);
    var s := DropNewlines(ReplaceCrLf(content));
    SplitCr(s);
    CrCountDrop(ReplaceCrLf(content));
    CrCountReplace(content);
    assert LinesCr(lines) <= CrCount(s);
    NormalLinesCr(lines);
    MissingLinesCr(lines);
    LinesCrAppend(NormalLines(lines), MissingLines(lines));
    OutputLinesShape(content);
    LinesCrUnlines(OutputLines(content));
  }

  lemma {:induction false} StripAllCr(lines: seq<string>)
    ensures LinesCr(StripAll(lines)) <= LinesCr(lines)
    ensures !NoCrAtEnd(lines) ==> LinesCr(StripAll(lines)) < LinesCr(lines)
  {
    if lines != [] {
      StripAllCr(lines[1..]);
      if EndsCr(lines[0]) {
        CrCountAppend(StripCr(lines[0]), [CR]);
        assert lines[0] == StripCr(lines[0]) + [CR];
      } else if !NoCrAtEnd(lines) {
        var l :| l in lines && EndsCr(l);
        assert l in lines[1..];
      }
    }
  }

  /** While a stray CR is left, every further pass has fewer of them. */
  lemma StrayCrShrinks(content: string)
    requires StrayCr(content)
    ensures CrCount(Normalized(Normalized(content))) < CrCount(Normalized(content))
  {
    var out := OutputLines(content);
    OutputLinesShape(content);
    OutputCr(content);
    ReplaceUnlines(out);
    StripAllCr(out);
    LinesCrUnlines(out);
    LinesCrUnlines(StripAll(out));
    PassCr(Normalized(content));
  }

  /** Normalising twice is normalising once exactly when no line that sets no key ends in a CR. */
  lemma IdempotentIff(content: string)
    ensures Normalized(Normalized(content)) == Normalized(content) <==> !StrayCr(content)
  {
    if StrayCr(content) {
      StrayCrShrinks(content);
    } else {
      StableWithoutCr(content);
    }
  }

  /** Every CR is directly followed by a line feed, as in a DOS or a Unix text file. */
  ghost predicate CrOnlyBeforeLf(s: string) {
    forall i :: 0 <= i < |s| && s[i] == CR ==> i + 1 < |s| && s[i + 1] == LF
  }

  lemma {:induction false} ReplaceLeavesNoCr(s: string)
    requires CrOnlyBeforeLf(s)
    ensures CrCount(ReplaceCrLf(s)) == 0
    decreases |s|
  {
    if |s| >= 2 && s[0] == CR && s[1] == LF {
      forall i | 0 <= i < |s[2..]| && s[2..][i] == CR
        ensures i + 1 < |s[2..]| && s[2..][i + 1] == LF
      {
        assert s[i + 2] == CR;
      }
      ReplaceLeavesNoCr(s[2..]);
      CrCountAppend([LF], ReplaceCrLf(s[2..]));
    } else if s != "" {
      forall i | 0 <= i < |s[1..]| && s[1..][i] == CR
        ensures i + 1 < |s[1..]| && s[1..][i + 1] == LF
      {
        assert s[i + 1] == CR;
      }
      ReplaceLeavesNoCr(s[1..]);
      CrCountAppend([s[0]], ReplaceCrLf(s[1..]));
    }
  }

  /** On every text whose CRs all belong to CR LF pairs, the normaliser is idempotent. */
  lemma IdempotentOnTextFiles(content: string)
    requires CrOnlyBeforeLf(content)
    ensures Normalized(Normalized(content)) == Normalized(content)
  {
    IdempotentIff(content);
    ReplaceLeavesNoCr(content);
    PassCr(content);
    if StrayCr(content) {
      StrayCrShrinks(content);
    }
  }

  /** CR CR LF is a text on which a second pass still changes something. */
  lemma NotAlwaysIdempotent()
    ensures Normalized(Normalized([CR, CR, LF])) != Normalized([CR, CR, LF])
  {
    var content := [CR, CR, LF];
    assert content[1..] == [CR, LF] && [CR, LF][2..] == "";
    assert ReplaceCrLf([CR, LF]) == [LF];
    assert ReplaceCrLf(content) == [CR, LF];
    assert [CR, LF][..1] == [CR];
    assert DropNewlines([CR, LF]) == [CR];
    SplitPiece([CR], LF);
    assert InputLines(content) == [[CR]];
    KeyOfBlank();
    assert [CR] in InputLines(content);
    IdempotentIff(content);
  }

  lemma KeyOfBlank()
    ensures KeyOf([CR]) == None
  {
    assert IsSpace(CR) && [CR][1..] == "";
    assert TrimLeft([CR]) == TrimLeft("");
    assert TrimSpace([CR]) == "";
    assert forall k: Key :: !Carries("", k);
  }

  ghost predicate Pass(before: string, after: string) {
    after == Normalized(before)
  }

  /** The file as successive heartbeats leave it, from any first content. */
  ghost predicate PassRun(files: seq<string>) {
    forall i :: 0 <= i < |files| - 1 ==> Pass(files[i], files[i + 1])
  }

  lemma SecondPass(a: string, b: string, c: string)
    requires Pass(a, b) && Pass(b, c)
    ensures c == b || CrCount(c) < CrCount(b)
    ensures CrCount(b) <= CrCount(a)
  {
    PassCr(a);
    if StrayCr(a) {
      StrayCrShrinks(a);
    } else {
      StableWithoutCr(a);
    }
  }

  lemma SamePass(a: string, b: string, c: string)
    requires Pass(a, b) && Pass(b, c) && a == b
    ensures c == b
  {
  }

  lemma {:induction false} RunLosesCr(files: seq<string>, i: nat)
    requires PassRun(files) && 1 <= i < |files| - 1
    ensures files[i + 1] == files[i] || CrCount(files[i + 1]) + i <= CrCount(files[0])
    decreases i
  {
    assert Pass(files[i - 1], files[i - 1 + 1]);
    assert Pass(files[i], files[i + 1]);
    SecondPass(files[i - 1], files[i], files[i + 1]);
    if i > 1 {
      RunLosesCr(files, i - 1);
      if files[i] == files[i - 1] {
        SamePass(files[i - 1], files[i], files[i + 1]);
      }
    }
  }

  /** Whatever the file holds at first, after one pass and one more for each of its CRs the heartbeats leave it alone. */
  lemma RewritingStops(files: seq<string>, i: nat)
    requires PassRun(files) && 0 <= i < |files| - 1
    requires CrCount(files[0]) < i
    ensures files[i + 1] == files[i]
  {
    RunLosesCr(files, i);
  }

  // ---- What survives, and what the two readers of the file see ----

  lemma {:induction false} NormalLinesAt(lines: seq<string>, i: nat)
    requires i < |lines|
    ensures NormalLines(lines)[i] == NormalLine(lines[i])
  {
    if i < |lines| - 1 {
      NormalLinesAt(lines[..|lines| - 1], i);
    }
  }

  /** The written text splits back into the output lines, with the empty piece after the last line feed. */
  lemma WrittenLines(content: string)
    ensures Split(Normalized(content), LF) == OutputLines(content) + [""]
  {
    var out := OutputLines(content);
    OutputLinesShape(content);
    SplitJoin(out, LF);
    SplitUnlines(out);
  }

  lemma {:induction false} SplitUnlines(lines: seq<string>)
    requires NoLf(lines)
    ensures Split(Unlines(lines), LF) == lines + [""]
  {
    if lines != [] {
      assert lines[0] in lines;
      SplitUnlines(lines[1..]);
      SplitAtSeparator(lines[0], Unlines(lines[1..]), LF);
    }
  }

  /** Lines that set no key keep their content and their place; every other line keeps its place and its key. */
  lemma LinesKept(input: seq<string>, i: nat)
    requires i < |input|
    ensures KeyOf(NormalLines(input)[i]) == KeyOf(input[i])
    ensures KeyOf(input[i]).None? ==> NormalLines(input)[i] == input[i]
  {
    NormalLinesAt(input, i);
    NormalLineStable(input[i]);
  }

  /** The line sets the key and Go's parser accepts its value as a positive number. */
  predicate Readable(line: string, k: Key) {
    Carries(line, k) && Atoi(TrimSpace(line[|Prefix(k)|..])).Some? && Atoi(TrimSpace(line[|Prefix(k)|..])).value > 0
  }

  function Reading(line: string, k: Key): nat
    requires Readable(line, k)
  {
    Atoi(TrimSpace(line[|Prefix(k)|..])).value
  }

  /** The number `readGuardInteger` reports: that of the first readable line. */
  function Reported(lines: seq<string>, k: Key, fallback: nat): nat {
    if lines == [] then fallback
    else if Readable(lines[0], k) then Reading(lines[0], k)
    else Reported(lines[1..], k, fallback)
  }

  /** `readGuardInteger`; no content stands for a file that cannot be read. */
  method ReadGuardInteger(content: Option<string>, k: Key, fallback: nat) returns (value: nat)
    ensures value == if content.None? then fallback else Reported(Split(content.value, LF), k, fallback)
  {
    if content.None? {
      return fallback;
    }
    var lines := Split(content.value, LF);
    for i := 0 to |lines|
      invariant Reported(lines, k, fallback) == Reported(lines[i..], k, fallback)
    {
      assert lines[i..][0] == lines[i] && lines[i..][1..] == lines[i + 1..];
      if Carries(lines[i], k) {
        var parsed := Atoi(TrimSpace(lines[i][|Prefix(k)|..]));
        if parsed.Some? && parsed.value > 0 {
          return parsed.value;
        }
      }
    }
    return fallback;
  }

  /** The number the guard script enforces: that of the last line with the key, if it is in range. */
  function Enforced(lines: seq<string>, k: Key): nat {
    if lines == [] then MINIMUM_PPS
    else
      var last := lines[|lines| - 1];
      if !Carries(last, k) then Enforced(lines[..|lines| - 1], k)
      else
        var digits := last[|Prefix(k)|..];
        if AllDigits(digits) && MINIMUM_PPS <= Value(digits) <= MAXIMUM_PPS then Value(digits) else MINIMUM_PPS
  }

  function Max(a: int, b: int): int {
    if a > b then a else b
  }

  function Min(a: int, b: int): int {
    if a < b then a else b
  }

  /** The number that the line sets, brought into the range of 20000 to 500000; 20000 if it cannot be read. */
  function Limited(k: Key, line: string): (n: nat)
    requires Carries(TrimSpace(line), k)
    ensures 20000 <= n <= 500000
  {
    var parsed := Atoi(ValueText(k, line));
    if parsed.None? then 20000 else Max(20000, Min(parsed.value, 500000))
  }

  lemma StoredAsLimited(k: Key, line: string)
    requires (k.Limit? || k.SingleTargetLimit?) && Carries(TrimSpace(line), k)
    ensures LineValue(k, line) == Limited(k, line)
  {
  }

  /** The limit of the first line that sets the key. */
  function FirstLimit(lines: seq<string>, k: Key): (n: nat)
    requires k.Limit? || k.SingleTargetLimit?
    ensures 20000 <= n <= 500000
  {
    if lines == [] then 20000
    else if Carries(TrimSpace(lines[0]), k) then Limited(k, lines[0])
    else FirstLimit(lines[1..], k)
  }

  /** The limit of the last line that sets the key. */
  function LastLimit(lines: seq<string>, k: Key): (n: nat)
    requires k.Limit? || k.SingleTargetLimit?
    ensures 20000 <= n <= 500000
  {
    if lines == [] then 20000
    else if Carries(TrimSpace(lines[|lines| - 1]), k) then Limited(k, lines[|lines| - 1])
    else LastLimit(lines[..|lines| - 1], k)
  }

  lemma {:induction false} TrimRightKeepsPrefix(p: string, s: string)
    requires p != "" && p <= s && !IsSpace(p[|p| - 1])
    ensures p <= TrimRight(s)
  {
    if IsSpace(s[|s| - 1]) {
      assert |s| > |p|;
      TrimRightKeepsPrefix(p, s[..|s| - 1]);
    }
  }

  /** A line that literally starts with a prefix also does so once trimmed. */
  lemma CarriesTrimmed(line: string, k: Key)
    requires Carries(line, k)
    ensures Carries(TrimSpace(line), k)
  {
    assert line[0] == Prefix(k)[0];
    TrimLeftKeeps(line);
    TrimRightKeepsPrefix(Prefix(k), line);
  }

  lemma StoredLineCarries(line: string, k: Key)
    ensures Carries(NormalLine(line), k) <==> Carries(TrimSpace(line), k)
  {
    KeyOfCarried(line, k);
    if KeyOf(line).Some? {
      var j := KeyOf(line).value;
      KeyLineReads(j, LineValue(j, line));
      if Carries(NormalLine(line), k) {
        CarriesOne(NormalLine(line), j, k);
      }
    } else if Carries(line, k) {
      CarriesTrimmed(line, k);
    }
  }

  /** What both readers get from a stored line. */
  lemma StoredLineReads(line: string, k: Key)
    requires Carries(TrimSpace(line), k) && (k.Limit? || k.SingleTargetLimit?)
    ensures Readable(NormalLine(line), k) && Reading(NormalLine(line), k) == Limited(k, line)
    ensures var digits := NormalLine(line)[|Prefix(k)|..]; AllDigits(digits) && Value(digits) == Limited(k, line)
  {
    StoredAsLimited(k, line);
    KeyOfCarried(line, k);
    StoredLineCarries(line, k);
    var n := LineValue(k, line);
    var stored := KeyLine(k, n);
    assert NormalLine(line) == stored;
    KeyLineReads(k, n);
    assert stored[|Prefix(k)|..] == Itoa(n);
  }

  ghost predicate NoneCarries(lines: seq<string>, k: Key) {
    forall i :: 0 <= i < |lines| ==> !Carries(lines[i], k)
  }

  lemma NormalLinesFront(lines: seq<string>)
    requires lines != []
    ensures NormalLines(lines) == [NormalLine(lines[0])] + NormalLines(lines[1..])
  {
    NormalLinesAppend([lines[0]], lines[1..]);
    SingleLine(lines[0]);
    assert lines == [lines[0]] + lines[1..];
  }

  lemma {:induction false} ReportedNone(lines: seq<string>, k: Key)
    requires NoneCarries(lines, k)
    ensures Reported(lines, k, MINIMUM_PPS) == MINIMUM_PPS
  {
    if lines != [] {
      ReportedNone(lines[1..], k);
    }
  }

  lemma {:induction false} ReportedStored(lines: seq<string>, tail: seq<string>, k: Key)
    requires k.Limit? || k.SingleTargetLimit?
    requires NoneCarries(tail, k)
    ensures Reported(NormalLines(lines) + tail, k, MINIMUM_PPS) == FirstLimit(lines, k)
  {
    if lines == [] {
      assert NormalLines(lines) + tail == tail;
      ReportedNone(tail, k);
    } else {
      NormalLinesFront(lines);
      var all := NormalLines(lines) + tail;
      assert all[0] == NormalLine(lines[0]) && all[1..] == NormalLines(lines[1..]) + tail;
      StoredLineCarries(lines[0], k);
      if Carries(TrimSpace(lines[0]), k) {
        StoredLineReads(lines[0], k);
      } else {
        ReportedStored(lines[1..], tail, k);
      }
    }
  }

  lemma {:induction false} EnforcedStored(lines: seq<string>, tail: seq<string>, k: Key)
    requires k.Limit? || k.SingleTargetLimit?
    requires NoneCarries(tail, k)
    ensures Enforced(NormalLines(lines) + tail, k) == LastLimit(lines, k)
    decreases |tail|, |lines|
  {
    var all := NormalLines(lines) + tail;
    if tail != [] {
      assert all[..|all| - 1] == NormalLines(lines) + tail[..|tail| - 1];
      EnforcedStored(lines, tail[..|tail| - 1], k);
    } else if lines != [] {
      var init, l := lines[..|lines| - 1], lines[|lines| - 1];
      assert all == NormalLines(init) + [NormalLine(l)];
      assert all[..|all| - 1] == NormalLines(init) + tail;
      StoredLineCarries(l, k);
      if Carries(TrimSpace(l), k) {
        StoredLineReads(l, k);
      } else {
        EnforcedStored(init, tail, k);
      }
    }
  }

  lemma TailCarriesNoLimit(lines: seq<string>, k: Key)
    requires k.Limit? || k.SingleTargetLimit?
    ensures NoneCarries(MissingLines(lines) + [""], k)
  {
    DefaultCarriesNoLimit(MinLimit, k);
    DefaultCarriesNoLimit(ObserveSeconds, k);
    assert MissingLines(lines) + [""] == MissingLine(lines, MinLimit) + (MissingLine(lines, ObserveSeconds) + [""]);
  }

  lemma DefaultCarriesNoLimit(j: Key, k: Key)
    requires (j.MinLimit? || j.ObserveSeconds?) && (k.Limit? || k.SingleTargetLimit?)
    ensures !Carries(KeyLine(j, Default(j)), k)
  {
    KeyLineReads(j, Default(j));
    if Carries(KeyLine(j, Default(j)), k) {
      CarriesOne(KeyLine(j, Default(j)), j, k);
    }
  }

  /**
   * On the text that the normaliser leaves, the agent reports the clamped value of the first line with the key,
   * and the guard enforces that of the last; 20000 if there is none.
   */
  lemma ReadersSee(content: string, k: Key)
    requires k.Limit? || k.SingleTargetLimit?
    ensures var written := Split(Normalized(content), LF);
            Reported(written, k, MINIMUM_PPS) == FirstLimit(InputLines(content), k) &&
            Enforced(written, k) == LastLimit(InputLines(content), k)
  {
    var lines, tail := InputLines(content), MissingLines(InputLines(content)) + [""];
    assert Split(Normalized(content), LF) == NormalLines(lines) + tail by {
      WrittenLines(content);
    }
    TailCarriesNoLimit(lines, k);
    ReportedStored(lines, tail, k);
    EnforcedStored(lines, tail, k);
  }

  /** What the written file holds in the place of a line that sets a key. */
  lemma WrittenSetting(content: string, i: nat, k: Key)
    requires i < |InputLines(content)| && Carries(TrimSpace(InputLines(content)[i]), k)
    ensures i < |Split(Normalized(content), LF)|
    ensures var line, parsed := Split(Normalized(content), LF)[i], Atoi(ValueText(k, InputLines(content)[i]));
            && (k.Limit? || k.SingleTargetLimit? ==>
                  line == Prefix(k) + Itoa(if parsed.Some? then Max(20000, Min(parsed.value, 500000)) else 20000))
            && (k.ObserveSeconds? ==> line == Prefix(k) + Itoa(if parsed.Some? && parsed.value >= 1 then parsed.value else 120))
            && (k.MinLimit? ==> line == Prefix(k) + Itoa(20000))
  {
    var line := InputLines(content)[i];
    WrittenLines(content);
    NormalLinesAt(InputLines(content), i);
    KeyOfCarried(line, k);
    if k.Limit? || k.SingleTargetLimit? {
      StoredAsLimited(k, line);
    }
  }

  predicate SetsKey(line: string, k: Key) {
    Carries(TrimSpace(line), k)
  }

  /** Some line sets the key. */
  predicate Sets(lines: seq<string>, k: Key) {
    exists l :: l in lines && SetsKey(l, k)
  }

  lemma {:induction false} KeysSetIff(lines: seq<string>, k: Key)
    ensures k in KeysSet(lines) <==> Sets(lines, k)
  {
    if lines != [] {
      var init, last := lines[..|lines| - 1], lines[|lines| - 1];
      assert forall l :: l in lines <==> l in init || l == last;
      KeysSetIff(init, k);
      TagIff(last, k);
    }
  }

  lemma TagIff(line: string, k: Key)
    ensures k in TagSet(KeyOf(line)) <==> SetsKey(line, k)
  {
    KeyOfCarried(line, k);
  }

  /** The two settings that none of the lines sets. */
  function Defaults(lines: seq<string>): seq<string> {
    (if Sets(lines, MinLimit) then [] else ["PPS_MIN_LIMIT=20000"]) + (if Sets(lines, ObserveSeconds) then [] else ["PPS_OBSERVE_SECONDS=120"])
  }

  lemma MissingAreDefaults(lines: seq<string>)
    ensures MissingLines(lines) == Defaults(lines)
  {
    KeysSetIff(lines, MinLimit);
    KeysSetIff(lines, ObserveSeconds);
    DefaultLines();
  }

  /** They follow the input lines in the written file. */
  lemma WrittenDefaults(content: string)
    ensures Split(Normalized(content), LF) == NormalLines(InputLines(content)) + Defaults(InputLines(content)) + [""]
  {
    WrittenLines(content);
    MissingAreDefaults(InputLines(content));
  }

  lemma DefaultLines()
    ensures KeyLine(MinLimit, Default(MinLimit)) == "PPS_MIN_LIMIT=20000"
    ensures KeyLine(ObserveSeconds, Default(ObserveSeconds)) == "PPS_OBSERVE_SECONDS=120"
  {
    TenThousands(2);
    ItoaSnoc(1, "1", 2);
    ItoaSnoc(12, "12", 0);
  }

  /** Report and guard agree on a limit if and only if the first and the last line that set it have the same clamped value. */
  lemma ReadersAgreeIff(content: string, k: Key)
    requires k.Limit? || k.SingleTargetLimit?
    ensures Reported(Split(Normalized(content), LF), k, MINIMUM_PPS) == Enforced(Split(Normalized(content), LF), k)
       <==> FirstLimit(InputLines(content), k) == LastLimit(InputLines(content), k)
  {
    ReadersSee(content, k);
  }

  function TwoLimits(k: Key, a: nat, b: nat): string {
    KeyLine(k, a) + [LF] + KeyLine(k, b) + [LF]
  }

  lemma TwoLimitLines(k: Key, a: nat, b: nat)
    ensures InputLines(TwoLimits(k, a, b)) == [KeyLine(k, a), KeyLine(k, b)]
  {
    var lines := [KeyLine(k, a), KeyLine(k, b)];
    assert Unlines(lines[1..]) == KeyLine(k, b) + [LF] + Unlines(lines[1..][1..]);
    assert TwoLimits(k, a, b) == Unlines(lines);
    KeyLinePlain(k, a);
    KeyLinePlain(k, b);
    StripNothing(lines);
    ReadBack(lines);
  }

  lemma StoredLimit(k: Key, n: nat)
    requires (k.Limit? || k.SingleTargetLimit?) && MINIMUM_PPS <= n <= MAXIMUM_PPS
    ensures Carries(TrimSpace(KeyLine(k, n)), k) && Limited(k, KeyLine(k, n)) == n
  {
    KeyLineReads(k, n);
  }

  /** Every text of two lines that set a limit to two numbers in range. */
  lemma TwoLimitsSeen(k: Key, a: nat, b: nat)
    requires k.Limit? || k.SingleTargetLimit?
    requires MINIMUM_PPS <= a <= MAXIMUM_PPS && MINIMUM_PPS <= b <= MAXIMUM_PPS
    ensures var written := Split(Normalized(TwoLimits(k, a, b)), LF);
            Reported(written, k, MINIMUM_PPS) == a && Enforced(written, k) == b
  {
    TwoLimitLines(k, a, b);
    StoredLimit(k, a);
    StoredLimit(k, b);
    ReadersSee(TwoLimits(k, a, b), k);
  }

  lemma ItoaSnoc(n: nat, text: string, d: nat)
    requires Itoa(n) == text && n > 0 && d <= 9
    ensures Itoa(10 * n + d) == text + [DigitChar(d)]
  {
    assert (10 * n + d) / 10 == n && (10 * n + d) % 10 == d;
  }

  /** A file on which the report says 30000 and the guard enforces 40000. */
  lemma ReadersCanDisagree()
    ensures var written := Split(Normalized("PPS_LIMIT=30000\nPPS_LIMIT=40000\n"), LF);
            Reported(written, Limit, MINIMUM_PPS) == 30000 && Enforced(written, Limit) == 40000
  {
    TwoLimitsSeen(Limit, 30000, 40000);
    ThirtyThenForty();
  }

  lemma ThirtyThenForty()
    ensures TwoLimits(Limit, 30000, 40000) == "PPS_LIMIT=30000\nPPS_LIMIT=40000\n"
  {
    LimitLine(3);
    LimitLine(4);
    LimitText();
  }

  lemma LimitText()
    ensures ("PPS_LIMIT=" + [DigitChar(3)] + "0000") + [LF] + ("PPS_LIMIT=" + [DigitChar(4)] + "0000") + [LF]
         == "PPS_LIMIT=30000\nPPS_LIMIT=40000\n"
  {
  }

  lemma LimitLine(d: nat)
    requires 0 < d <= 9
    ensures KeyLine(Limit, 10000 * d) == "PPS_LIMIT=" + [DigitChar(d)] + "0000"
  {
    TenThousands(d);
  }

  lemma TenThousands(d: nat)
    requires 0 < d <= 9
    ensures Itoa(10000 * d) == [DigitChar(d)] + "0000"
  {
    var c := [DigitChar(d)];
    ItoaSnoc(d, c, 0);
    ItoaSnoc(10 * d, c + "0", 0);
    ItoaSnoc(100 * d, c + "00", 0);
    ItoaSnoc(1000 * d, c + "000", 0);
  }

  // ---- A file, written out ----

  function OneLimit(k: Key, n: nat, seconds: nat): seq<string> {
    [KeyLine(k, n), KeyLine(ObserveSeconds, seconds)]
  }

  lemma OneLimitLines(k: Key, n: nat, seconds: nat)
    ensures InputLines(Unlines(OneLimit(k, n, seconds))) == OneLimit(k, n, seconds)
  {
    KeyLinePlain(k, n);
    KeyLinePlain(ObserveSeconds, seconds);
    StripNothing(OneLimit(k, n, seconds));
    ReadBack(OneLimit(k, n, seconds));
  }

  /** A limit above the range is lowered to 500000, an observation time is kept, and the lower bound is added. */
  lemma OneLimitWritten(k: Key, n: nat, seconds: nat)
    requires (k.Limit? || k.SingleTargetLimit?) && 500000 < n <= MAX_INT64 && 1 <= seconds <= MAX_INT64
    ensures Normalized(Unlines(OneLimit(k, n, seconds)))
         == Unlines([KeyLine(k, 500000), KeyLine(ObserveSeconds, seconds), KeyLine(MinLimit, 20000)])
  {
    var lines := OneLimit(k, n, seconds);
    OneLimitLines(k, n, seconds);
    OneLimitNormal(k, n, seconds);
    OneLimitKeys(k, n, seconds);
    JoinUnlines(OutputLines(Unlines(lines)));
  }

  lemma OneLimitNormal(k: Key, n: nat, seconds: nat)
    requires (k.Limit? || k.SingleTargetLimit?) && 500000 < n <= MAX_INT64 && 1 <= seconds <= MAX_INT64
    ensures NormalLines(OneLimit(k, n, seconds)) == [KeyLine(k, 500000), KeyLine(ObserveSeconds, seconds)]
  {
    var lines := OneLimit(k, n, seconds);
    KeyLineReads(k, n);
    KeyLineReads(ObserveSeconds, seconds);
    NormalLinesFront(lines);
    NormalLinesFront(lines[1..]);
  }

  lemma OneLimitKeys(k: Key, n: nat, seconds: nat)
    requires (k.Limit? || k.SingleTargetLimit?) && n <= MAX_INT64 && seconds <= MAX_INT64
    ensures MissingLines(OneLimit(k, n, seconds)) == [KeyLine(MinLimit, 20000)]
  {
    var lines := OneLimit(k, n, seconds);
    KeyLineReads(k, n);
    KeyLineReads(ObserveSeconds, seconds);
    assert lines[..1] == [KeyLine(k, n)] && lines[..1][..0] == [];
    assert KeysSet(lines[..1]) == {k};
    assert KeysSet(lines) == {k, ObserveSeconds};
  }

  /** A whole file before and after, line by line. */
  lemma WrittenOut()
    ensures Normalized(Unlines(["PPS_SINGLE_TARGET_LIMIT=600000", "PPS_OBSERVE_SECONDS=60"]))
         == Unlines(["PPS_SINGLE_TARGET_LIMIT=500000", "PPS_OBSERVE_SECONDS=60", "PPS_MIN_LIMIT=20000"])
  {
    SingleTargetText(5);
    SingleTargetText(6);
    SixtySeconds();
    DefaultLines();
    OneLimitWritten(SingleTargetLimit, 600000, 60);
  }

  lemma SingleTargetText(d: nat)
    requires d == 5 || d == 6
    ensures KeyLine(SingleTargetLimit, 100000 * d) == if d == 5 then "PPS_SINGLE_TARGET_LIMIT=500000" else "PPS_SINGLE_TARGET_LIMIT=600000"
  {
    TenThousands(d);
    ItoaSnoc(10000 * d, [DigitChar(d)] + "0000", 0);
    assert [DigitChar(d)] + "0000" + [DigitChar(0)] == if d == 5 then "500000" else "600000";
  }

  lemma SixtySeconds()
    ensures KeyLine(ObserveSeconds, 60) == "PPS_OBSERVE_SECONDS=60"
  {
    ItoaSnoc(6, "6", 0);
  }
}
