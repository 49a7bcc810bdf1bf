/** String operations of the Go standard library that several components share. */
module Text {

  datatype Option<+T> = None | Some(value: T)

  /** `unicode.IsSpace`, the cut set of `strings.TrimSpace` and `strings.Fields`. */
  predicate IsSpace(c: char) {
    var n := c as int;
    || 9 <= n <= 13
    || n in {0x20, 0x85, 0xA0, 0x1680, 0x2028, 0x2029, 0x202F, 0x205F, 0x3000}
    || 0x2000 <= n <= 0x200A
  }

  function TrimLeft(s: string): string {
    if s != "" && IsSpace(s[0]) then TrimLeft(s[1..]) else s
  }

  function TrimRight(s: string): string {
    if s != "" && IsSpace(s[|s| - 1]) then TrimRight(s[..|s| - 1]) else s
  }

  /** `strings.TrimSpace`. */
  function TrimSpace(s: string): string {
    TrimRight(TrimLeft(s))
  }

  predicate AllSpace(s: string) {
    forall i :: 0 <= i < |s| ==> IsSpace(s[i])
  }

  lemma {:induction false} TrimLeftIs(s: string) returns (front: string)
    ensures s == front + TrimLeft(s) && AllSpace(front)
    ensures TrimLeft(s) != "" ==> !IsSpace(TrimLeft(s)[0])
  {
    if s != "" && IsSpace(s[0]) {
      front := TrimLeftIs(s[1..]);
      front := [s[0]] + front;
    } else {
      front := "";
    }
  }

  lemma {:induction false} TrimRightIs(s: string) returns (back: string)
    ensures s == TrimRight(s) + back && AllSpace(back)
    ensures TrimRight(s) != "" ==> !IsSpace(TrimRight(s)[|TrimRight(s)| - 1])
  {
    if s != "" && IsSpace(s[|s| - 1]) {
      back := TrimRightIs(s[..|s| - 1]);
      assert s == TrimRight(s) + (back + [s[|s| - 1]]);
      back := back + [s[|s| - 1]];
    } else {
      back := "";
    }
  }

  /** Trimming takes white space off both ends, and all of it. */
  lemma TrimSpaceIs(s: string) returns (front: string, back: string)
    ensures s == front + TrimSpace(s) + back && AllSpace(front) && AllSpace(back)
    ensures var r := TrimSpace(s); r != "" ==> !IsSpace(r[0]) && !IsSpace(r[|r| - 1])
  {
    front := TrimLeftIs(s);
    back := TrimRightIs(TrimLeft(s));
    assert TrimSpace(s) != "" ==> TrimSpace(s)[0] == TrimLeft(s)[0];
  }

  lemma {:induction false} TrimLeftKeeps(s: string)
    requires s == "" || !IsSpace(s[0])
    ensures TrimSpace(s) == TrimRight(s)
  {
  }

  lemma {:induction false} TrimNothing(s: string)
    requires s == "" || (!IsSpace(s[0]) && !IsSpace(s[|s| - 1]))
    ensures TrimSpace(s) == s
  {
  }

  function AsciiLowerChar(c: char): char {
    if 'A' <= c <= 'Z' then c - 'A' + 'a' else c
  }

  /** The string with its ASCII letters in lower case. */
  function AsciiLower(s: string): (r: string)
    ensures |r| == |s|
  {
    seq(|s|, i requires 0 <= i < |s| => AsciiLowerChar(s[i]))
  }

  /** The same letter, whatever its case, or the same other character. */
  predicate SameLetter(c: char, d: char) {
    || c == d
    || ('A' <= c <= 'Z' && d as int == c as int + 32)
    || ('a' <= c <= 'z' && d as int == c as int - 32)
  }

  predicate SameUpToCase(a: string, b: string) {
    |a| == |b| && forall i :: 0 <= i < |a| ==> SameLetter(a[i], b[i])
  }

  lemma LowerIsCaseless(a: string, b: string)
    ensures AsciiLower(a) == AsciiLower(b) <==> SameUpToCase(a, b)
  {
    var x, y := AsciiLower(a), AsciiLower(b);
    if |a| == |b| {
      forall i | 0 <= i < |a|
        ensures x[i] == y[i] <==> SameLetter(a[i], b[i])
      {
        assert x[i] == AsciiLowerChar(a[i]) && y[i] == AsciiLowerChar(b[i]);
      }
    }
  }

  /** `strings.ToLower` as far as it yields ASCII: the Kelvin sign and the dotted I lower to ASCII letters too. */
  function ToLower(s: string): (r: string)
    ensures |r| == |s|
  {
    seq(|s|, i requires 0 <= i < |s| =>
      if s[i] as int == 0x212A then 'k' else if s[i] as int == 0x130 then 'i' else AsciiLowerChar(s[i]))
  }

  /** `strings.Split(s, string(sep))` for a one-character separator. */
  function Split(s: string, sep: char): (parts: seq<string>)
    ensures |parts| >= 1
  {
    if s == "" then [""]
    else
      var rest := Split(s[1..], sep);
      if s[0] == sep then [""] + rest else [[s[0]] + rest[0]] + rest[1..]
  }

  /** `strings.Join(parts, string(sep))`. */
  function Join(parts: seq<string>, sep: char): string {
    if |parts| == 0 then ""
    else if |parts| == 1 then parts[0]
    else parts[0] + [sep] + Join(parts[1..], sep)
  }

  lemma {:induction false} SplitPieces(s: string, sep: char)
    ensures forall p :: p in Split(s, sep) ==> sep !in p
  {
    if s != "" {
      SplitPieces(s[1..], sep);
      var rest := Split(s[1..], sep);
      assert rest[0] in rest;
    }
  }

  lemma {:induction false} JoinSplit(s: string, sep: char)
    ensures Join(Split(s, sep), sep) == s
  {
    if s != "" {
      JoinSplit(s[1..], sep);
      var rest := Split(s[1..], sep);
      if s[0] == sep {
        assert ([""] + rest)[1..] == rest;
      } else {
        var parts := [[s[0]] + rest[0]] + rest[1..];
        assert parts[1..] == rest[1..];
        assert s == [s[0]] + s[1..];
        if |rest| > 1 {
          assert Join(parts, sep) == ([s[0]] + rest[0]) + [sep] + Join(rest[1..], sep);
          assert Join(rest, sep) == rest[0] + [sep] + Join(rest[1..], sep);
        }
      }
    }
  }

  lemma {:induction false} SplitPiece(p: string, sep: char)
    requires sep !in p
    ensures Split(p, sep) == [p]
  {
    if p != "" {
      SplitPiece(p[1..], sep);
      assert p == [p[0]] + p[1..];
    }
  }

  lemma {:induction false} SplitAtSeparator(p: string, s: string, sep: char)
    requires sep !in p
    ensures Split(p + [sep] + s, sep) == [p] + Split(s, sep)
  {
    var whole := p + [sep] + s;
    if p == "" {
      assert whole[1..] == s;
    } else {
      SplitAtSeparator(p[1..], s, sep);
      assert whole[1..] == p[1..] + [sep] + s;
      assert p == [p[0]] + p[1..];
    }
  }

  lemma {:induction false} SplitJoin(parts: seq<string>, sep: char)
    requires |parts| >= 1
    requires forall p :: p in parts ==> sep !in p
    ensures Split(Join(parts, sep), sep) == parts
  {
    if |parts| == 1 {
      SplitPiece(parts[0], sep);
    } else {
      SplitJoin(parts[1..], sep);
      SplitAtSeparator(parts[0], Join(parts[1..], sep), sep);
    }
  }

  /** Go's `<` on strings, character by character. */
  predicate Less(a: string, b: string) {
    b != "" && (a == "" || a[0] < b[0] || (a[0] == b[0] && Less(a[1..], b[1..])))
  }

  lemma {:induction false} LessTotal(a: string, b: string)
    ensures Less(a, b) || Less(b, a) || a == b
    ensures !(Less(a, b) && Less(b, a))
    ensures !Less(a, a)
  {
    if a != "" {
      if b != "" {
        LessTotal(a[1..], b[1..]);
        assert a == [a[0]] + a[1..] && b == [b[0]] + b[1..];
      } else {
        LessTotal(a[1..], b);
      }
    }
  }

  lemma {:induction false} LessTransitive(a: string, b: string, c: string)
    requires Less(a, b) && Less(b, c)
    ensures Less(a, c)
  {
    if a != "" && a[0] == b[0] == c[0] {
      LessTransitive(a[1..], b[1..], c[1..]);
    }
  }

  /** Strictly ascending, hence without repetition. */
  ghost predicate Ascending(names: seq<string>) {
    forall i, j :: 0 <= i < j < |names| ==> Less(names[i], names[j])
  }

  function InsertSorted(name: string, names: seq<string>): (r: seq<string>)
    requires Ascending(names) && name !in names
    ensures Ascending(r) && |r| == |names| + 1
    ensures forall x :: x in r <==> x == name || x in names
  {
    if names == [] then [name]
    else
      LessTotal(name, names[0]);
      if Less(name, names[0]) then
        assert forall x :: x in names ==> Less(name, x) by {
          forall x | x in names ensures Less(name, x) { BelowAll(name, names, x); }
        }
        [name] + names
      else
        assert names == [names[0]] + names[1..];
        var rest := InsertSorted(name, names[1..]);
        assert forall x :: x in rest ==> Less(names[0], x);
        [names[0]] + rest
  }

  lemma BelowAll(name: string, names: seq<string>, x: string)
    requires Ascending(names) && names != [] && Less(name, names[0]) && x in names
    ensures Less(name, x)
  {
    if x != names[0] {
      LessTransitive(name, names[0], x);
    }
  }

  /** `sort.Strings` on the keys of a map, collected in any order. */
  function SortKeys(keys: seq<string>): (r: seq<string>)
    requires forall i, j :: 0 <= i < j < |keys| ==> keys[i] != keys[j]
    ensures Ascending(r) && |r| == |keys|
    ensures forall x :: x in r <==> x in keys
  {
    if keys == [] then []
    else
      assert forall x :: x in keys <==> x == keys[0] || x in keys[1..];
      InsertSorted(keys[0], SortKeys(keys[1..]))
  }

  /** A set of strings has one ascending listing, so the order in which a map was walked cannot matter. */
  lemma {:induction false} AscendingUnique(a: seq<string>, b: seq<string>)
    requires Ascending(a) && Ascending(b)
    requires forall x :: x in a <==> x in b
    ensures a == b
  {
    assert a != [] ==> a[0] in b;
    assert b != [] ==> b[0] in a;
    if a != [] {
      LeastFirst(a, b);
      forall x ensures x in a[1..] <==> x in b[1..] {
        TailMembers(a, x);
        TailMembers(b, x);
      }
      AscendingUnique(a[1..], b[1..]);
      assert a == [a[0]] + a[1..] && b == [b[0]] + b[1..];
    }
  }

  lemma LeastFirst(a: seq<string>, b: seq<string>)
    requires Ascending(a) && Ascending(b) && a != [] && b != []
    requires forall x :: x in a <==> x in b
    ensures a[0] == b[0]
  {
    assert a[0] in b && b[0] in a;
    LessTotal(a[0], b[0]);
  }

  lemma TailMembers(a: seq<string>, x: string)
    requires Ascending(a) && a != []
    ensures x in a[1..] <==> x in a && x != a[0]
  {
    LessTotal(a[0], a[0]);
    if x in a && x != a[0] {
      var i :| 0 <= i < |a| && a[i] == x;
      assert a[1..][i - 1] == x;
    }
  }
}
