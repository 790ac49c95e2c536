/** The functions of Go's `strings`, `unicode` and `bufio` packages that the program relies on,
    over Dafny strings (one character for one Unicode code point). */
module GoStrings {

  /* ---------- strings.Index, strings.Split, strings.Join ---------- */

  predicate OccursAt(s: string, sep: string, i: int) {
    0 <= i <= |s| - |sep| && s[i..i + |sep|] == sep
  }

  ghost predicate Contains(s: string, sep: string) {
    exists i :: OccursAt(s, sep, i)
  }

  function IndexFrom(s: string, sep: string, from: nat): (i: int)
    requires from <= |s|
    ensures i == -1 ==> forall j :: from <= j ==> !OccursAt(s, sep, j)
    ensures i != -1 ==> from <= i && OccursAt(s, sep, i) && forall j :: from <= j < i ==> !OccursAt(s, sep, j)
    decreases |s| - from
  {
    if OccursAt(s, sep, from) then from
    else if from == |s| then -1
    else IndexFrom(s, sep, from + 1)
  }

  /** Position of the first occurrence of `sep`, or -1. */
  function Index(s: string, sep: string): (i: int)
    ensures i == -1 <==> !Contains(s, sep)
    ensures i != -1 ==> OccursAt(s, sep, i) && forall j :: 0 <= j < i ==> !OccursAt(s, sep, j)
  {
    IndexFrom(s, sep, 0)
  }

  function Split(s: string, sep: string): (parts: seq<string>)
    requires sep != ""
    ensures |parts| >= 1
    decreases |s|
  {
    var i := Index(s, sep);
    if i == -1 then [s] else [s[..i]] + Split(s[i + |sep|..], sep)
  }

  function Join(parts: seq<string>, sep: string): string {
    if |parts| == 0 then ""
    else if |parts| == 1 then parts[0]
    else parts[0] + sep + Join(parts[1..], sep)
  }

  lemma IndexIs(s: string, sep: string, i: nat)
    requires OccursAt(s, sep, i) && forall j :: 0 <= j < i ==> !OccursAt(s, sep, j)
    ensures Index(s, sep) == i
  {
  }

  /** Splitting after a first part that holds no earlier occurrence of the separator. */
  lemma SplitAtFirst(a: string, sep: string, b: string)
    requires sep != ""
    requires forall j :: 0 <= j < |a| ==> !OccursAt(a + sep + b, sep, j)
    ensures Split(a + sep + b, sep) == [a] + Split(b, sep)
  {
    var s := a + sep + b;
    assert s[|a|..|a| + |sep|] == sep;
    IndexIs(s, sep, |a|);
    assert s[..|a|] == a && s[|a| + |sep|..] == b;
  }

  /** A one-character separator occurs exactly where the character is. */
  lemma CharOccurs(s: string, c: char, i: int)
    ensures OccursAt(s, [c], i) <==> 0 <= i < |s| && s[i] == c
  {
    if 0 <= i < |s| {
      assert s[i..i + 1] == [s[i]];
    }
  }

  lemma CharContains(s: string, c: char)
    ensures Contains(s, [c]) <==> c in s
  {
    forall i ensures OccursAt(s, [c], i) <==> 0 <= i < |s| && s[i] == c {
      CharOccurs(s, c, i);
    }
    if c in s {
      var i :| 0 <= i < |s| && s[i] == c;
      assert OccursAt(s, [c], i);
    }
  }

  lemma SplitAtChar(a: string, c: char, b: string)
    requires c !in a
    ensures Split(a + [c] + b, [c]) == [a] + Split(b, [c])
  {
    forall j | 0 <= j < |a| ensures !OccursAt(a + [c] + b, [c], j) {
      CharOccurs(a + [c] + b, c, j);
    }
    SplitAtFirst(a, [c], b);
  }

  lemma SplitNone(s: string, c: char)
    requires c !in s
    ensures Split(s, [c]) == [s]
  {
    CharContains(s, c);
  }

  /** Where a character first occurs, as a decomposition. */
  lemma IndexOfChar(s: string, c: char) returns (i: nat)
    requires c in s
    ensures i < |s| && s[i] == c && c !in s[..i] && Index(s, [c]) == i
    ensures s == s[..i] + [c] + s[i + 1..]
  {
    CharContains(s, c);
    i := Index(s, [c]);
    CharOccurs(s, c, i);
    forall j | 0 <= j < i ensures s[j] != c {
      CharOccurs(s, c, j);
    }
  }

  /** Join undoes Split, and no part holds the separator character. */
  lemma {:induction false} JoinSplit(s: string, c: char)
    ensures Join(Split(s, [c]), [c]) == s
    ensures forall p :: p in Split(s, [c]) ==> c !in p
    decreases |s|
  {
    CharContains(s, c);
    if c in s {
      var i := IndexOfChar(s, c);
      var rest := Split(s[i + 1..], [c]);
      JoinSplit(s[i + 1..], c);
      assert ([s[..i]] + rest)[1..] == rest;
    }
  }

  /** Split undoes Join on parts free of the separator character. */
  lemma {:induction false} SplitJoin(parts: seq<string>, c: char)
    requires |parts| >= 1
    requires forall p :: p in parts ==> c !in p
    ensures Split(Join(parts, [c]), [c]) == parts
  {
    if |parts| == 1 {
      SplitNone(parts[0], c);
    } else {
      SplitJoin(parts[1..], c);
      SplitAtChar(parts[0], c, Join(parts[1..], [c]));
    }
  }

  /** A separator inside a slice is inside the whole. */
  lemma SliceOccurs(s: string, sep: string, i: nat, j: nat)
    requires i <= j <= |s|
    ensures forall k {:trigger OccursAt(s[i..j], sep, k)} :: OccursAt(s[i..j], sep, k) ==> OccursAt(s, sep, i + k)
    ensures Contains(s[i..j], sep) ==> Contains(s, sep)
  {
    forall k | OccursAt(s[i..j], sep, k) ensures OccursAt(s, sep, i + k) {
      var t := s[i..j];
      var u := s[i + k..i + k + |sep|];
      forall m | 0 <= m < |sep| ensures u[m] == sep[m] {
        assert sep[m] == t[k..k + |sep|][m] == t[k + m] == s[i + (k + m)];
      }
      assert u == sep;
    }
  }

  lemma NoneBeforeFirst(s: string, sep: string)
    requires sep != "" && Contains(s, sep)
    ensures !Contains(s[..Index(s, sep)], sep)
  {
    var i := Index(s, sep);
    SliceOccurs(s, sep, 0, i);
    assert s[0..i] == s[..i];
    forall k ensures OccursAt(s[..i], sep, k) ==> OccursAt(s, sep, k) && k + |sep| <= i {
      assert OccursAt(s[..i], sep, k) ==> OccursAt(s, sep, 0 + k);
    }
    assert sep != "" ==> forall k :: !OccursAt(s[..i], sep, k);
  }

  /* ---------- strings.TrimFunc, strings.TrimSpace, strings.TrimPrefix ---------- */

  function TrimLeft(s: string, cut: char -> bool): string {
    if s != "" && cut(s[0]) then TrimLeft(s[1..], cut) else s
  }

  function TrimRight(s: string, cut: char -> bool): string {
    if s != "" && cut(s[|s| - 1]) then TrimRight(s[..|s| - 1], cut) else s
  }

  function TrimFunc(s: string, cut: char -> bool): string {
    TrimRight(TrimLeft(s, cut), cut)
  }

  /** Neither end of `s` would be cut. */
  predicate Trimmed(s: string, cut: char -> bool) {
    s == "" || (!cut(s[0]) && !cut(s[|s| - 1]))
  }

  lemma {:induction false} TrimLeftSlice(s: string, cut: char -> bool) returns (i: nat)
    ensures i <= |s| && TrimLeft(s, cut) == s[i..]
    ensures i < |s| ==> !cut(s[i])
    ensures forall k :: 0 <= k < i ==> cut(s[k])
  {
    if s != "" && cut(s[0]) {
      var j := TrimLeftSlice(s[1..], cut);
      i := j + 1;
    } else {
      i := 0;
    }
  }

  lemma {:induction false} TrimRightSlice(s: string, cut: char -> bool) returns (j: nat)
    ensures j <= |s| && TrimRight(s, cut) == s[..j]
    ensures j > 0 ==> !cut(s[j - 1])
    ensures forall k :: j <= k < |s| ==> cut(s[k])
  {
    if s != "" && cut(s[|s| - 1]) {
      j := TrimRightSlice(s[..|s| - 1], cut);
      assert s[..|s| - 1][..j] == s[..j];
    } else {
      j := |s|;
    }
  }

  /** Trimming keeps one contiguous slice; that slice is trimmed, and all that is outside was to be cut. */
  lemma TrimSlice(s: string, cut: char -> bool) returns (i: nat, j: nat)
    ensures i <= j <= |s| && TrimFunc(s, cut) == s[i..j]
    ensures forall k :: 0 <= k < i || j <= k < |s| ==> cut(s[k])
    ensures Trimmed(TrimFunc(s, cut), cut)
  {
    i := TrimLeftSlice(s, cut);
    var n := TrimRightSlice(s[i..], cut);
    j := i + n;
    assert s[i..][..n] == s[i..j];
    assert forall k :: j <= k < |s| ==> s[k] == s[i..][k - i];
  }

  /** What trimming leaves of a text with something to cut on either side. */
  lemma TrimSides(a: string, s: string, b: string, cut: char -> bool)
    requires (forall c :: c in a ==> cut(c)) && (forall c :: c in b ==> cut(c)) && Trimmed(s, cut)
    ensures TrimFunc(a + s + b, cut) == s
  {
    var all := a + s + b;
    var i, j := TrimSlice(all, cut);
    assert forall k :: 0 <= k < |a| ==> all[k] in a;
    assert forall k :: |a| + |s| <= k < |all| ==> all[k] in b;
    if s == "" {
      assert forall k :: 0 <= k < |all| ==> cut(all[k]);
    } else {
      assert all[|a|] == s[0] && all[|a| + |s| - 1] == s[|s| - 1];
      assert all[|a|..|a| + |s|] == s;
    }
  }

  /** Trimming leaves a string alone exactly when it is trimmed. */
  lemma TrimIdentity(s: string, cut: char -> bool)
    ensures TrimFunc(s, cut) == s <==> Trimmed(s, cut)
  {
    var i, j := TrimSlice(s, cut);
  }

  /** unicode.IsSpace. */
  predicate IsSpace(c: char) {
    c == ' ' || '\t' <= c <= '\r' || c == '\U{0085}' || c == '\U{00A0}' || c == '\U{1680}'
    || '\U{2000}' <= c <= '\U{200A}' || c == '\U{2028}' || c == '\U{2029}' || c == '\U{202F}'
    || c == '\U{205F}' || c == '\U{3000}'
  }

  /** The space characters, by number. */
  lemma SpacesAre(c: char)
    ensures var n := c as int;
      IsSpace(c) <==> 9 <= n <= 13 || n == 32 || n == 133 || n == 160 || n == 5760 || 8192 <= n <= 8202
                      || n == 8232 || n == 8233 || n == 8239 || n == 8287 || n == 12288
  {
  }

  function TrimSpace(s: string): string {
    TrimFunc(s, IsSpace)
  }

  function TrimPrefix(s: string, prefix: string): string {
    if prefix <= s then s[|prefix|..] else s
  }

  /** The prefix goes if it is there, once, and nothing else does. */
  lemma TrimPrefixIs(s: string, prefix: string)
    ensures |s| >= |prefix| && s[..|prefix|] == prefix ==> s == prefix + TrimPrefix(s, prefix)
    ensures |s| < |prefix| || s[..|prefix|] != prefix ==> TrimPrefix(s, prefix) == s
  {
  }

  /* ---------- strings.ToLower on ASCII ---------- */

  function LowerChar(c: char): char {
    if 'A' <= c <= 'Z' then c + 32 as char else c
  }

  function ToLower(s: string): string {
    seq(|s|, i requires 0 <= i < |s| => LowerChar(s[i]))
  }

  /** Lowering leaves no letter from A to Z, and moves each of these, and nothing else, by 32. */
  lemma LowerIs(s: string)
    ensures |ToLower(s)| == |s|
    ensures forall i :: 0 <= i < |s| ==>
      var c, d := s[i] as int, ToLower(s)[i] as int;
      && !(65 <= d <= 90)
      && d == if 65 <= c <= 90 then c + 32 else c
  {
  }

  /** The same letter, maybe in the other case. */
  predicate SameLetter(c: char, d: char) {
    || c == d
    || ('A' <= c <= 'Z' && d as int == c as int + 32)
    || ('A' <= d <= 'Z' && c as int == d as int + 32)
  }

  predicate SameUpToCase(a: string, b: string) {
    |a| == |b| && forall i :: 0 <= i < |a| ==> SameLetter(a[i], b[i])
  }

  lemma CaseExactly(a: string, b: string)
    ensures ToLower(a) == ToLower(b) <==> SameUpToCase(a, b)
  {
    LowerIs(a);
    LowerIs(b);
    if ToLower(a) == ToLower(b) {
      forall i | 0 <= i < |a| ensures SameLetter(a[i], b[i]) {
        assert ToLower(a)[i] == ToLower(b)[i];
      }
    }
  }

  /* ---------- bufio.Scanner with bufio.ScanLines ---------- */

  /** A scanner's buffer holds 64 KiB; a line and its newline have to fit. */
  const MAX_LINE: nat := 65535

  function Utf8Len(s: string): nat {
    if s == "" then 0
    else (var c := s[|s| - 1] as int;
          (if c < 0x80 then 1 else if c < 0x800 then 2 else if c < 0x10000 then 3 else 4))
         + Utf8Len(s[..|s| - 1])
  }

  function DropCR(line: string): string {
    if line != "" && line[|line| - 1] == '\r' then line[..|line| - 1] else line
  }

  /** The lines the scanner yields. It stops without a word at a line that does not fit. */
  function ScanLines(s: string): seq<string>
    decreases |s|
  {
    if s == "" then []
    else
      var i := Index(s, "\n");
      var line := if i == -1 then s else s[..i];
      if Utf8Len(line) > MAX_LINE then []
      else [DropCR(line)] + (if i == -1 then [] else ScanLines(s[i + 1..]))
  }

  lemma {:induction false} Utf8LenConcat(a: string, b: string)
    ensures Utf8Len(a + b) == Utf8Len(a) + Utf8Len(b)
    decreases |b|
  {
    if b == "" {
      assert a + b == a;
    } else {
      var n := |b| - 1;
      assert (a + b)[..|a + b| - 1] == a + b[..n];
      Utf8LenConcat(a, b[..n]);
    }
  }

  /** Each character has one to four bytes, by its number. */
  lemma Utf8LenNext(s: string, c: char)
    ensures Utf8Len("") == 0
    ensures var n := c as int;
      Utf8Len(s + [c]) == Utf8Len(s) + (if n <= 127 then 1 else if n <= 2047 then 2 else if n <= 65535 then 3 else 4)
  {
    assert (s + [c])[..|s|] == s;
  }

  lemma Utf8LenSlice(s: string, i: nat, j: nat)
    requires i <= j <= |s|
    ensures Utf8Len(s[i..j]) <= Utf8Len(s)
  {
    assert s == s[..i] + s[i..j] + s[j..];
    Utf8LenConcat(s[..i] + s[i..j], s[j..]);
    Utf8LenConcat(s[..i], s[i..j]);
  }

  /** The first line of a text is scanned, or stops the scanner, before the rest is looked at. */
  lemma ScanFirstLine(line: string, rest: string)
    requires '\n' !in line
    ensures ScanLines(line + "\n" + rest)
         == if Utf8Len(line) > 65535 then [] else [DropCR(line)] + ScanLines(rest)
  {
    var s := line + "\n" + rest;
    assert "\n" == ['\n'];
    forall j | 0 <= j <= |line| ensures OccursAt(s, "\n", j) <==> j == |line| {
      CharOccurs(s, '\n', j);
    }
    IndexIs(s, "\n", |line|);
    assert s[..|line|] == line && s[|line| + 1..] == rest;
  }

  /** The last line needs no newline; nothing comes after it. */
  lemma ScanLastLine(line: string)
    requires '\n' !in line
    ensures ScanLines(line) == if line == "" || Utf8Len(line) > 65535 then [] else [DropCR(line)]
  {
    CharContains(line, '\n');
    assert "\n" == ['\n'];
  }

  /** One carriage return goes from the end of a line, if there is one. */
  lemma DropCRIs(line: string)
    ensures DropCR(line + "\r") == line
    ensures (line == "" || line[|line| - 1] != '\r') ==> DropCR(line) == line
  {
    assert (line + "\r")[..|line|] == line;
  }

  /** No scanned line holds a newline or is longer than the limit. */
  lemma {:induction false} ScannedLinesAreLines(s: string)
    ensures forall l :: l in ScanLines(s) ==> '\n' !in l && Utf8Len(l) <= MAX_LINE
    decreases |s|
  {
    if s != "" {
      var i := Index(s, "\n");
      CharContains(s, '\n');
      var line := if i == -1 then s else s[..i];
      if '\n' in s { var k := IndexOfChar(s, '\n'); }
      assert '\n' !in line;
      if |line| > 0 { Utf8LenSlice(line, 0, |line| - 1); assert line[0..|line| - 1] == line[..|line| - 1]; }
      if i != -1 { ScannedLinesAreLines(s[i + 1..]); }
    }
  }
}
