/** The snapshot file: one line per hashed file, written by the snapshot tool and read back by
    the monitor. */
module SnapshotText {
  import opened GoStrings
  import opened Wrappers

  /** A hashed file: what a worker produces, what a snapshot line holds. */
  datatype FileHash = FileHash(path: string, hash: string)

  datatype RecordError = EmptyRecord | IncorrectRecord(line: string)

  const SEPARATOR := "  "

  function Line(r: FileHash): string {
    r.hash + SEPARATOR + r.path
  }

  function Print(rs: seq<FileHash>): string {
    if rs == [] then "" else Line(rs[0]) + "\n" + Print(rs[1..])
  }

  lemma {:induction false} PrintAppend(rs: seq<FileHash>, more: seq<FileHash>)
    ensures Print(rs + more) == Print(rs) + Print(more)
  {
    if rs == [] {
      assert rs + more == more;
    } else {
      assert (rs + more)[1..] == rs[1..] + more;
      PrintAppend(rs[1..], more);
    }
  }

  /** Writes the lines to a file that there is room for `room` characters of; the write that does not
      fit any more leaves the part of its line that does, and fails. */
  method WriteAsPlainText(hashes: seq<FileHash>, room: nat) returns (file: string, ok: bool)
    ensures ok <==> |Print(hashes)| <= room
    ensures file == if ok then Print(hashes) else Print(hashes)[..room]
  {
    file := "";
    for i := 0 to |hashes|
      invariant file == Print(hashes[..i]) && |file| <= room
    {
      var line := hashes[i].hash + SEPARATOR + hashes[i].path + "\n";
      NextLine(hashes[..i], hashes[i], hashes[i + 1..]);
      assert hashes[..i + 1] == hashes[..i] + [hashes[i]] && hashes == hashes[..i] + [hashes[i]] + hashes[i + 1..];
      if |file| + |line| > room {
        file := file + line[..room - |file|];
        return file, false;
      }
      file := file + line;
    }
    assert hashes[..|hashes|] == hashes;
    return file, true;
  }

  lemma NextLine(done: seq<FileHash>, r: FileHash, rest: seq<FileHash>)
    ensures Print(done + [r]) == Print(done) + (Line(r) + "\n")
    ensures Print(done + [r]) <= Print(done + [r] + rest)
  {
    PrintAppend(done, [r]);
    PrintOne(r);
    PrintAppend(done + [r], rest);
  }

  /** A record's line: hash, two spaces, path. */
  lemma PrintOne(r: FileHash)
    ensures Print([r]) == Line(r) + "\n" == r.hash + "  " + r.path + "\n"
  {
    assert [r][1..] == [];
    assert Line(r) + "\n" + "" == Line(r) + "\n";
  }

  function ParseRecord(rec: string): Result<FileHash, RecordError> {
    if |rec| == 0 then Failure(EmptyRecord)
    else
      var parts := Split(rec, SEPARATOR);
      if |parts| < 2 then Failure(IncorrectRecord(rec))
      else Success(FileHash(TrimSpace(parts[1]), TrimSpace(parts[0])))
  }

  function ParseLines(lines: seq<string>): Result<seq<FileHash>, RecordError> {
    if lines == [] then Success([])
    else
      match ParseRecord(lines[0])
      case Failure(e) => Failure(e)
      case Success(r) =>
        match ParseLines(lines[1..])
        case Failure(e) => Failure(e)
        case Success(rs) => Success([r] + rs)
  }

  lemma ParseFirstLine(line: string, lines: seq<string>)
    requires ParseRecord(line).Success? && ParseLines(lines).Success?
    ensures ParseLines([line] + lines) == Success([ParseRecord(line).value] + ParseLines(lines).value)
  {
    assert ([line] + lines)[1..] == lines;
  }

  function Parse(text: string): Result<seq<FileHash>, RecordError> {
    ParseLines(ScanLines(text))
  }

  function Prepend(done: seq<FileHash>, r: Result<seq<FileHash>, RecordError>): Result<seq<FileHash>, RecordError> {
    match r
    case Failure(e) => Failure(e)
    case Success(rs) => Success(done + rs)
  }

  lemma PrependNothing(r: Result<seq<FileHash>, RecordError>)
    ensures Prepend([], r) == r
  {
    if r.Success? {
      assert [] + r.value == r.value;
    }
  }

  lemma PrependNext(done: seq<FileHash>, lines: seq<string>)
    requires lines != []
    ensures Prepend(done, ParseLines(lines))
         == match ParseRecord(lines[0])
            case Failure(e) => Failure(e)
            case Success(r) => Prepend(done + [r], ParseLines(lines[1..]))
  {
    if ParseRecord(lines[0]).Success? && ParseLines(lines[1..]).Success? {
      var r, rs := ParseRecord(lines[0]).value, ParseLines(lines[1..]).value;
      assert done + ([r] + rs) == done + [r] + rs;
    }
  }

  /** The reader's loop over a scanner. A line that does not fit ends the loop like the end of
      the text does: the scanner's own error is never asked for. */
  method Get(text: string) returns (r: Result<seq<FileHash>, RecordError>)
    ensures r == Parse(text)
  {
    var checkSums: seq<FileHash> := [];
    var lines := ScanLines(text);
    PrependNothing(ParseLines(lines));
    while lines != []
      invariant Parse(text) == Prepend(checkSums, ParseLines(lines))
      decreases |lines|
    {
      PrependNext(checkSums, lines);
      var sum := ParseRecord(lines[0]);
      if sum.Failure? { return Failure(sum.error); }
      checkSums := checkSums + [sum.value];
      lines := lines[1..];
    }
    assert checkSums + [] == checkSums;
    return Success(checkSums);
  }

  /* ---------- Which records survive ---------- */

  /** A field that the format can carry. */
  ghost predicate Clean(field: string) {
    && '\n' !in field
    && !Contains(field, SEPARATOR)
    && Trimmed(field, IsSpace)
  }

  ghost predicate WellFormed(r: FileHash) {
    Clean(r.path) && Clean(r.hash)
  }

  predicate Fits(r: FileHash) {
    Utf8Len(Line(r)) <= MAX_LINE
  }

  /** A line splits at its first double space; what follows a second one is thrown away. */
  lemma ParseRecordFields(rec: string) returns (a: string, b: string, rest: string)
    requires ParseRecord(rec).Success?
    ensures rec == a + SEPARATOR + b + rest
    ensures !Contains(a, SEPARATOR) && !Contains(b, SEPARATOR)
    ensures forall j :: 0 <= j < |a| ==> !OccursAt(rec, "  ", j)
    ensures forall j :: 0 <= j < |b| ==> !OccursAt(b + rest, "  ", j)
    ensures ParseRecord(rec) == Success(FileHash(TrimSpace(b), TrimSpace(a)))
    ensures rest == "" || SEPARATOR <= rest
  {
    var tail;
    a, tail := SplitOnce(rec);
    b, rest := FirstPart(tail);
    SecondPart(rec, a, tail, b);
    assert rec == a + SEPARATOR + tail;
  }

  lemma SecondPart(rec: string, a: string, tail: string, b: string)
    requires rec != "" && Split(rec, SEPARATOR) == [a] + Split(tail, SEPARATOR) && Split(tail, SEPARATOR)[0] == b
    ensures ParseRecord(rec) == Success(FileHash(TrimSpace(b), TrimSpace(a)))
  {
    var parts := Split(rec, SEPARATOR);
    assert parts[0] == a && parts[1] == b;
  }

  lemma SplitOnce(s: string) returns (a: string, tail: string)
    requires Contains(s, SEPARATOR)
    ensures s == a + SEPARATOR + tail && !Contains(a, SEPARATOR)
    ensures forall j :: 0 <= j < |a| ==> !OccursAt(s, SEPARATOR, j)
    ensures Split(s, SEPARATOR) == [a] + Split(tail, SEPARATOR)
  {
    var i := Index(s, SEPARATOR);
    NoneBeforeFirst(s, SEPARATOR);
    a, tail := s[..i], s[i + 2..];
  }

  lemma FirstPart(s: string) returns (b: string, rest: string)
    ensures b == Split(s, SEPARATOR)[0] && s == b + rest
    ensures !Contains(b, SEPARATOR) && (rest == "" || SEPARATOR <= rest)
    ensures forall j :: 0 <= j < |b| ==> !OccursAt(s, SEPARATOR, j)
  {
    b, rest := s, "";
    if Contains(s, SEPARATOR) {
      var i := Index(s, SEPARATOR);
      NoneBeforeFirst(s, SEPARATOR);
      b, rest := s[..i], s[i..];
      assert rest[..2] == s[i..i + 2];
    }
  }

  /** A record is refused exactly when it is empty or has no double space, and the error says which. */
  lemma ParseRecordFails(rec: string)
    ensures ParseRecord(rec) == Failure(EmptyRecord) <==> rec == ""
    ensures ParseRecord(rec) == Failure(IncorrectRecord(rec)) <==> rec != "" && !Contains(rec, "  ")
    ensures ParseRecord(rec).Failure? <==> rec == "" || !Contains(rec, SEPARATOR)
  {
  }

  /** Trimming a field that has no newline or double space makes it clean. */
  lemma TrimmedFieldIsClean(s: string, line: string, from: nat)
    requires from + |s| <= |line| && line[from..from + |s|] == s
    requires '\n' !in line && !Contains(s, SEPARATOR)
    ensures Clean(TrimSpace(s)) && Utf8Len(TrimSpace(s)) <= Utf8Len(s)
  {
    var i, j := TrimSlice(s, IsSpace);
    var t := TrimSpace(s);
    forall k | 0 <= k < |t| ensures t[k] != '\n' {
      assert t[k] == s[i + k] == line[from + i + k];
    }
    SliceOccurs(s, SEPARATOR, i, j);
    Utf8LenSlice(s, i, j);
  }

  /** Whatever is read from a line is well formed and no longer than the line. */
  lemma ParsedIsWellFormed(rec: string)
    requires '\n' !in rec && ParseRecord(rec).Success?
    ensures WellFormed(ParseRecord(rec).value)
    ensures Utf8Len(Line(ParseRecord(rec).value)) <= Utf8Len(rec)
  {
    var a, b, rest := ParseRecordFields(rec);
    TrimmedFieldIsClean(a, rec, 0);
    TrimmedFieldIsClean(b, rec, |a| + 2);
    var r := ParseRecord(rec).value;
    Utf8LenConcat(a + SEPARATOR + b, rest);
    Utf8LenConcat(a + SEPARATOR, b);
    Utf8LenConcat(a, SEPARATOR);
    Utf8LenConcat(r.hash + SEPARATOR, r.path);
    Utf8LenConcat(r.hash, SEPARATOR);
  }

  /** The line of a well-formed record, as the scanner hands it over, reads as that record. */
  lemma WellFormedReadsBack(r: FileHash)
    requires WellFormed(r)
    ensures ParseRecord(DropCR(Line(r))) == Success(r)
  {
    var line := Line(r);
    if r.path != "" {
      assert line[|line| - 1] == r.path[|r.path| - 1];
    } else {
      assert line[|line| - 1] == ' ';
    }
    assert DropCR(line) == line;
    forall j | 0 <= j < |r.hash| ensures !OccursAt(line, SEPARATOR, j) {
      if j + 2 <= |r.hash| {
        assert line[j..j + 2] == r.hash[j..j + 2];
        assert !OccursAt(r.hash, SEPARATOR, j);
      } else {
        assert j == |r.hash| - 1 && line[j] == r.hash[j] && !IsSpace(r.hash[j]);
        assert line[j..j + 2][0] == line[j] && SEPARATOR[0] == ' ' && IsSpace(SEPARATOR[0]);
      }
    }
    SplitAtFirst(r.hash, SEPARATOR, r.path);
    assert Split(r.path, SEPARATOR) == [r.path];
    TrimIdentity(r.hash, IsSpace);
    TrimIdentity(r.path, IsSpace);
  }

  /* ---------- Round trip ---------- */

  ghost predicate Survives(r: FileHash) {
    WellFormed(r) && Fits(r)
  }

  lemma {:induction false} PrintedReadsBack(rs: seq<FileHash>)
    requires forall r :: r in rs ==> Survives(r)
    ensures Parse(Print(rs)) == Success(rs)
  {
    if rs != [] {
      PrintedReadsBack(rs[1..]);
      NextReadsBack(rs[0], rs[1..]);
      assert rs == [rs[0]] + rs[1..];
    }
  }

  /** Printing, as the scanner sees it: the first record's line and then the rest. */
  lemma FirstPrintedLine(rs: seq<FileHash>)
    requires rs != [] && '\n' !in rs[0].path && '\n' !in rs[0].hash
    ensures ScanLines(Print(rs))
         == if Fits(rs[0]) then [DropCR(Line(rs[0]))] + ScanLines(Print(rs[1..])) else []
  {
    ScanFirstLine(Line(rs[0]), Print(rs[1..]));
  }

  lemma {:induction false} ParsedLines(lines: seq<string>)
    requires ParseLines(lines).Success?
    ensures |ParseLines(lines).value| == |lines|
    ensures forall i :: 0 <= i < |lines| ==> ParseRecord(lines[i]) == Success(ParseLines(lines).value[i])
  {
    if lines != [] {
      ParsedLines(lines[1..]);
    }
  }

  /** Everything the reader returns would survive being written and read again. */
  lemma ParsedSurvives(text: string)
    requires Parse(text).Success?
    ensures forall r :: r in Parse(text).value ==> Survives(r)
  {
    var lines := ScanLines(text);
    ScannedLinesAreLines(text);
    ParsedLines(lines);
    forall r | r in Parse(text).value ensures Survives(r) {
      var i :| 0 <= i < |lines| && Parse(text).value[i] == r;
      ParsedIsWellFormed(lines[i]);
    }
  }

  /** A snapshot file reads back as exactly the records it was written from if and only if every
      record is well formed and its line fits the scanner's buffer. */
  lemma RoundTrip(rs: seq<FileHash>)
    ensures Parse(Print(rs)) == Success(rs) <==> forall r :: r in rs ==> Survives(r)
  {
    if forall r :: r in rs ==> Survives(r) {
      PrintedReadsBack(rs);
    }
    if Parse(Print(rs)) == Success(rs) {
      ParsedSurvives(Print(rs));
    }
  }

  ghost predicate BadLine(l: string) {
    l == "" || !Contains(l, SEPARATOR)
  }

  ghost predicate HasBadLine(lines: seq<string>) {
    exists i :: 0 <= i < |lines| && BadLine(lines[i])
  }

  lemma {:induction false} ParseFailsOnBadLine(lines: seq<string>)
    ensures ParseLines(lines).Failure? <==> HasBadLine(lines)
  {
    if lines != [] {
      ParseRecordFails(lines[0]);
      ParseFailsOnBadLine(lines[1..]);
      assert forall i :: 1 <= i < |lines| ==> lines[i] == lines[1..][i - 1];
      assert forall i :: 0 <= i < |lines| - 1 ==> lines[1..][i] == lines[i + 1];
    }
  }

  /** The error is that of the first bad line. */
  lemma {:induction false} FirstBadLine(lines: seq<string>, i: nat)
    requires i < |lines| && BadLine(lines[i]) && forall j :: 0 <= j < i ==> !BadLine(lines[j])
    ensures ParseLines(lines) == Failure(if lines[i] == "" then EmptyRecord else IncorrectRecord(lines[i]))
  {
    ParseRecordFails(lines[0]);
    if i > 0 {
      FirstBadLine(lines[1..], i - 1);
    }
  }

  /** The reader fails exactly when some scanned line is empty or has no double space; when it
      does not, printing what was read gives a normal form, which is read the same again. */
  lemma NormalForm(text: string)
    ensures Parse(text).Failure? <==> HasBadLine(ScanLines(text))
    ensures Parse(text).Success? ==> Parse(Print(Parse(text).value)) == Parse(text)
  {
    ParseFailsOnBadLine(ScanLines(text));
    if Parse(text).Success? {
      ParsedSurvives(text);
      PrintedReadsBack(Parse(text).value);
    }
  }

  lemma NextReadsBack(r: FileHash, rest: seq<FileHash>)
    requires Survives(r) && Parse(Print(rest)).Success?
    ensures Parse(Print([r] + rest)) == Success([r] + Parse(Print(rest)).value)
  {
    assert ([r] + rest)[1..] == rest;
    FirstPrintedLine([r] + rest);
    WellFormedReadsBack(r);
    ParseFirstLine(DropCR(Line(r)), ScanLines(Print(rest)));
  }

  lemma LongLineEnds(long: FileHash, rest: seq<FileHash>)
    requires !Fits(long) && '\n' !in long.path && '\n' !in long.hash
    ensures Parse(Print([long] + rest)) == Success([])
  {
    FirstPrintedLine([long] + rest);
  }

  /** One line that does not fit makes the reader drop it and everything after it, and still
      report success. */
  lemma {:induction false} LongLineTruncates(good: seq<FileHash>, long: FileHash, rest: seq<FileHash>)
    requires forall r :: r in good ==> Survives(r)
    requires !Fits(long) && '\n' !in long.path && '\n' !in long.hash
    ensures Parse(Print(good + ([long] + rest))) == Success(good)
  {
    if good == [] {
      LongLineEnds(long, rest);
      assert [] + ([long] + rest) == [long] + rest;
    } else {
      var more := good[1..] + ([long] + rest);
      assert good == [good[0]] + good[1..];
      assert good + ([long] + rest) == [good[0]] + more;
      LongLineTruncates(good[1..], long, rest);
      NextReadsBack(good[0], more);
    }
  }
}
