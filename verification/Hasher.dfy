/** Hashing data and files: the C path that reads a file, the Go path over a hash object, and the
    choice between them. */
module Hasher {
  import opened Bee2
  import opened GoStrings
  import opened Wrappers

  /* ---------- hex.EncodeToString ---------- */

  const DIGITS := "0123456789abcdef"

  function Hex(bytes: Bytes): string {
    if bytes == [] then "" else [DIGITS[bytes[0] / 16], DIGITS[bytes[0] % 16]] + Hex(bytes[1..])
  }

  lemma DigitsDiffer(a: nat, b: nat)
    requires a < 16 && b < 16
    ensures DIGITS[a] == DIGITS[b] <==> a == b
  {
    var codes := [48, 49, 50, 51, 52, 53, 54, 55, 56, 57, 97, 98, 99, 100, 101, 102];
    assert forall i :: 0 <= i < 16 ==> DIGITS[i] as int == codes[i];
  }

  lemma {:induction false} HexIsInjective(a: Bytes, b: Bytes)
    ensures Hex(a) == Hex(b) <==> a == b
  {
    if a != [] && b != [] {
      HexIsInjective(a[1..], b[1..]);
      DigitsDiffer(a[0] / 16, b[0] / 16);
      DigitsDiffer(a[0] % 16, b[0] % 16);
      assert Hex(a)[0] == DIGITS[a[0] / 16] && Hex(a)[1] == DIGITS[a[0] % 16] && Hex(a)[2..] == Hex(a[1..]);
      assert Hex(b)[0] == DIGITS[b[0] / 16] && Hex(b)[1] == DIGITS[b[0] % 16] && Hex(b)[2..] == Hex(b[1..]);
      assert a == [a[0]] + a[1..] && b == [b[0]] + b[1..];
    }
  }

  /** The value of a hexadecimal digit. */
  function Value(c: char): int {
    if '0' <= c <= '9' then c as int - 48 else c as int - 97 + 10
  }

  predicate IsHexDigit(c: char) {
    '0' <= c <= '9' || 'a' <= c <= 'f'
  }

  lemma DigitIs(n: nat)
    requires n < 16
    ensures IsHexDigit(DIGITS[n]) && Value(DIGITS[n]) == n
  {
    var codes := [48, 49, 50, 51, 52, 53, 54, 55, 56, 57, 97, 98, 99, 100, 101, 102];
    assert forall i :: 0 <= i < 16 ==> DIGITS[i] as int == codes[i];
  }

  /** Two digits for each byte, in lower case, the higher one first. */
  lemma {:induction false} HexReadsBack(bytes: Bytes)
    ensures |Hex(bytes)| == 2 * |bytes| && forall c :: c in Hex(bytes) ==> IsHexDigit(c)
    ensures forall i :: 0 <= i < |bytes| ==> 16 * Value(Hex(bytes)[2 * i]) + Value(Hex(bytes)[2 * i + 1]) == bytes[i]
  {
    if bytes != [] {
      HexReadsBack(bytes[1..]);
      DigitIs(bytes[0] / 16);
      DigitIs(bytes[0] % 16);
      var h, rest := Hex(bytes), Hex(bytes[1..]);
      assert h == [h[0], h[1]] + rest;
      forall i | 0 <= i < |bytes| ensures 16 * Value(h[2 * i]) + Value(h[2 * i + 1]) == bytes[i] {
        if i > 0 {
          assert h[2 * i] == rest[2 * (i - 1)] && h[2 * i + 1] == rest[2 * (i - 1) + 1];
        }
      }
    }
  }

  lemma {:induction false} HexHasNoSpace(bytes: Bytes)
    ensures forall c :: c in Hex(bytes) ==> !IsSpace(c)
  {
    if bytes != [] {
      HexHasNoSpace(bytes[1..]);
      assert forall c :: c in DIGITS ==> !IsSpace(c);
    }
  }

  /* ---------- The C path ---------- */

  /** What opening and reading a file yields: the pieces that fread returned before it returned
      nothing, and whether that was because of an error. */
  datatype File = Missing | Opened(pieces: seq<Bytes>, readError: bool)

  /** What the C loop computes, from a state buffer that happened to hold `stack`. */
  function PiecewiseDigest(prim: Primitive, stack: Bytes, pieces: seq<Bytes>): Bytes {
    prim.stepG(HID / 8, AbsorbAll(prim, prim.start(stack, HID / 2), pieces))
  }

  method Bee2HashFile(prim: Primitive, file: File, stack: Bytes) returns (r: Result<string, string>)
    requires |stack| == BLOCKSIZE
    ensures r.Success? <==> file.Opened? && !file.readError
    ensures r.Success? ==> r.value == Hex(PiecewiseDigest(prim, stack, file.pieces))
  {
    if file.Missing? { return Failure("file not found"); }
    var state := prim.start(stack, HID / 2);
    ghost var first := state;
    var i := 0;
    assert file.pieces[0..] == file.pieces;
    while i < |file.pieces|
      invariant 0 <= i <= |file.pieces|
      invariant AbsorbAll(prim, state, file.pieces[i..]) == AbsorbAll(prim, first, file.pieces)
    {
      assert file.pieces[i..][1..] == file.pieces[i + 1..];
      state := prim.stepH(file.pieces[i], state);
      i := i + 1;
    }
    if file.readError { return Failure("file not found"); }
    return Success(Hex(prim.stepG(HID / 8, state)));
  }

  /** The C path and the Go path give the same digest of the same bytes, whatever the pieces fread
      returned and whatever the stack held. */
  lemma BothPathsAgree(prim: Primitive, stack: Bytes, pieces: seq<Bytes>)
    requires Sized(prim) && Streams(prim) && Forgets(prim) && |stack| == BLOCKSIZE
    ensures PiecewiseDigest(prim, stack, pieces) == OneShot(prim, HID, HASHSIZE, Flatten(pieces))
    ensures PiecewiseDigest(prim, stack, pieces) == Incremental(prim, HID, HASHSIZE, Flatten(pieces))
  {
    IncrementalIsOneShot(prim, HID, HASHSIZE, Flatten(pieces));
    PiecesAreOne(prim, stack, pieces);
    StackIsForgotten(prim, stack, Flatten(pieces));
    WholeDigest(prim, prim.stepH(Flatten(pieces), prim.start(Zeros(BLOCKSIZE), HID / 2)));
  }

  lemma PiecesAreOne(prim: Primitive, stack: Bytes, pieces: seq<Bytes>)
    requires Streams(prim)
    ensures PiecewiseDigest(prim, stack, pieces)
         == prim.stepG(HID / 8, prim.stepH(Flatten(pieces), prim.start(stack, HID / 2)))
  {
    AbsorbAllIsOne(prim, prim.start(stack, HID / 2), pieces);
  }

  lemma StackIsForgotten(prim: Primitive, stack: Bytes, message: Bytes)
    requires Forgets(prim) && |stack| == BLOCKSIZE
    ensures prim.stepG(HID / 8, prim.stepH(message, prim.start(stack, HID / 2)))
         == prim.stepG(HID / 8, prim.stepH(message, prim.start(Zeros(BLOCKSIZE), HID / 2)))
  {
  }

  lemma WholeDigest(prim: Primitive, state: Bytes)
    requires |prim.stepG(HID / 8, state)| == HID / 8
    ensures Digest(prim, HID, HASHSIZE, state) == prim.stepG(HID / 8, state)
  {
  }

  /* ---------- Hasher ---------- */

  /** A hash object of Go's standard library: the digest, any function, of what was written since it
      was reset. */
  class StdHash {
    const sum: Bytes -> Bytes
    var written: Bytes

    constructor (sum: Bytes -> Bytes)
      ensures this.sum == sum && written == []
    {
      this.sum, written := sum, [];
    }

    method Reset()
      modifies this
      ensures written == []
    {
      written := [];
    }

    method Write(p: Bytes) returns (n: nat)
      modifies this
      ensures written == old(written) + p && n == |p|
    {
      written, n := written + p, |p|;
    }

    method Sum(prefix: Bytes) returns (r: Bytes)
      ensures r == prefix + sum(written)
    {
      r := prefix + sum(written);
    }
  }

  /** A registered hash. Only bee2's has a way of its own to hash a file. */
  datatype HashObject = Own(bee2: Bee2) | Plain(std: StdHash)

  datatype Algorithm = Bash(prim: Primitive) | Standard(sum: Bytes -> Bytes)

  /** The laws that the C primitive is taken to obey. */
  ghost predicate Lawful(alg: Algorithm) {
    alg.Bash? ==> Sized(alg.prim) && Streams(alg.prim) && Forgets(alg.prim)
  }

  /** What a file holds, None where it cannot be opened or read. */
  function Content(file: File): Option<Bytes> {
    if file.Missing? || file.readError then None else Some(Flatten(file.pieces))
  }

  /** What HashFile returns for a file, given what the stack held. */
  function FileHashOf(alg: Algorithm, file: File, stack: Bytes): Option<string> {
    if Content(file).None? then None
    else
      match alg
      case Bash(prim) => Some(Hex(PiecewiseDigest(prim, stack, file.pieces)))
      case Standard(sum) => Some(Hex(sum(Flatten(file.pieces))))
  }

  /** The digest of some contents, absorbed at once. */
  function DigestOf(alg: Algorithm, content: Bytes): Bytes
    requires alg.Bash? ==> forall s, n :: |alg.prim.stepG(n, s)| == n
  {
    match alg
    case Bash(prim) => OneShot(prim, HID, HASHSIZE, content)
    case Standard(sum) => sum(content)
  }

  /** The hash of a file is that of its contents: how it was read and what the stack held play no part. */
  lemma HashIsOfContent(alg: Algorithm, file: File, stack: Bytes)
    requires Lawful(alg) && |stack| == BLOCKSIZE
    ensures FileHashOf(alg, file, stack)
         == match Content(file) case None => None case Some(content) => Some(Hex(DigestOf(alg, content)))
  {
    if Content(file).Some? && alg.Bash? {
      BothPathsAgree(alg.prim, stack, file.pieces);
    }
  }

  class Hasher {
    const h: HashObject

    ghost function Footprint(): set<object>
      reads this
    {
      match h
      case Own(b) => {b, b.state, b.data, b.hash}
      case Plain(d) => {d}
    }

    ghost predicate Valid()
      reads this, Footprint()
    {
      h.Own? ==> h.bee2.Valid()
    }

    function Alg(): Algorithm {
      match h
      case Own(b) => Bash(b.prim)
      case Plain(d) => Standard(d.sum)
    }

    constructor (h: HashObject)
      requires h.Own? ==> h.bee2.Valid()
      ensures Valid() && this.h == h
    {
      this.h := h;
    }

    /** The result depends on the data alone: not on what this hasher was used for before. None where
        bee2 was given a level or a size that does not fit its buffer. */
    method HashData(r: Bytes) returns (hash: Option<string>)
      requires Valid()
      modifies Footprint()
      ensures Valid() && (hash.None? <==> h.Own? && !h.bee2.Fits())
      ensures h.Own? && hash.Some? ==> hash.value == Hex(Incremental(h.bee2.prim, h.bee2.hid, h.bee2.hashSize, r))
      ensures h.Plain? ==> hash == Some(Hex(h.std.sum(r)))
    {
      match h {
        case Own(b) =>
          b.Reset();
          if r != [] { var n := b.Write(r); }
          var sum := b.Sum([]);
          assert sum.Some? ==> sum.value == Incremental(b.prim, b.hid, b.hashSize, r);
          return if sum.None? then None else Some(Hex(sum.value));
        case Plain(d) =>
          d.Reset();
          if r != [] { var n := d.Write(r); }
          assert d.written == r;
          var sum := d.Sum([]);
          assert sum == d.sum(r);
          return Some(Hex(sum));
      }
    }

    /** A hash with a way of its own to hash files uses it; for the others the file is read into memory. */
    method HashFile(file: File, stack: Bytes) returns (r: Result<string, string>)
      requires Valid() && |stack| == BLOCKSIZE
      modifies Footprint()
      ensures Valid()
      ensures match FileHashOf(Alg(), file, stack) case None => r.Failure? case Some(hash) => r == Success(hash)
    {
      if h.Own? {
        r := Bee2HashFile(h.bee2.prim, file, stack);
      } else {
        if file.Missing? || file.readError { return Failure("can not read from file"); }
        var hash := HashData(Flatten(file.pieces));
        r := Success(hash.value);
      }
    }
  }

  /** A worker's loop: one hasher for a series of files. Each gets the hash that a new hasher would give
      it, and those that cannot be read are skipped. */
  method HashSeries(hasher: Hasher, files: seq<File>, stacks: seq<Bytes>) returns (hashes: seq<Option<string>>)
    requires hasher.Valid() && |stacks| == |files| && forall i :: 0 <= i < |stacks| ==> |stacks[i]| == BLOCKSIZE
    modifies hasher.Footprint()
    ensures hasher.Valid() && |hashes| == |files|
    ensures forall i :: 0 <= i < |files| ==> hashes[i] == FileHashOf(hasher.Alg(), files[i], stacks[i])
  {
    hashes := [];
    for k := 0 to |files|
      invariant hasher.Valid() && |hashes| == k
      invariant forall i :: 0 <= i < k ==> hashes[i] == FileHashOf(hasher.Alg(), files[i], stacks[i])
    {
      var r := hasher.HashFile(files[k], stacks[k]);
      hashes := hashes + [if r.Success? then Some(r.value) else None];
    }
  }
}
