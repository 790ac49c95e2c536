/** The bee2 hash object: a fixed block buffer and a state around a C primitive, behind Go's
    hash.Hash interface. The primitive itself stays abstract. */
module Bee2 {
  import opened Wrappers

  type Byte = b: int | 0 <= b < 256

  type Bytes = seq<Byte>

  const HID: nat := 256
  const HASHSIZE: nat := 32
  const BLOCKSIZE: nat := 4096

  /** The C functions: what they leave in the buffer they are given. */
  datatype Primitive = Primitive(
    start: (Bytes, nat) -> Bytes,   // state buffer, level
    stepH: (Bytes, Bytes) -> Bytes, // data, state
    stepG: (nat, Bytes) -> Bytes)   // hash length, state

  /** The buffers keep their sizes. */
  ghost predicate Sized(p: Primitive) {
    && (forall s, level :: |s| == BLOCKSIZE ==> |p.start(s, level)| == BLOCKSIZE)
    && (forall s, data :: |s| == BLOCKSIZE ==> |p.stepH(data, s)| == BLOCKSIZE)
    && (forall s, n :: |p.stepG(n, s)| == n)
  }

  /** Absorbing in pieces is absorbing the whole. */
  ghost predicate Streams(p: Primitive) {
    && (forall s :: p.stepH([], s) == s)
    && (forall s, a, b :: p.stepH(b, p.stepH(a, s)) == p.stepH(a + b, s))
  }

  /** What the state buffer held before the start has no part in any digest. */
  ghost predicate Forgets(p: Primitive) {
    forall s, s', level, data, n :: |s| == BLOCKSIZE && |s'| == BLOCKSIZE ==>
      p.stepG(n, p.stepH(data, p.start(s, level))) == p.stepG(n, p.stepH(data, p.start(s', level)))
  }

  function Zeros(n: nat): Bytes {
    seq(n, _ => 0)
  }

  function Flatten(chunks: seq<Bytes>): Bytes {
    if chunks == [] then [] else chunks[0] + Flatten(chunks[1..])
  }

  /** The blocks that Write hands to the primitive, one after the other. */
  function Blocks(p: Bytes): seq<Bytes>
    decreases |p|
  {
    if p == [] then []
    else if |p| <= BLOCKSIZE then [p]
    else [p[..BLOCKSIZE]] + Blocks(p[BLOCKSIZE..])
  }

  function AbsorbAll(prim: Primitive, state: Bytes, chunks: seq<Bytes>): Bytes
    decreases |chunks|
  {
    if chunks == [] then state else AbsorbAll(prim, prim.stepH(chunks[0], state), chunks[1..])
  }

  /** The bytes Sum returns for a state: the digest, and zeros up to the buffer's size. */
  function Digest(prim: Primitive, hid: nat, hashSize: nat, state: Bytes): Bytes
    requires hid / 8 <= HASHSIZE && hashSize <= HASHSIZE
    requires |prim.stepG(hid / 8, state)| == hid / 8
  {
    var m := if hid / 8 <= hashSize then hid / 8 else hashSize;
    prim.stepG(hid / 8, state)[..m] + Zeros(HASHSIZE - m)
  }

  /** Laying the front of the primitive's output over a buffer that is zero behind it. */
  lemma DigestLaidOver(prim: Primitive, hid: nat, hashSize: nat, state: Bytes, was: Bytes)
    requires hid / 8 <= HASHSIZE && hashSize <= HASHSIZE && |was| == HASHSIZE
    requires |prim.stepG(hid / 8, state)| == hid / 8
    requires forall i :: 0 <= i < HASHSIZE && (hid / 8 <= i || hashSize <= i) ==> was[i] == 0
    ensures (prim.stepG(hid / 8, state) + was[hid / 8..])[..hashSize] + was[hashSize..]
         == Digest(prim, hid, hashSize, state)
    ensures forall i :: 0 <= i < HASHSIZE && (hid / 8 <= i || hashSize <= i) ==> Digest(prim, hid, hashSize, state)[i] == 0
  {
    var out := prim.stepG(hid / 8, state);
    var over := out + was[hid / 8..];
    var digest := Digest(prim, hid, hashSize, state);
    forall i | 0 <= i < HASHSIZE ensures (over[..hashSize] + was[hashSize..])[i] == digest[i] {
      if i < hid / 8 && i < hashSize {
        assert over[i] == out[i];
      } else if i < hashSize {
        assert over[i] == was[i];
      }
    }
  }

  /** Go's copy. */
  method CopyInto(dst: array<Byte>, src: Bytes) returns (n: nat)
    modifies dst
    ensures n == if |src| <= dst.Length then |src| else dst.Length
    ensures dst[..] == src[..n] + old(dst[..])[n..]
  {
    n := if |src| <= dst.Length then |src| else dst.Length;
    for i := 0 to n
      invariant forall j :: 0 <= j < i ==> dst[j] == src[j]
      invariant forall j :: i <= j < dst.Length ==> dst[j] == old(dst[j])
    {
      dst[i] := src[i];
    }
    assert dst[..n] == src[..n] && dst[n..] == old(dst[..])[n..];
    assert dst[..] == dst[..n] + dst[n..];
  }

  class Bee2 {
    const prim: Primitive
    const hid: nat
    const hashSize: nat
    const state: array<Byte>
    const hash: array<Byte>
    const data: array<Byte>
    var n: nat

    /** The C code writes hid / 8 bytes into, and hashSize bytes are read out of, a buffer of HASHSIZE
        bytes. A higher level or a longer hash does not fit. */
    predicate Fits() {
      hid / 8 <= HASHSIZE && hashSize <= HASHSIZE
    }

    /** What lies beyond both is never written. */
    ghost predicate Valid()
      reads this, hash
    {
      && Sized(prim)
      && state.Length == BLOCKSIZE && data.Length == BLOCKSIZE && hash.Length == HASHSIZE
      && state != hash && state != data && hash != data
      && n <= BLOCKSIZE
      && forall i :: 0 <= i < HASHSIZE && (hid / 8 <= i || hashSize <= i) ==> hash[i] == 0
    }

    constructor (prim: Primitive, hid: nat, hashSize: nat)
      requires Sized(prim)
      ensures Valid() && fresh(state) && fresh(hash) && fresh(data)
      ensures this.prim == prim && this.hid == hid && this.hashSize == hashSize
      ensures state[..] == prim.start(Zeros(BLOCKSIZE), hid / 2)
    {
      this.prim, this.hid, this.hashSize := prim, hid, hashSize;
      data := new Byte[BLOCKSIZE](_ => 0);
      hash := new Byte[HASHSIZE](_ => 0);
      state := new Byte[BLOCKSIZE](_ => 0);
      n := 0;
      new;
      assert state[..] == Zeros(BLOCKSIZE);
      BashHashStart();
    }

    method BashHashStart()
      requires Valid()
      modifies state
      ensures Valid() && state[..] == prim.start(old(state[..]), hid / 2)
    {
      var stateC := prim.start(state[..], hid / 2);
      var k := CopyInto(state, stateC);
    }

    method BashHashStepH()
      requires Valid()
      modifies state
      ensures Valid() && state[..] == prim.stepH(data[..n], old(state[..]))
    {
      var stateC := prim.stepH(data[..n], state[..]);
      var k := CopyInto(state, stateC);
    }

    /** Whether the digest fits; if not, the C code has left the buffer, and nothing is promised. */
    method BashHashStepG() returns (fits: bool)
      requires Valid()
      modifies hash
      ensures Valid() && fits == Fits()
      ensures fits ==> hash[..] == Digest(prim, hid, hashSize, state[..])
    {
      if hid / 8 > HASHSIZE || hashSize > HASHSIZE { return false; }
      // The primitive writes over the front of a copy of hash; hashSize bytes come back.
      ghost var was := hash[..];
      assert forall i :: 0 <= i < HASHSIZE && (hid / 8 <= i || hashSize <= i) ==> was[i] == 0;
      var hashC := prim.stepG(hid / 8, state[..]) + hash[hid / 8..];
      var k := CopyInto(hash, hashC[..hashSize]);
      DigestLaidOver(prim, hid, hashSize, state[..], was);
      assert hash[..] == hashC[..hashSize] + was[hashSize..];
      assert forall i :: 0 <= i < HASHSIZE ==> hash[i] == hash[..][i];
      return true;
    }

    /** io.Writer: every byte of `p`, in order, in blocks of at most BLOCKSIZE. */
    method Write(p: Bytes) returns (written: nat)
      requires Valid()
      modifies state, data, this`n
      ensures Valid() && written == |p|
      ensures state[..] == AbsorbAll(prim, old(state[..]), Blocks(p))
    {
      var takeFrom, takeTo := 0, BLOCKSIZE;
      assert p[0..] == p;
      while takeFrom < |p|
        invariant 0 <= takeFrom <= |p| && takeTo == takeFrom + BLOCKSIZE && Valid()
        invariant AbsorbAll(prim, state[..], Blocks(p[takeFrom..])) == AbsorbAll(prim, old(state[..]), Blocks(p))
      {
        ghost var rest := p[takeFrom..];
        if takeTo > |p| { takeTo := |p|; }
        n := CopyInto(data, p[takeFrom..takeTo]);
        assert data[..n] == Blocks(rest)[0] && p[takeFrom + n..] == rest[n..];
        assert Blocks(rest)[1..] == Blocks(rest[n..]);
        takeFrom := takeFrom + n;
        takeTo := takeFrom + BLOCKSIZE;
        BashHashStepH();
      }
      written := takeFrom;
    }

    /** The digest of what was written so far, appended to `prefix`; writing can go on after it as
        if it had not been asked for. None where it does not fit. */
    method Sum(prefix: Bytes) returns (r: Option<Bytes>)
      requires Valid()
      modifies hash
      ensures Valid() && (r.Some? <==> Fits())
      ensures r.Some? ==> r.value == prefix + Digest(prim, hid, hashSize, state[..])
    {
      var fits := BashHashStepG();
      return if fits then Some(prefix + hash[..]) else None;
    }

    /** Back to the state of a fresh object, whatever was written or asked for before. */
    method Reset()
      requires Valid()
      modifies state, hash
      ensures Valid() && state[..] == prim.start(Zeros(BLOCKSIZE), hid / 2) && hash[..] == Zeros(HASHSIZE)
    {
      var k := CopyInto(hash, Zeros(HASHSIZE));
      k := CopyInto(state, Zeros(BLOCKSIZE));
      assert forall i :: 0 <= i < HASHSIZE ==> hash[..][i] == 0;
      assert state[..] == Zeros(BLOCKSIZE);
      BashHashStart();
    }
  }

  /** What the primitive puts out fits the buffer exactly up to level 256, in steps of 32; at the highest
      level that it knows, 512, it is twice as much. */
  lemma LevelFits(prim: Primitive, hid: nat, state: Bytes)
    requires Sized(prim) && hid % 32 == 0
    ensures |prim.stepG(hid / 8, state)| <= HASHSIZE <==> hid <= 256
    ensures hid == 512 ==> |prim.stepG(hid / 8, state)| == 2 * HASHSIZE
  {
  }

  /* ---------- One-shot hashing ---------- */

  /** The digest of a message absorbed in one piece by a fresh object. */
  function OneShot(prim: Primitive, hid: nat, hashSize: nat, message: Bytes): Bytes
    requires hid / 8 <= HASHSIZE && hashSize <= HASHSIZE
    requires forall s, n :: |prim.stepG(n, s)| == n
  {
    Digest(prim, hid, hashSize, prim.stepH(message, prim.start(Zeros(BLOCKSIZE), hid / 2)))
  }

  /** The blocks of a message are the message, all of 4096 bytes but the last, which is not empty. */
  lemma {:induction false} BlocksPartition(p: Bytes)
    ensures Flatten(Blocks(p)) == p
    ensures forall b :: b in Blocks(p) ==> 0 < |b| <= 4096
    ensures forall i :: 0 <= i < |Blocks(p)| - 1 ==> |Blocks(p)[i]| == 4096
    decreases |p|
  {
    if |p| > BLOCKSIZE {
      var head, tail := p[..BLOCKSIZE], p[BLOCKSIZE..];
      BlocksPartition(tail);
      assert ([head] + Blocks(tail))[1..] == Blocks(tail);
      assert Blocks(p) == [head] + Blocks(tail) && p == head + tail;
    } else if p != [] {
      assert [p][1..] == [] && Flatten([p]) == p + Flatten([]);
    }
  }

  /** Absorbing chunk after chunk is absorbing their concatenation at once. */
  lemma {:induction false} AbsorbAllIsOne(prim: Primitive, state: Bytes, chunks: seq<Bytes>)
    requires Streams(prim)
    ensures AbsorbAll(prim, state, chunks) == prim.stepH(Flatten(chunks), state)
    decreases |chunks|
  {
    if chunks != [] {
      AbsorbAllIsOne(prim, prim.stepH(chunks[0], state), chunks[1..]);
    }
  }

  /** The default object: level 128, a zero state of 4096 bytes, a digest of 32 bytes. */
  lemma DefaultDigest(prim: Primitive, message: Bytes)
    requires Sized(prim)
    ensures OneShot(prim, HID, HASHSIZE, message)
         == prim.stepG(32, prim.stepH(message, prim.start(Zeros(4096), 128)))
  {
  }

  /** What the Go object computes for a message written in one call. */
  function Incremental(prim: Primitive, hid: nat, hashSize: nat, message: Bytes): Bytes
    requires hid / 8 <= HASHSIZE && hashSize <= HASHSIZE
    requires forall s, n :: |prim.stepG(n, s)| == n
  {
    Digest(prim, hid, hashSize, AbsorbAll(prim, prim.start(Zeros(BLOCKSIZE), hid / 2), Blocks(message)))
  }

  /** The block loop computes the one-shot digest. */
  lemma IncrementalIsOneShot(prim: Primitive, hid: nat, hashSize: nat, message: Bytes)
    requires hid / 8 <= HASHSIZE && hashSize <= HASHSIZE && Sized(prim) && Streams(prim)
    ensures Incremental(prim, hid, hashSize, message) == OneShot(prim, hid, hashSize, message)
  {
    AbsorbAllIsOne(prim, prim.start(Zeros(BLOCKSIZE), hid / 2), Blocks(message));
    BlocksPartition(message);
  }

  /** The state after a series of Writes. */
  function WriteAll(prim: Primitive, state: Bytes, writes: seq<Bytes>): Bytes
    decreases |writes|
  {
    if writes == [] then state
    else WriteAll(prim, AbsorbAll(prim, state, Blocks(writes[0])), writes[1..])
  }

  /** However a message is divided into Writes, and each Write into blocks, the state is that of
      the whole message absorbed at once. */
  lemma {:induction false} AnyDivision(prim: Primitive, state: Bytes, writes: seq<Bytes>)
    requires Streams(prim)
    ensures WriteAll(prim, state, writes) == prim.stepH(Flatten(writes), state)
    decreases |writes|
  {
    if writes != [] {
      AbsorbAllIsOne(prim, state, Blocks(writes[0]));
      BlocksPartition(writes[0]);
      AnyDivision(prim, prim.stepH(writes[0], state), writes[1..]);
    }
  }
}
