/** The snapshot tool: hash a directory with the pool, drain it, and write what came out. */
module HashDir {
  import opened Bags
  import opened GoStrings
  import opened Pipeline
  import opened SnapshotText
  import opened Wrappers

  /* ---------- Paths relative to a prefix ---------- */

  function Strip(prefix: string, item: FileHash): FileHash {
    item.(path := TrimPrefix(item.path, prefix))
  }

  function Stripped(prefix: string, items: seq<FileHash>): seq<FileHash> {
    seq(|items|, i requires 0 <= i < |items| => Strip(prefix, items[i]))
  }

  lemma StrippedConcat(prefix: string, a: seq<FileHash>, b: seq<FileHash>)
    ensures Stripped(prefix, a + b) == Stripped(prefix, a) + Stripped(prefix, b)
  {
  }

  /** Stripping looks at each item alone: a part of a bag stays a part of it. */
  lemma {:induction false} StrippedBag(prefix: string, a: seq<FileHash>, b: seq<FileHash>)
    requires multiset(a) <= multiset(b)
    ensures multiset(Stripped(prefix, a)) <= multiset(Stripped(prefix, b))
    decreases |a|
  {
    if a != [] {
      var x, rest := a[0], a[1..];
      assert a == [x] + rest;
      assert x in multiset(a) && x in b;
      var before, after := Pick(b, x);
      LessOne(a, x, rest, b, before, after);
      StrippedBag(prefix, rest, before + after);
      StrippedConcat(prefix, [x], rest);
      StrippedConcat(prefix, before, after);
      StrippedConcat(prefix, before + [x], after);
      StrippedConcat(prefix, before, [x]);
    }
  }

  /* ---------- Every schedule ends ---------- */

  /** No run is longer than the rank it starts with. */
  lemma {:induction false} RunsAreShort(job: Job, roots: seq<seq<Entry>>, p: Pipe, acts: seq<Act>)
    requires Inv(job, roots, p) && Legal(job, p, acts)
    ensures |acts| + Rank(Exec(job, p, acts)) <= Rank(p)
    decreases |acts|
  {
    if acts != [] {
      StepInv(job, roots, p, acts[0]);
      StepRank(job, p, acts[0]);
      RunsAreShort(job, roots, Step(job, p, acts[0]), acts[1..]);
    }
  }

  /** Only the canceller can go on. */
  ghost predicate IsStuck(job: Job, p: Pipe) {
    forall a :: Enabled(job, p, a) ==> a.Cancel?
  }

  /** A run in which nobody but the canceller can go on is over: the names are closed, every worker
      has returned, the hashes are closed and received. There is no deadlock and nobody is left
      behind, whether and whenever the context is cancelled. */
  lemma StuckMeansFinished(job: Job, roots: seq<seq<Entry>>, acts: seq<Act>)
    requires job.countWorkers >= 1 && Legal(job, Init(job, roots), acts)
    requires IsStuck(job, Exec(job, Init(job, roots), acts))
    ensures Finished(Exec(job, Init(job, roots), acts))
    ensures |acts| <= Rank(Init(job, roots))
  {
    InitInv(job, roots);
    RunInv(job, roots, Init(job, roots), acts);
    RunsAreShort(job, roots, Init(job, roots), acts);
    StuckIsFinished(job, Exec(job, Init(job, roots), acts));
  }

  lemma StuckIsFinished(job: Job, p: Pipe)
    requires job.countWorkers >= 1 && Channels(job, p)
    requires IsStuck(job, p)
    ensures Finished(p)
  {
    assert !Enabled(job, p, Pop);
    if !Finished(p) {
      var a := CanMove(job, p);
    }
  }

  /** Without workers, no name is ever handed over. */
  lemma {:induction false} NobodyTakesNames(job: Job, p: Pipe, acts: seq<Act>)
    requires p.workers == [] && Legal(job, p, acts)
    ensures Exec(job, p, acts).workers == [] && Exec(job, p, acts).handed == p.handed
    decreases |acts|
  {
    if acts != [] {
      NobodyTakesNames(job, Step(job, p, acts[0]), acts[1..]);
    }
  }

  /** Any run can be gone on with until it is stuck. */
  lemma {:induction false} GoesOn(job: Job, roots: seq<seq<Entry>>, p: Pipe) returns (acts: seq<Act>)
    requires Inv(job, roots, p)
    ensures Legal(job, p, acts) && IsStuck(job, Exec(job, p, acts)) && Cancel !in acts
    decreases Rank(p)
  {
    acts := [];
    if a :| Enabled(job, p, a) && !a.Cancel? {
      NextStep(job, roots, p, a);
      var rest := GoesOn(job, roots, Step(job, p, a));
      FirstAct(job, p, a, rest);
      acts := [a] + rest;
    }
  }

  lemma FirstAct(job: Job, p: Pipe, a: Act, rest: seq<Act>)
    requires Enabled(job, p, a) && Legal(job, Step(job, p, a), rest)
    ensures Legal(job, p, [a] + rest) && Exec(job, p, [a] + rest) == Exec(job, Step(job, p, a), rest)
  {
    assert ([a] + rest)[1..] == rest;
  }

  lemma NextStep(job: Job, roots: seq<seq<Entry>>, p: Pipe, a: Act)
    requires Inv(job, roots, p) && Enabled(job, p, a)
    ensures Inv(job, roots, Step(job, p, a)) && Rank(Step(job, p, a)) < Rank(p)
  {
    StepInv(job, roots, p, a);
    StepRank(job, p, a);
  }

  /** Without workers and with a file to hand over, the names are never closed, unless cancelled. */
  lemma NamesStayOpen(job: Job, roots: seq<seq<Entry>>, acts: seq<Act>)
    requires job.countWorkers == 0 && Files(roots) != [] && Legal(job, Init(job, roots), acts) && Cancel !in acts
    ensures !Exec(job, Init(job, roots), acts).namesClosed
  {
    InitInv(job, roots);
    RunInv(job, roots, Init(job, roots), acts);
    RunCancelled(job, Init(job, roots), acts);
    NobodyTakesNames(job, Init(job, roots), acts);
    assert [] + Files(Exec(job, Init(job, roots), acts).todo) == Files(roots);
  }

  /** With no file to come, a walker that cannot go on has closed the names. */
  lemma WalkerIsThrough(job: Job, p: Pipe)
    requires Files(p.todo) == [] && IsStuck(job, p)
    ensures p.todo == [] && p.namesClosed
  {
    if Head(p).Some? && Head(p).value.Regular? {
      AdvancedFiles(p);
    }
    assert !Enabled(job, p, NextRoot) && !Enabled(job, p, Skip) && !Enabled(job, p, GiveUp) && !Enabled(job, p, CloseNames);
  }

  lemma NothingToCome(job: Job, roots: seq<seq<Entry>>, p: Pipe)
    requires job.countWorkers == 0 && Files(roots) == [] && Inv(job, roots, p) && !p.cancelled
    ensures Files(p.todo) == [] && p.workers == [] && p.wg == 0 && p.queue == []
  {
    assert |p.handed + Files(p.todo)| == 0;
  }

  /** A run that goes on, uncancelled, until only the canceller could. */
  ghost predicate Ends(job: Job, roots: seq<seq<Entry>>, acts: seq<Act>) {
    Legal(job, Init(job, roots), acts) && Cancel !in acts && IsStuck(job, Exec(job, Init(job, roots), acts))
  }

  /** Every run that is not cancelled ends with everyone done and everything received, if and only if there
      is a worker or no file to hash: without workers, the walker waits for ever on the first file. */
  lemma FinishesExactly(job: Job, roots: seq<seq<Entry>>)
    ensures (forall acts :: Ends(job, roots, acts) ==> Finished(Exec(job, Init(job, roots), acts)))
       <==> job.countWorkers >= 1 || Files(roots) == []
  {
    if job.countWorkers == 0 && Files(roots) != [] {
      InitInv(job, roots);
      var acts := GoesOn(job, roots, Init(job, roots));
      NamesStayOpen(job, roots, acts);
      assert Ends(job, roots, acts);
    } else {
      forall acts | Ends(job, roots, acts) ensures Finished(Exec(job, Init(job, roots), acts)) {
        EndsFinished(job, roots, acts);
      }
    }
  }

  lemma EndsFinished(job: Job, roots: seq<seq<Entry>>, acts: seq<Act>)
    requires job.countWorkers >= 1 || Files(roots) == []
    requires Ends(job, roots, acts)
    ensures Finished(Exec(job, Init(job, roots), acts))
  {
    if job.countWorkers >= 1 {
      StuckMeansFinished(job, roots, acts);
    } else {
      var p := Exec(job, Init(job, roots), acts);
      InitInv(job, roots);
      RunInv(job, roots, Init(job, roots), acts);
      RunCancelled(job, Init(job, roots), acts);
      NothingToCome(job, roots, p);
      WalkerIsThrough(job, p);
      assert !Enabled(job, p, CloseHashes);
    }
  }

  /* ---------- HashDir ---------- */

  function Acts(n: nat): set<Act> {
    {NextRoot, Skip, GiveUp, StopRoot, CloseNames, CloseHashes, Pop, Cancel}
    + (set i | 0 <= i < n :: HandOver(i)) + (set i | 0 <= i < n :: HashFile(i))
    + (set i | 0 <= i < n :: Push(i)) + (set i | 0 <= i < n :: Leave(i))
  }

  lemma ActsAreAll(job: Job, p: Pipe, a: Act)
    requires Enabled(job, p, a)
    ensures a in Acts(|p.workers|)
  {
  }

  /** The hashes of a directory tree, in the order in which they happen to arrive. The scheduler picks
      any step that can be taken, and the timeout is one of them. */
  method HashDir(job: Job, rootPath: string, entries: seq<Entry>)
    returns (hashes: seq<FileHash>, timedOut: bool)
    requires job.countWorkers >= 1
    ensures !timedOut ==> HashesAll(job, rootPath, entries, hashes)
    ensures HashesSome(job, rootPath, entries, hashes)
  {
    hashes, timedOut := [], false;
    var p := Init(job, [entries]);
    InitInv(job, [entries]);
    while !Finished(p)
      invariant Inv(job, [entries], p)
      invariant hashes == Stripped(rootPath, p.delivered) && timedOut == p.cancelled
      decreases Rank(p)
    {
      SomeMove(job, [entries], p);
      var a :| a in Acts(|p.workers|) && Enabled(job, p, a);
      if a.Pop? {
        var v := p.queue[0];
        v := v.(path := TrimPrefix(v.path, rootPath));
        hashes := hashes + [v];
      }
      Drained(job, [entries], rootPath, p, a);
      p := Step(job, p, a);
      timedOut := timedOut || a.Cancel?;
    }
    DrainedAll(job, entries, rootPath, p);
  }

  lemma SomeMove(job: Job, roots: seq<seq<Entry>>, p: Pipe)
    requires Inv(job, roots, p) && job.countWorkers >= 1 && !Finished(p)
    ensures exists a :: a in Acts(|p.workers|) && Enabled(job, p, a)
  {
    var a := Pop;
    if p.queue == [] {
      a := CanMove(job, p);
    }
    ActsAreAll(job, p, a);
  }

  /** What the consumer receives in a step. */
  function Received(rootPath: string, p: Pipe, a: Act): seq<FileHash> {
    if a.Pop? && p.queue != [] then [Strip(rootPath, p.queue[0])] else []
  }

  /** One step, as the consumer sees it. */
  ghost predicate Advanced(job: Job, roots: seq<seq<Entry>>, rootPath: string, p: Pipe, a: Act, p': Pipe) {
    && Inv(job, roots, p') && Rank(p') < Rank(p) && p'.cancelled == (p.cancelled || a.Cancel?)
    && Stripped(rootPath, p'.delivered) == Stripped(rootPath, p.delivered) + Received(rootPath, p, a)
  }

  lemma Drained(job: Job, roots: seq<seq<Entry>>, rootPath: string, p: Pipe, a: Act)
    requires Inv(job, roots, p) && Enabled(job, p, a)
    ensures Advanced(job, roots, rootPath, p, a, Step(job, p, a))
  {
    StepInv(job, roots, p, a);
    StepRank(job, p, a);
    DrainedItem(job, rootPath, p, a);
  }

  lemma DrainedItem(job: Job, rootPath: string, p: Pipe, a: Act)
    requires Enabled(job, p, a)
    ensures var p' := Step(job, p, a);
      && p'.cancelled == (p.cancelled || a.Cancel?)
      && Stripped(rootPath, p'.delivered)
      == Stripped(rootPath, p.delivered) + Received(rootPath, p, a)
  {
    if a.Pop? {
      StrippedConcat(rootPath, p.delivered, [p.queue[0]]);
      assert Stripped(rootPath, [p.queue[0]]) == [Strip(rootPath, p.queue[0])];
    } else {
      assert Step(job, p, a).delivered == p.delivered;
    }
  }

  lemma DrainedAll(job: Job, entries: seq<Entry>, rootPath: string, p: Pipe)
    requires Inv(job, [entries], p) && Finished(p) && job.countWorkers >= 1
    ensures var hashes := Stripped(rootPath, p.delivered);
      && (!p.cancelled ==> HashesAll(job, rootPath, entries, hashes))
      && HashesSome(job, rootPath, entries, hashes)
  {
    FinishedDelivers(job, [entries], p);
    StrippedBag(rootPath, p.delivered, Hashed(job.hash, p.handed));
    if !p.cancelled {
      StrippedBag(rootPath, p.delivered, Hashed(job.hash, Files([entries])));
      StrippedBag(rootPath, Hashed(job.hash, Files([entries])), p.delivered);
    }
  }

  /** One hash for every file that can be hashed, in some order. */
  ghost predicate HashesAll(job: Job, rootPath: string, entries: seq<Entry>, hashes: seq<FileHash>) {
    multiset(hashes) == multiset(Stripped(rootPath, Hashed(job.hash, Files([entries]))))
  }

  /** Hashes of some of the files, no more than once each. */
  ghost predicate HashesSome(job: Job, rootPath: string, entries: seq<Entry>, hashes: seq<FileHash>) {
    exists paths ::
      && multiset(paths) <= multiset(Files([entries]))
      && multiset(hashes) <= multiset(Stripped(rootPath, Hashed(job.hash, paths)))
  }

  /* ---------- CalculateAndWriteHashes ---------- */

  /** A directory to take a snapshot of, as the file system shows it. */
  datatype Listing = NotThere | Listed(entries: seq<Entry>)

  /** What is to be recorded of one directory. */
  function DirHashes(job: Job, rootPath: string, dir: Listing): seq<FileHash> {
    if dir.NotThere? then [] else Stripped(rootPath, Hashed(job.hash, Files([dir.entries])))
  }

  /** Everything to be recorded of the first `n` directories. */
  function AllHashes(job: Job, rootPath: string, dirs: seq<Listing>, n: nat): seq<FileHash>
    requires n <= |dirs|
  {
    if n == 0 then [] else AllHashes(job, rootPath, dirs, n - 1) + DirHashes(job, rootPath, dirs[n - 1])
  }

  datatype SnapshotError = CannotCreate | DirNotExist | WriteFailed

  /** The snapshot file, or an error and no file. `created` says whether the file can be created, `room`
      how much can be written to it. Unless a scan timed out, the file holds a line for every file that
      could be hashed, each once, in some order; otherwise lines for some of them. */
  method CalculateAndWriteHashes(job: Job, rootFs: string, dirs: seq<Listing>, created: bool, room: nat)
    returns (file: Result<string, SnapshotError>, timedOut: bool)
    requires job.countWorkers >= 1
    ensures !created ==> file == Failure(CannotCreate)
    ensures created && !AllListed(dirs) ==> file == Failure(DirNotExist)
    ensures created && AllListed(dirs) ==> EndsWith(job, rootFs + "/", dirs, room, file, timedOut)
  {
    timedOut := false;
    if !created { return Failure(CannotCreate), timedOut; }
    var rootPath := rootFs + "/";
    var n, hashes;
    n, hashes, timedOut := CalculateHashes(job, rootPath, dirs);
    NoneMissing(dirs, 0);
    if n < |dirs| { return Failure(DirNotExist), timedOut; }
    var text, ok := WriteAsPlainText(hashes, room);
    file := if ok then Success(text) else Failure(WriteFailed);
    HasEnded(job, rootPath, dirs, hashes, room, file, timedOut);
  }

  /** The first missing directory from `n` on, or the number of directories. */
  function FirstMissing(dirs: seq<Listing>, n: nat): nat
    requires n <= |dirs|
    decreases |dirs| - n
  {
    if n == |dirs| || dirs[n].NotThere? then n else FirstMissing(dirs, n + 1)
  }

  lemma {:induction false} NoneMissing(dirs: seq<Listing>, n: nat)
    requires n <= |dirs|
    ensures FirstMissing(dirs, n) == |dirs| <==> forall i :: n <= i < |dirs| ==> dirs[i].Listed?
    decreases |dirs| - n
  {
    if n < |dirs| && dirs[n].Listed? {
      NoneMissing(dirs, n + 1);
    }
  }

  /** The loop over the directories. It stops at the first that is missing. */
  method CalculateHashes(job: Job, rootPath: string, dirs: seq<Listing>)
    returns (n: nat, hashes: seq<FileHash>, timedOut: bool)
    requires job.countWorkers >= 1
    ensures n <= |dirs| && (n < |dirs| ==> dirs[n].NotThere?)
    ensures Upto(job, rootPath, dirs, n, hashes, timedOut)
  {
    ghost var all: seq<FileHash> := [];
    n, hashes, timedOut := 0, [], false;
    while n < |dirs| && dirs[n].Listed?
      invariant n <= |dirs| && FirstMissing(dirs, n) == FirstMissing(dirs, 0)
      invariant all == AllHashes(job, rootPath, dirs, n) && PartOf(hashes, all, timedOut)
    {
      var found, late := HashDir(job, rootPath, dirs[n].entries);
      NextDir(job, rootPath, dirs[n], hashes, all, found, timedOut, late);
      all, hashes := all + DirHashes(job, rootPath, dirs[n]), hashes + found;
      n, timedOut := n + 1, timedOut || late;
    }
  }

  /** The loop has been through the first `n` directories. */
  ghost predicate Upto(job: Job, rootPath: string, dirs: seq<Listing>, n: nat, hashes: seq<FileHash>, timedOut: bool)
    requires n <= |dirs|
  {
    FirstMissing(dirs, n) == FirstMissing(dirs, 0) && Collected(job, rootPath, dirs, n, hashes, timedOut)
  }

  /** The records are written, if there is room for them. */
  ghost predicate EndsWith(job: Job, rootPath: string, dirs: seq<Listing>, room: nat,
                           file: Result<string, SnapshotError>, timedOut: bool) {
    exists text ::
      && IsWritten(job, rootPath, dirs, text, timedOut)
      && file == if |text| <= room then Success(text) else Failure(WriteFailed)
  }

  lemma HasEnded(job: Job, rootPath: string, dirs: seq<Listing>, hashes: seq<FileHash>, room: nat,
                 file: Result<string, SnapshotError>, timedOut: bool)
    requires Collected(job, rootPath, dirs, |dirs|, hashes, timedOut)
    requires file == if |Print(hashes)| <= room then Success(Print(hashes)) else Failure(WriteFailed)
    ensures EndsWith(job, rootPath, dirs, room, file, timedOut)
  {
    assert IsWritten(job, rootPath, dirs, Print(hashes), timedOut);
  }

  predicate AllListed(dirs: seq<Listing>) {
    forall i :: 0 <= i < |dirs| ==> dirs[i].Listed?
  }

  /** One record for every file that could be hashed, in some order. */
  ghost predicate Covers(job: Job, rootPath: string, dirs: seq<Listing>, hashes: seq<FileHash>) {
    multiset(hashes) == multiset(AllHashes(job, rootPath, dirs, |dirs|))
  }

  /** The records found in the first `n` directories: all, or a part of them after a timeout. */
  ghost predicate Collected(job: Job, rootPath: string, dirs: seq<Listing>, n: nat, hashes: seq<FileHash>, timedOut: bool)
    requires n <= |dirs|
  {
    PartOf(hashes, AllHashes(job, rootPath, dirs, n), timedOut)
  }

  ghost predicate PartOf(hashes: seq<FileHash>, all: seq<FileHash>, timedOut: bool) {
    multiset(hashes) <= multiset(all) && (!timedOut ==> multiset(hashes) == multiset(all))
  }

  /** What may be written: lines for all files that could be hashed, or for a part of them. */
  ghost predicate IsWritten(job: Job, rootPath: string, dirs: seq<Listing>, text: string, timedOut: bool) {
    exists written :: Collected(job, rootPath, dirs, |dirs|, written, timedOut) && text == Print(written)
  }

  /** A file that records every file that could be hashed, each on one line. */
  ghost predicate IsSnapshot(job: Job, rootPath: string, dirs: seq<Listing>, text: string) {
    exists written :: Covers(job, rootPath, dirs, written) && text == Print(written)
  }

  /** Without a timeout, what is written is a snapshot. */
  lemma WrittenIsSnapshot(job: Job, rootPath: string, dirs: seq<Listing>, text: string)
    ensures IsWritten(job, rootPath, dirs, text, false) <==> IsSnapshot(job, rootPath, dirs, text)
  {
    if IsWritten(job, rootPath, dirs, text, false) {
      var written :| Collected(job, rootPath, dirs, |dirs|, written, false) && text == Print(written);
      assert Covers(job, rootPath, dirs, written);
    }
    if IsSnapshot(job, rootPath, dirs, text) {
      var written :| Covers(job, rootPath, dirs, written) && text == Print(written);
      assert Collected(job, rootPath, dirs, |dirs|, written, false);
    }
  }

  lemma NextDir(job: Job, rootPath: string, dir: Listing, hashes: seq<FileHash>, all: seq<FileHash>,
                found: seq<FileHash>, timedOut: bool, late: bool)
    requires dir.Listed? && PartOf(hashes, all, timedOut) && HashesSome(job, rootPath, dir.entries, found)
    requires !late ==> HashesAll(job, rootPath, dir.entries, found)
    ensures PartOf(hashes + found, all + DirHashes(job, rootPath, dir), timedOut || late)
  {
    SomeOfAll(job, rootPath, dir.entries, found);
    BothParts(hashes, all, found, DirHashes(job, rootPath, dir));
  }

  lemma BothParts(a: seq<FileHash>, all: seq<FileHash>, b: seq<FileHash>, more: seq<FileHash>)
    requires multiset(a) <= multiset(all) && multiset(b) <= multiset(more)
    ensures multiset(a + b) <= multiset(all + more)
    ensures multiset(a) == multiset(all) && multiset(b) == multiset(more) ==> multiset(a + b) == multiset(all + more)
  {
    assert multiset(a + b) == multiset(a) + multiset(b) && multiset(all + more) == multiset(all) + multiset(more);
  }

  lemma SomeOfAll(job: Job, rootPath: string, entries: seq<Entry>, hashes: seq<FileHash>)
    requires HashesSome(job, rootPath, entries, hashes)
    ensures multiset(hashes) <= multiset(Stripped(rootPath, Hashed(job.hash, Files([entries]))))
  {
    var paths :| multiset(paths) <= multiset(Files([entries]))
      && multiset(hashes) <= multiset(Stripped(rootPath, Hashed(job.hash, paths)));
    HashedBag(job.hash, paths, Files([entries]));
    StrippedBag(rootPath, Hashed(job.hash, paths), Hashed(job.hash, Files([entries])));
  }
}
