/** The walker, the pool of workers and the closer, as goroutines that take turns: the names go over
    an unbuffered channel, the hashes over one that holds as many items as there are workers. */
module Pipeline {
  import opened Bags
  import opened SnapshotText
  import opened Wrappers

  /** What filepath.WalkDir calls back with: a regular file, something else, or an error. */
  datatype Entry = Regular(path: string) | Other(path: string) | Broken

  /** `hash` is the digest of the file at a path, None where it cannot be read. */
  datatype Job = Job(countWorkers: nat, hash: string -> Option<string>)

  datatype Worker = Waiting | Holding(path: string) | Sending(item: FileHash) | Returned

  /** `todo` is what the walker has still to visit, root by root; `wg` the WaitGroup's counter;
      `queue` what hashC holds. The last three fields are history. */
  datatype Pipe = Pipe(
    todo: seq<seq<Entry>>,
    namesClosed: bool,
    workers: seq<Worker>,
    wg: nat,
    queue: seq<FileHash>,
    hashClosed: bool,
    cancelled: bool,
    panicked: bool,
    handed: seq<string>,
    dropped: seq<string>,
    delivered: seq<FileHash>)

  function Init(job: Job, roots: seq<seq<Entry>>): Pipe {
    Pipe(roots, false, seq(job.countWorkers, _ => Waiting), job.countWorkers, [], false, false, false, [], [], [])
  }

  datatype Act =
    | NextRoot           // the walk of a root is over
    | Skip               // not a regular file
    | GiveUp             // the callback returned an error: the rest of this root is left out
    | StopRoot           // the callback saw the cancellation instead of sending
    | HandOver(i: nat)   // the walker sends a name and worker i receives it
    | CloseNames
    | HashFile(i: nat)   // worker i looks at the context, then hashes its file
    | Push(i: nat)       // worker i sends its result
    | Leave(i: nat)      // worker i finds the names closed
    | CloseHashes        // the closer has waited for all workers
    | Pop                // the consumer receives
    | Cancel

  function Head(p: Pipe): Option<Entry> {
    if p.todo != [] && p.todo[0] != [] then Some(p.todo[0][0]) else None
  }

  predicate Enabled(job: Job, p: Pipe, a: Act) {
    match a
    case NextRoot => p.todo != [] && p.todo[0] == []
    case Skip => Head(p).Some? && Head(p).value.Other?
    case GiveUp => Head(p).Some? && Head(p).value.Broken?
    case StopRoot => Head(p).Some? && Head(p).value.Regular? && p.cancelled
    case HandOver(i) => Head(p).Some? && Head(p).value.Regular? && i < |p.workers| && p.workers[i].Waiting?
    case CloseNames => p.todo == [] && !p.namesClosed
    case HashFile(i) => i < |p.workers| && p.workers[i].Holding?
    case Push(i) => i < |p.workers| && p.workers[i].Sending? && (p.hashClosed || |p.queue| < job.countWorkers)
    case Leave(i) => i < |p.workers| && p.workers[i].Waiting? && p.namesClosed
    case CloseHashes => p.wg == 0 && !p.hashClosed
    case Pop => p.queue != []
    case Cancel => !p.cancelled
  }

  function Advance(p: Pipe): seq<seq<Entry>>
    requires Head(p).Some?
  {
    [p.todo[0][1..]] + p.todo[1..]
  }

  /** A file that cannot be hashed is skipped. */
  function Result(path: string, hash: Option<string>): Worker {
    if hash.None? then Waiting else Sending(FileHash(path, hash.value))
  }

  /** A worker function that returns calls wg.Done. */
  function Return(p: Pipe, i: nat): Pipe
    requires i < |p.workers|
  {
    p.(workers := p.workers[i := Returned], wg := if p.wg > 0 then p.wg - 1 else 0)
  }

  function Step(job: Job, p: Pipe, a: Act): Pipe
    requires Enabled(job, p, a)
  {
    match a
    case NextRoot => p.(todo := p.todo[1..])
    case Skip => p.(todo := Advance(p))
    case GiveUp => p.(todo := p.todo[1..])
    case StopRoot => p.(todo := p.todo[1..])
    case HandOver(i) =>
      var path := Head(p).value.path;
      p.(todo := Advance(p), workers := p.workers[i := Holding(path)], handed := p.handed + [path])
    case CloseNames => p.(namesClosed := true)
    case HashFile(i) =>
      var path := p.workers[i].path;
      if p.cancelled then Return(p, i).(dropped := p.dropped + [path])
      else p.(workers := p.workers[i := Result(path, job.hash(path))])
    case Push(i) =>
      if p.hashClosed then p.(panicked := true)
      else p.(workers := p.workers[i := Waiting], queue := p.queue + [p.workers[i].item])
    case Leave(i) => Return(p, i)
    case CloseHashes => p.(hashClosed := true)
    case Pop => p.(queue := p.queue[1..], delivered := p.delivered + [p.queue[0]])
    case Cancel => p.(cancelled := true)
  }

  /* ---------- What there is to be walked and hashed ---------- */

  /** The regular files of a root, up to an error. */
  function RootFiles(entries: seq<Entry>): seq<string> {
    if entries == [] || entries[0].Broken? then []
    else (if entries[0].Regular? then [entries[0].path] else []) + RootFiles(entries[1..])
  }

  function Files(roots: seq<seq<Entry>>): seq<string> {
    if roots == [] then [] else RootFiles(roots[0]) + Files(roots[1..])
  }

  /** The hashes of the paths that can be hashed. */
  function Hashed(hash: string -> Option<string>, paths: seq<string>): seq<FileHash> {
    if paths == [] then []
    else (match hash(paths[0])
          case None => []
          case Some(h) => [FileHash(paths[0], h)])
         + Hashed(hash, paths[1..])
  }

  /** The regular files of a root come in order, and nothing else. */
  lemma {:induction false} RootFilesInOrder(before: seq<Entry>, rest: seq<Entry>)
    requires Broken !in before
    ensures RootFiles(before + rest) == RootFiles(before) + RootFiles(rest)
    ensures |before| == 1 ==> RootFiles(before) == if before[0].Regular? then [before[0].path] else []
  {
    if before == [] {
      assert before + rest == rest;
    } else {
      assert before == [before[0]] + before[1..] && before[0] in before;
      assert (before + rest)[1..] == before[1..] + rest;
      RootFilesInOrder(before[1..], rest);
    }
  }

  /** An error ends its root, and no other: of that root comes what was before it. */
  lemma ErrorEndsItsRoot(before: seq<Entry>, after: seq<Entry>, more: seq<seq<Entry>>)
    requires Broken !in before
    ensures Files([before + [Broken] + after] + more) == Files([before]) + Files(more)
  {
    RootFilesInOrder(before, [Broken] + after);
    assert before + [Broken] + after == before + ([Broken] + after);
    FilesAre([before + [Broken] + after], more);
    FilesOfOne(before + [Broken] + after);
    FilesOfOne(before);
  }

  lemma {:induction false} FilesAre(roots: seq<seq<Entry>>, more: seq<seq<Entry>>)
    ensures Files(roots + more) == Files(roots) + Files(more)
  {
    if roots == [] {
      assert roots + more == more;
    } else {
      var rest := roots[1..] + more;
      assert (roots + more)[1..] == rest && (roots + more)[0] == roots[0];
      FilesAre(roots[1..], more);
      assert Files(roots + more) == RootFiles(roots[0]) + Files(rest);
    }
  }

  lemma FilesOfOne(root: seq<Entry>)
    ensures Files([root]) == RootFiles(root)
  {
    assert [root][1..] == [];
  }

  lemma {:induction false} HashedConcat(hash: string -> Option<string>, a: seq<string>, b: seq<string>)
    ensures Hashed(hash, a + b) == Hashed(hash, a) + Hashed(hash, b)
  {
    if a == [] {
      assert a + b == b;
    } else {
      assert (a + b)[1..] == a[1..] + b;
      HashedConcat(hash, a[1..], b);
    }
  }

  /** Hashing looks at each path alone: a part of a bag stays a part of it. */
  lemma {:induction false} HashedBag(hash: string -> Option<string>, a: seq<string>, b: seq<string>)
    requires multiset(a) <= multiset(b)
    ensures multiset(Hashed(hash, a)) <= multiset(Hashed(hash, b))
    decreases |a|
  {
    if a != [] {
      var x, rest := a[0], a[1..];
      assert a == [x] + rest;
      assert x in multiset(a) && x in b;
      var before, after := Pick(b, x);
      LessOne(a, x, rest, b, before, after);
      HashedBag(hash, rest, before + after);
      HashedConcat(hash, [x], rest);
      HashedConcat(hash, before, after);
      HashedConcat(hash, before + [x], after);
      HashedConcat(hash, before, [x]);
    }
  }

  /* ---------- What the workers carry ---------- */

  function Carry(job: Job, w: Worker): multiset<FileHash> {
    match w
    case Waiting => multiset{}
    case Returned => multiset{}
    case Sending(item) => multiset{item}
    case Holding(path) => multiset(Hashed(job.hash, [path]))
  }

  function Carried(job: Job, ws: seq<Worker>): multiset<FileHash> {
    if ws == [] then multiset{} else Carry(job, ws[0]) + Carried(job, ws[1..])
  }

  lemma Reassociate(head: multiset<FileHash>, a: multiset<FileHash>, b: multiset<FileHash>,
                    a': multiset<FileHash>, b': multiset<FileHash>)
    requires a + b == a' + b'
    ensures (head + a) + b == (head + a') + b'
  {
    assert (head + a) + b == head + (a + b) && (head + a') + b' == head + (a' + b');
  }

  lemma {:induction false} CarriedUpdate(job: Job, ws: seq<Worker>, i: nat, w: Worker)
    requires i < |ws|
    ensures Carried(job, ws[i := w]) + Carry(job, ws[i]) == Carried(job, ws) + Carry(job, w)
  {
    if i == 0 {
      assert ws[i := w][1..] == ws[1..];
    } else {
      var rest := ws[1..];
      assert ws[i := w][1..] == rest[i - 1 := w];
      CarriedUpdate(job, rest, i - 1, w);
      Reassociate(Carry(job, ws[0]), Carried(job, rest[i - 1 := w]), Carry(job, ws[i]), Carried(job, rest), Carry(job, w));
    }
  }

  lemma {:induction false} CarriedNothing(job: Job, ws: seq<Worker>)
    requires forall i :: 0 <= i < |ws| ==> ws[i].Waiting? || ws[i].Returned?
    ensures Carried(job, ws) == multiset{}
  {
    if ws != [] {
      CarriedNothing(job, ws[1..]);
    }
  }

  function Working(ws: seq<Worker>): nat {
    if ws == [] then 0 else (if ws[0].Returned? then 0 else 1) + Working(ws[1..])
  }

  lemma {:induction false} WorkingUpdate(ws: seq<Worker>, i: nat, w: Worker)
    requires i < |ws|
    ensures Working(ws[i := w]) + (if ws[i].Returned? then 0 else 1) == Working(ws) + (if w.Returned? then 0 else 1)
  {
    if i == 0 {
      assert ws[i := w][1..] == ws[1..];
    } else {
      assert ws[i := w][1..] == ws[1..][i - 1 := w];
      WorkingUpdate(ws[1..], i - 1, w);
    }
  }

  lemma {:induction false} WorkingSome(ws: seq<Worker>)
    ensures Working(ws) == 0 <==> forall i :: 0 <= i < |ws| ==> ws[i].Returned?
    ensures Working(ws) <= |ws|
  {
    if ws != [] {
      WorkingSome(ws[1..]);
      assert forall i :: 1 <= i < |ws| ==> ws[i] == ws[1..][i - 1];
      assert forall i :: 0 <= i < |ws| - 1 ==> ws[1..][i] == ws[i + 1];
    }
  }

  /* ---------- The invariant ---------- */

  /** The channels: hashC is closed only after the last worker is gone, never holds more than there
      are workers, and is never sent to once closed; a worker leaves only when the names are closed
      or the context is done. */
  ghost predicate Channels(job: Job, p: Pipe) {
    && |p.workers| == job.countWorkers
    && p.wg == Working(p.workers)
    && (p.hashClosed ==> p.wg == 0)
    && |p.queue| <= job.countWorkers
    && !p.panicked
    && (p.namesClosed ==> p.todo == [])
    && (forall i :: 0 <= i < |p.workers| && p.workers[i].Returned? ==> p.namesClosed || p.cancelled)
  }

  function Under(job: Job, p: Pipe): multiset<FileHash> {
    multiset(p.delivered) + multiset(p.queue) + Carried(job, p.workers)
  }

  /** Conservation: the hashes of all names handed over have been delivered, are queued, are with a
      worker, or were dropped after a cancellation. */
  ghost predicate Conserved(job: Job, p: Pipe) {
    && multiset(Hashed(job.hash, p.handed)) == Under(job, p) + multiset(Hashed(job.hash, p.dropped))
    && (!p.cancelled ==> p.dropped == [])
  }

  /** The walker has handed over a part of the files and, unless cancelled, will hand over the rest. */
  ghost predicate Walked(p: Pipe, roots: seq<seq<Entry>>) {
    && multiset(p.handed) + multiset(Files(p.todo)) <= multiset(Files(roots))
    && (!p.cancelled ==> p.handed + Files(p.todo) == Files(roots))
  }

  ghost predicate Inv(job: Job, roots: seq<seq<Entry>>, p: Pipe) {
    Channels(job, p) && Conserved(job, p) && Walked(p, roots)
  }

  lemma InitInv(job: Job, roots: seq<seq<Entry>>)
    ensures Inv(job, roots, Init(job, roots))
  {
    var p := Init(job, roots);
    CarriedNothing(job, p.workers);
    AllWorking(p.workers);
    assert [] + Files(roots) == Files(roots);
  }

  lemma {:induction false} AllWorking(ws: seq<Worker>)
    requires forall i :: 0 <= i < |ws| ==> ws[i].Waiting?
    ensures Working(ws) == |ws|
  {
    if ws != [] {
      AllWorking(ws[1..]);
    }
  }

  lemma StepChannels(job: Job, p: Pipe, a: Act)
    requires Channels(job, p) && Enabled(job, p, a)
    ensures Channels(job, Step(job, p, a))
  {
    WorkingSome(p.workers);
    match a
    case HandOver(i) => WorkingUpdate(p.workers, i, Holding(Head(p).value.path));
    case HashFile(i) =>
      WorkingUpdate(p.workers, i, Returned);
      WorkingUpdate(p.workers, i, Result(p.workers[i].path, job.hash(p.workers[i].path)));
    case Push(i) => WorkingUpdate(p.workers, i, Waiting);
    case Leave(i) => WorkingUpdate(p.workers, i, Returned);
    case _ =>
  }

  lemma HashedAppend(job: Job, paths: seq<string>, path: string)
    ensures multiset(Hashed(job.hash, paths + [path]))
         == multiset(Hashed(job.hash, paths)) + multiset(Hashed(job.hash, [path]))
  {
    HashedConcat(job.hash, paths, [path]);
  }

  /** A worker that waited receives a name: what it will make of it is now with it. */
  lemma ReceivedBag(job: Job, ws: seq<Worker>, i: nat, path: string, all: multiset<FileHash>, rest: multiset<FileHash>)
    requires i < |ws| && ws[i].Waiting? && all == Carried(job, ws) + rest
    ensures all + multiset(Hashed(job.hash, [path])) == Carried(job, ws[i := Holding(path)]) + rest
  {
    var h, c, c' := multiset(Hashed(job.hash, [path])), Carried(job, ws), Carried(job, ws[i := Holding(path)]);
    CarriedUpdate(job, ws, i, Holding(path));
    assert c' + multiset{} == c';
    assert (c + rest) + h == (c + h) + rest;
  }

  /** The parts of a sum in another order. */
  lemma Reorder(a: multiset<FileHash>, b: multiset<FileHash>, c: multiset<FileHash>, d: multiset<FileHash>)
    ensures a + b + c + d == c + (a + b + d)
  {
  }

  lemma HandOverConserved(job: Job, p: Pipe, i: nat)
    requires Conserved(job, p) && Enabled(job, p, HandOver(i))
    ensures Conserved(job, Step(job, p, HandOver(i)))
  {
    var path := Head(p).value.path;
    var del, que, drop := multiset(p.delivered), multiset(p.queue), multiset(Hashed(job.hash, p.dropped));
    HashedAppend(job, p.handed, path);
    Reorder(del, que, Carried(job, p.workers), drop);
    ReceivedBag(job, p.workers, i, path, multiset(Hashed(job.hash, p.handed)), del + que + drop);
    Reorder(del, que, Carried(job, p.workers[i := Holding(path)]), drop);
  }

  lemma HashedOne(job: Job, path: string)
    ensures Carry(job, Result(path, job.hash(path))) == multiset(Hashed(job.hash, [path]))
  {
    assert [path][1..] == [];
    assert job.hash(path).Some? ==> Hashed(job.hash, [path]) == [FileHash(path, job.hash(path).value)];
  }

  lemma DroppedBag(job: Job, ws: seq<Worker>, i: nat, all: multiset<FileHash>, rest: multiset<FileHash>)
    requires i < |ws| && ws[i].Holding? && all == Carried(job, ws) + rest
    ensures all == Carried(job, ws[i := Returned]) + (rest + multiset(Hashed(job.hash, [ws[i].path])))
  {
    var h, c, c' := multiset(Hashed(job.hash, [ws[i].path])), Carried(job, ws), Carried(job, ws[i := Returned]);
    CarriedUpdate(job, ws, i, Returned);
    assert c + multiset{} == c;
    assert (c' + h) + rest == c' + (rest + h);
  }

  lemma DropConserved(job: Job, p: Pipe, i: nat)
    requires Conserved(job, p) && Enabled(job, p, HashFile(i)) && p.cancelled
    ensures Conserved(job, Step(job, p, HashFile(i)))
  {
    var path := p.workers[i].path;
    var del, que, drop := multiset(p.delivered), multiset(p.queue), multiset(Hashed(job.hash, p.dropped));
    HashedAppend(job, p.dropped, path);
    Reorder(del, que, Carried(job, p.workers), drop);
    DroppedBag(job, p.workers, i, multiset(Hashed(job.hash, p.handed)), del + que + drop);
    Reorder(del, que, Carried(job, p.workers[i := Returned]), drop + multiset(Hashed(job.hash, [path])));
  }

  lemma HashFileConserved(job: Job, p: Pipe, i: nat)
    requires Conserved(job, p) && Enabled(job, p, HashFile(i))
    ensures Conserved(job, Step(job, p, HashFile(i)))
  {
    if p.cancelled {
      DropConserved(job, p, i);
    } else {
      var path := p.workers[i].path;
      CarriedUpdate(job, p.workers, i, Result(path, job.hash(path)));
      HashedOne(job, path);
      SameBag(Carried(job, p.workers[i := Result(path, job.hash(path))]), Carried(job, p.workers),
              multiset(Hashed(job.hash, [path])));
    }
  }

  lemma SameBag(a: multiset<FileHash>, b: multiset<FileHash>, c: multiset<FileHash>)
    requires a + c == b + c
    ensures a == b
  {
    forall x ensures a[x] == b[x] {
      assert (a + c)[x] == (b + c)[x];
    }
  }

  lemma PushConserved(job: Job, p: Pipe, i: nat)
    requires Conserved(job, p) && Enabled(job, p, Push(i))
    ensures Conserved(job, Step(job, p, Push(i)))
  {
    if !p.hashClosed {
      var item := p.workers[i].item;
      CarriedUpdate(job, p.workers, i, Waiting);
      var c, c' := Carried(job, p.workers), Carried(job, p.workers[i := Waiting]);
      assert c' + multiset{item} == c;
      assert multiset(p.queue + [item]) == multiset(p.queue) + multiset{item};
      assert multiset(p.delivered) + (multiset(p.queue) + multiset{item}) + c' == multiset(p.delivered) + multiset(p.queue) + c;
    }
  }

  lemma LeaveConserved(job: Job, p: Pipe, i: nat)
    requires Conserved(job, p) && Enabled(job, p, Leave(i))
    ensures Conserved(job, Step(job, p, Leave(i)))
  {
    CarriedUpdate(job, p.workers, i, Returned);
    SameBag(Carried(job, p.workers[i := Returned]), Carried(job, p.workers), multiset{});
  }

  lemma PopConserved(job: Job, p: Pipe)
    requires Conserved(job, p) && Enabled(job, p, Pop)
    ensures Conserved(job, Step(job, p, Pop))
  {
    PopBag(p.delivered, p.queue);
  }

  lemma PopBag(delivered: seq<FileHash>, queue: seq<FileHash>)
    requires queue != []
    ensures multiset(delivered) + multiset(queue) == multiset(delivered + [queue[0]]) + multiset(queue[1..])
  {
    assert queue == [queue[0]] + queue[1..];
    assert multiset(queue) == multiset{queue[0]} + multiset(queue[1..]);
    assert multiset(delivered + [queue[0]]) == multiset(delivered) + multiset{queue[0]};
  }

  lemma StepConserved(job: Job, p: Pipe, a: Act)
    requires Conserved(job, p) && Enabled(job, p, a)
    ensures Conserved(job, Step(job, p, a))
  {
    match a
    case HandOver(i) => HandOverConserved(job, p, i);
    case HashFile(i) => HashFileConserved(job, p, i);
    case Push(i) => PushConserved(job, p, i);
    case Leave(i) => LeaveConserved(job, p, i);
    case Pop => PopConserved(job, p);
    case _ =>
  }

  lemma AdvancedFiles(p: Pipe)
    requires Head(p).Some? && !Head(p).value.Broken?
    ensures Files(p.todo)
         == (if Head(p).value.Regular? then [Head(p).value.path] else []) + Files(Advance(p))
  {
    assert Advance(p)[1..] == p.todo[1..] && Advance(p)[0] == p.todo[0][1..];
  }

  lemma HandOverWalked(job: Job, roots: seq<seq<Entry>>, p: Pipe, i: nat)
    requires Walked(p, roots) && Enabled(job, p, HandOver(i))
    ensures Walked(Step(job, p, HandOver(i)), roots)
  {
    AdvancedFiles(p);
    HandOverBag(p.handed, Head(p).value.path, Files(Advance(p)));
  }

  lemma HandOverBag(handed: seq<string>, path: string, rest: seq<string>)
    ensures multiset(handed) + multiset([path] + rest) == multiset(handed + [path]) + multiset(rest)
    ensures handed + ([path] + rest) == (handed + [path]) + rest
  {
    assert multiset([path] + rest) == multiset{path} + multiset(rest);
    assert multiset(handed + [path]) == multiset(handed) + multiset{path};
  }

  /** The rest of a root is left out. */
  lemma RootLeft(p: Pipe)
    requires p.todo != []
    ensures multiset(Files(p.todo[1..])) <= multiset(Files(p.todo))
    ensures p.todo[0] == [] || p.todo[0][0].Broken? ==> Files(p.todo) == Files(p.todo[1..])
  {
    assert multiset(Files(p.todo)) == multiset(RootFiles(p.todo[0])) + multiset(Files(p.todo[1..]));
  }

  lemma LeaveWalked(job: Job, roots: seq<seq<Entry>>, p: Pipe, a: Act)
    requires Walked(p, roots) && Enabled(job, p, a) && (a.NextRoot? || a.GiveUp? || a.StopRoot?)
    ensures Walked(Step(job, p, a), roots)
  {
    RootLeft(p);
  }

  lemma SkipWalked(job: Job, roots: seq<seq<Entry>>, p: Pipe)
    requires Walked(p, roots) && Enabled(job, p, Skip)
    ensures Walked(Step(job, p, Skip), roots)
  {
    AdvancedFiles(p);
    assert Files(p.todo) == Files(Advance(p));
  }

  lemma StepWalked(job: Job, roots: seq<seq<Entry>>, p: Pipe, a: Act)
    requires Walked(p, roots) && Enabled(job, p, a)
    ensures Walked(Step(job, p, a), roots)
  {
    match a
    case HandOver(i) => HandOverWalked(job, roots, p, i);
    case Skip => SkipWalked(job, roots, p);
    case NextRoot => LeaveWalked(job, roots, p, a);
    case GiveUp => LeaveWalked(job, roots, p, a);
    case StopRoot => LeaveWalked(job, roots, p, a);
    case _ =>
  }

  /** Every step of any schedule keeps the channels safe and loses nothing. */
  lemma StepInv(job: Job, roots: seq<seq<Entry>>, p: Pipe, a: Act)
    requires Inv(job, roots, p) && Enabled(job, p, a)
    ensures Inv(job, roots, Step(job, p, a))
  {
    StepChannels(job, p, a);
    StepConserved(job, p, a);
    StepWalked(job, roots, p, a);
  }

  /* ---------- Runs ---------- */

  predicate Legal(job: Job, p: Pipe, acts: seq<Act>)
    decreases |acts|
  {
    acts == [] || (Enabled(job, p, acts[0]) && Legal(job, Step(job, p, acts[0]), acts[1..]))
  }

  function Exec(job: Job, p: Pipe, acts: seq<Act>): Pipe
    requires Legal(job, p, acts)
    decreases |acts|
  {
    if acts == [] then p else Exec(job, Step(job, p, acts[0]), acts[1..])
  }

  lemma {:induction false} RunInv(job: Job, roots: seq<seq<Entry>>, p: Pipe, acts: seq<Act>)
    requires Inv(job, roots, p) && Legal(job, p, acts)
    ensures Inv(job, roots, Exec(job, p, acts))
    decreases |acts|
  {
    if acts != [] {
      StepInv(job, roots, p, acts[0]);
      RunInv(job, roots, Step(job, p, acts[0]), acts[1..]);
    }
  }

  lemma {:induction false} RunCancelled(job: Job, p: Pipe, acts: seq<Act>)
    requires Legal(job, p, acts)
    ensures Exec(job, p, acts).cancelled <==> p.cancelled || Cancel in acts
    decreases |acts|
  {
    if acts != [] {
      RunCancelled(job, Step(job, p, acts[0]), acts[1..]);
      assert acts == [acts[0]] + acts[1..];
    }
  }

  /** In every run of the pool, for any number of workers: the channel of hashes never overflows, is
      closed only when every worker is gone, and is never sent to afterwards; what has come out is
      part of what went in, and nothing is missing that is not still on its way, unless the context
      was cancelled. */
  lemma PoolIsSafe(job: Job, roots: seq<seq<Entry>>, acts: seq<Act>)
    requires Legal(job, Init(job, roots), acts)
    ensures Safe(job, roots, Exec(job, Init(job, roots), acts), Cancel in acts)
  {
    InitInv(job, roots);
    RunInv(job, roots, Init(job, roots), acts);
    RunCancelled(job, Init(job, roots), acts);
    InvIsSafe(job, roots, Exec(job, Init(job, roots), acts));
  }

  ghost predicate Safe(job: Job, roots: seq<seq<Entry>>, p: Pipe, cancelled: bool) {
    && !p.panicked && |p.queue| <= job.countWorkers
    && (p.hashClosed ==> forall i :: 0 <= i < |p.workers| ==> p.workers[i].Returned?)
    && multiset(p.delivered) <= multiset(Hashed(job.hash, p.handed))
    && multiset(p.handed) <= multiset(Files(roots))
    && (!cancelled ==> multiset(Hashed(job.hash, p.handed)) == Under(job, p))
  }

  lemma InvIsSafe(job: Job, roots: seq<seq<Entry>>, p: Pipe)
    requires Inv(job, roots, p)
    ensures Safe(job, roots, p, p.cancelled)
  {
    WorkingSome(p.workers);
  }

  /* ---------- Progress ---------- */

  function WorkerRank(w: Worker): nat {
    match w
    case Holding(_) => 4
    case Sending(_) => 3
    case Waiting => 1
    case Returned => 0
  }

  function WorkersRank(ws: seq<Worker>): nat {
    if ws == [] then 0 else WorkerRank(ws[0]) + WorkersRank(ws[1..])
  }

  function RootsRank(roots: seq<seq<Entry>>): nat {
    if roots == [] then 0 else 1 + 5 * |roots[0]| + RootsRank(roots[1..])
  }

  /** How many steps are left at most. */
  function Rank(p: Pipe): nat {
    RootsRank(p.todo) + WorkersRank(p.workers) + |p.queue|
    + (if p.namesClosed then 0 else 1) + (if p.hashClosed then 0 else 1) + (if p.cancelled then 0 else 1)
  }

  lemma {:induction false} RankUpdate(ws: seq<Worker>, i: nat, w: Worker)
    requires i < |ws|
    ensures WorkersRank(ws[i := w]) + WorkerRank(ws[i]) == WorkersRank(ws) + WorkerRank(w)
  {
    if i == 0 {
      assert ws[i := w][1..] == ws[1..];
    } else {
      assert ws[i := w][1..] == ws[1..][i - 1 := w];
      RankUpdate(ws[1..], i - 1, w);
    }
  }

  lemma StepRank(job: Job, p: Pipe, a: Act)
    requires Enabled(job, p, a) && !Step(job, p, a).panicked
    ensures Rank(Step(job, p, a)) < Rank(p)
  {
    match a
    case Skip => assert Advance(p)[1..] == p.todo[1..] && Advance(p)[0] == p.todo[0][1..];
    case HandOver(i) =>
      assert Advance(p)[1..] == p.todo[1..] && Advance(p)[0] == p.todo[0][1..];
      RankUpdate(p.workers, i, Holding(Head(p).value.path));
    case HashFile(i) =>
      RankUpdate(p.workers, i, Returned);
      RankUpdate(p.workers, i, Result(p.workers[i].path, job.hash(p.workers[i].path)));
    case Push(i) => RankUpdate(p.workers, i, Waiting);
    case Leave(i) => RankUpdate(p.workers, i, Returned);
    case _ =>
  }

  /** The walker, all workers and the closer are done. */
  predicate AllOut(p: Pipe) {
    p.namesClosed && p.hashClosed && forall i :: 0 <= i < |p.workers| ==> p.workers[i].Returned?
  }

  /** Everyone is done, and nothing is left to receive. */
  predicate Finished(p: Pipe) {
    AllOut(p) && p.queue == []
  }

  /** Someone other than the canceller and the consumer can move, unless a worker waits to send to a
      full channel. */
  lemma CanMove(job: Job, p: Pipe) returns (a: Act)
    requires Channels(job, p) && job.countWorkers >= 1 && !AllOut(p)
    requires forall i :: 0 <= i < |p.workers| && p.workers[i].Sending? ==> |p.queue| < job.countWorkers
    ensures Enabled(job, p, a) && !a.Cancel? && !a.Pop?
  {
    WorkingSome(p.workers);
    if i :| 0 <= i < |p.workers| && p.workers[i].Sending? {
      a := Push(i);
    } else if i :| 0 <= i < |p.workers| && p.workers[i].Holding? {
      a := HashFile(i);
    } else if p.namesClosed {
      if i :| 0 <= i < |p.workers| && p.workers[i].Waiting? {
        a := Leave(i);
      } else {
        a := CloseHashes;
      }
    } else if p.todo == [] {
      a := CloseNames;
    } else if p.todo[0] == [] {
      a := NextRoot;
    } else {
      match p.todo[0][0]
      case Other(_) => a := Skip;
      case Broken => a := GiveUp;
      case Regular(_) =>
        a := if p.cancelled then StopRoot else HandOver(0);
    }
  }

  /** At the end, what was delivered is what there was to hash: all of it, if not cancelled. */
  lemma FinishedDelivers(job: Job, roots: seq<seq<Entry>>, p: Pipe)
    requires Inv(job, roots, p) && p.hashClosed && p.queue == [] && job.countWorkers >= 1
    ensures multiset(p.delivered) <= multiset(Hashed(job.hash, p.handed))
    ensures multiset(p.handed) <= multiset(Files(roots))
    ensures !p.cancelled ==> multiset(p.delivered) == multiset(Hashed(job.hash, Files(roots)))
  {
    WorkingSome(p.workers);
    CarriedNothing(job, p.workers);
    if !p.cancelled {
      assert p.workers[0].Returned? && p.namesClosed;
      assert p.handed + [] == p.handed;
    }
  }
}
