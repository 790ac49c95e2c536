/** What a cancellation still lets through: of the names, at most one for each worker; of their hashes, none.
    The walker goes on to the next root. */
module Cancellation {
  import opened Pipeline
  import opened SnapshotText
  import opened Wrappers
  import HashDir

  /* ---------- Names after the cancellation ---------- */

  /** How many workers can still receive a name once the context is cancelled: a worker that holds one
      returns with it. */
  function Free(ws: seq<Worker>): nat {
    if ws == [] then 0 else (if ws[0].Waiting? || ws[0].Sending? then 1 else 0) + Free(ws[1..])
  }

  lemma {:induction false} FreeUpdate(ws: seq<Worker>, i: nat, w: Worker)
    requires i < |ws|
    ensures Free(ws[i := w]) + Free([ws[i]]) == Free(ws) + Free([w])
    ensures Free(ws) <= |ws|
  {
    var rest := ws[1..];
    if i == 0 {
      assert ws[i := w][1..] == rest;
      FreeAtMost(rest);
    } else {
      assert ws[i := w][1..] == rest[i - 1 := w];
      FreeUpdate(rest, i - 1, w);
    }
  }

  lemma {:induction false} FreeAtMost(ws: seq<Worker>)
    ensures Free(ws) <= |ws|
  {
    if ws != [] {
      FreeAtMost(ws[1..]);
    }
  }

  lemma StepFree(job: Job, p: Pipe, a: Act)
    requires p.cancelled && Enabled(job, p, a)
    ensures var p' := Step(job, p, a);
      p'.cancelled && |p'.handed| + Free(p'.workers) <= |p.handed| + Free(p.workers)
  {
    match a
    case HandOver(i) => FreeUpdate(p.workers, i, Holding(Head(p).value.path));
    case HashFile(i) => FreeUpdate(p.workers, i, Returned);
    case Push(i) => FreeUpdate(p.workers, i, Waiting);
    case Leave(i) => FreeUpdate(p.workers, i, Returned);
    case _ =>
  }

  lemma {:induction false} CancelHandsFew(job: Job, p: Pipe, acts: seq<Act>)
    requires p.cancelled && Legal(job, p, acts)
    ensures |Exec(job, p, acts).handed| <= |p.handed| + Free(p.workers) <= |p.handed| + |p.workers|
    decreases |acts|
  {
    FreeAtMost(p.workers);
    if acts != [] {
      StepFree(job, p, acts[0]);
      CancelHandsFew(job, Step(job, p, acts[0]), acts[1..]);
    }
  }

  /* ---------- Hashes after the cancellation ---------- */

  /** Nobody hashes any more: what a worker only holds comes to nothing. */
  const BLIND := Job(0, path => None)

  /** What has been hashed: delivered, queued, or about to be sent. */
  function Sent(p: Pipe): multiset<FileHash> {
    Under(BLIND, p)
  }

  lemma HoldsNothing(path: string)
    ensures Carry(BLIND, Holding(path)) == multiset{}
  {
    assert Hashed(BLIND.hash, [path]) == [] + Hashed(BLIND.hash, [path][1..]);
  }

  lemma StepSent(job: Job, p: Pipe, a: Act)
    requires p.cancelled && Enabled(job, p, a)
    ensures Sent(Step(job, p, a)) == Sent(p)
  {
    match a
    case HandOver(i) =>
      HoldsNothing(Head(p).value.path);
      SameSent(p.workers, i, Holding(Head(p).value.path));
    case HashFile(i) =>
      HoldsNothing(p.workers[i].path);
      SameSent(p.workers, i, Returned);
    case Leave(i) => SameSent(p.workers, i, Returned);
    case Push(i) => PushSent(job, p, i);
    case Pop => PopBag(p.delivered, p.queue);
    case _ =>
  }

  lemma SameSent(ws: seq<Worker>, i: nat, w: Worker)
    requires i < |ws| && Carry(BLIND, ws[i]) == Carry(BLIND, w) == multiset{}
    ensures Carried(BLIND, ws[i := w]) == Carried(BLIND, ws)
  {
    CarriedUpdate(BLIND, ws, i, w);
    SameBag(Carried(BLIND, ws[i := w]), Carried(BLIND, ws), multiset{});
  }

  lemma PushSent(job: Job, p: Pipe, i: nat)
    requires Enabled(job, p, Push(i))
    ensures Sent(Step(job, p, Push(i))) == Sent(p)
  {
    if !p.hashClosed {
      var item := p.workers[i].item;
      CarriedUpdate(BLIND, p.workers, i, Waiting);
      var c, c' := Carried(BLIND, p.workers), Carried(BLIND, p.workers[i := Waiting]);
      assert c' + multiset{item} == c;
      assert multiset(p.queue + [item]) == multiset(p.queue) + multiset{item};
      assert multiset(p.delivered) + (multiset(p.queue) + multiset{item}) + c' == multiset(p.delivered) + multiset(p.queue) + c;
    }
  }

  lemma {:induction false} NothingHashedAfter(job: Job, p: Pipe, acts: seq<Act>)
    requires p.cancelled && Legal(job, p, acts)
    ensures Sent(Exec(job, p, acts)) == Sent(p)
    decreases |acts|
  {
    if acts != [] {
      StepFree(job, p, acts[0]);
      StepSent(job, p, acts[0]);
      NothingHashedAfter(job, Step(job, p, acts[0]), acts[1..]);
    }
  }

  lemma {:induction false} SentIsHashed(job: Job, ws: seq<Worker>)
    ensures Carried(BLIND, ws) <= Carried(job, ws)
  {
    if ws != [] {
      if ws[0].Holding? {
        HoldsNothing(ws[0].path);
      }
      SentIsHashed(job, ws[1..]);
    }
  }

  /** From the cancellation on, in every run of the pool: at most one more name for each worker is handed
      over, none of these files is hashed, and nothing is delivered but what had been hashed by then. */
  lemma CancelStops(job: Job, roots: seq<seq<Entry>>, before: seq<Act>, after: seq<Act>)
    requires Legal(job, Init(job, roots), before) && Cancel in before
    requires Legal(job, Exec(job, Init(job, roots), before), after)
    ensures var p := Exec(job, Init(job, roots), before); var p' := Exec(job, p, after);
      && |p'.handed| <= |p.handed| + job.countWorkers
      && multiset(p'.delivered) <= Sent(p) <= multiset(Hashed(job.hash, p.handed))
  {
    var p := Exec(job, Init(job, roots), before);
    InitInv(job, roots);
    RunInv(job, roots, Init(job, roots), before);
    RunCancelled(job, Init(job, roots), before);
    CancelHandsFew(job, p, after);
    NothingHashedAfter(job, p, after);
    SentIsHashed(job, p.workers);
  }

  /* ---------- Who leaves ---------- */

  /** Until the names are closed, each worker that has left has left a file undone. */
  predicate EachLeftOne(p: Pipe) {
    p.namesClosed || |p.dropped| + Working(p.workers) == |p.workers|
  }

  lemma StepLeftOne(job: Job, p: Pipe, a: Act)
    requires EachLeftOne(p) && Enabled(job, p, a)
    ensures EachLeftOne(Step(job, p, a))
  {
    match a
    case HandOver(i) => WorkingUpdate(p.workers, i, Holding(Head(p).value.path));
    case HashFile(i) =>
      WorkingUpdate(p.workers, i, Returned);
      WorkingUpdate(p.workers, i, Pipeline.Result(p.workers[i].path, job.hash(p.workers[i].path)));
    case Push(i) => WorkingUpdate(p.workers, i, Waiting);
    case _ =>
  }

  lemma {:induction false} RunLeftOne(job: Job, p: Pipe, acts: seq<Act>)
    requires EachLeftOne(p) && Legal(job, p, acts)
    ensures EachLeftOne(Exec(job, p, acts))
    decreases |acts|
  {
    if acts != [] {
      StepLeftOne(job, p, acts[0]);
      RunLeftOne(job, Step(job, p, acts[0]), acts[1..]);
    }
  }

  /** A worker that waits for a name does not look at the context: as long as the names are open, exactly as
      many workers have left as files were dropped. */
  lemma WaitingWorkersStay(job: Job, roots: seq<seq<Entry>>, acts: seq<Act>)
    requires Legal(job, Init(job, roots), acts)
    ensures var p := Exec(job, Init(job, roots), acts);
      !p.namesClosed ==> |p.dropped| == job.countWorkers - Working(p.workers)
  {
    InitInv(job, roots);
    RunInv(job, roots, Init(job, roots), acts);
    AllWorking(Init(job, roots).workers);
    RunLeftOne(job, Init(job, roots), acts);
  }

  /* ---------- The next root ---------- */

  /** How the walker leaves the root it is in without handing anything over. */
  function Leaving(p: Pipe): Act
    requires p.todo != []
  {
    if p.todo[0] == [] then NextRoot
    else match p.todo[0][0]
      case Regular(_) => StopRoot
      case Other(_) => Skip
      case Broken => GiveUp
  }

  lemma {:induction false} PassesOver(job: Job, p: Pipe, k: nat) returns (acts: seq<Act>)
    requires p.cancelled && k <= |p.todo|
    ensures Legal(job, p, acts) && Exec(job, p, acts) == p.(todo := p.todo[k..])
    decreases RootsRank(p.todo)
  {
    acts := [];
    if k > 0 {
      var a := Leaving(p);
      var p' := Step(job, p, a);
      assert p' == p.(todo := p'.todo);
      if a.Skip? {
        assert p'.todo[1..] == p.todo[1..] && p'.todo[k..] == p.todo[k..];
        assert p'.todo[0] == p.todo[0][1..];
      } else {
        assert p'.todo[k - 1..] == p.todo[k..];
      }
      var rest := PassesOver(job, p', if a.Skip? then k else k - 1);
      HashDir.FirstAct(job, p, a, rest);
      acts := [a] + rest;
    }
  }

  /** The cancellation ends the walk of a root, not of the others: the first file of any root may still be
      handed over, after none of the files before it. */
  lemma LaterRootGoesOn(job: Job, roots: seq<seq<Entry>>, k: nat) returns (acts: seq<Act>)
    requires job.countWorkers >= 1 && k < |roots| && roots[k] != [] && roots[k][0].Regular?
    ensures Legal(job, Init(job, roots), acts) && acts != [] && acts[0] == Cancel
    ensures Exec(job, Init(job, roots), acts).handed == [roots[k][0].path]
  {
    var p := Init(job, roots);
    var p0 := Step(job, p, Cancel);
    var passing := PassesOver(job, p0, k);
    var p1 := Exec(job, p0, passing);
    assert p1.todo[0] == roots[k] && p1.workers[0].Waiting?;
    assert Legal(job, p1, [HandOver(0)]);
    var p2 := Exec(job, p1, [HandOver(0)]);
    assert p2 == Step(job, p1, HandOver(0));
    ThenActs(job, p0, passing, [HandOver(0)]);
    HashDir.FirstAct(job, p, Cancel, passing + [HandOver(0)]);
    acts := [Cancel] + (passing + [HandOver(0)]);
  }

  lemma {:induction false} ThenActs(job: Job, p: Pipe, a: seq<Act>, b: seq<Act>)
    requires Legal(job, p, a) && Legal(job, Exec(job, p, a), b)
    ensures Legal(job, p, a + b) && Exec(job, p, a + b) == Exec(job, Exec(job, p, a), b)
    decreases |a|
  {
    if a == [] {
      assert a + b == b;
    } else {
      assert (a + b)[1..] == a[1..] + b;
      ThenActs(job, Step(job, p, a[0]), a[1..], b);
    }
  }
}
