/** Which checks leave workers behind. A check that is not interrupted stops receiving hashes as soon as it
    has found a difference; if there are more to come than the channel holds, a worker waits for ever. */
module MonitorLeftovers {
  import opened HashDir
  import opened Monitor
  import opened MonitorRuns
  import opened MonitorTheorems
  import opened Pipeline
  import opened SnapshotText
  import opened Wrappers

  /** A run without interruption. */
  ghost predicate At(c: Check, ls: seq<Label>, m: Mon) {
    Leads(c, ls, m) && Interrupt !in ls
  }

  lemma AtUndisturbed(c: Check, ls: seq<Label>, m: Mon)
    requires At(c, ls, m) && c.job.countWorkers >= 1
    ensures Undisturbed(c, m)
  {
    StartUndisturbed(c);
    RunKeeps(c, Start(c), ls);
  }

  /** The hashes of the tree, in the order of the walk. */
  function Hashes(c: Check): seq<FileHash> {
    Hashed(c.job.hash, Files(c.roots))
  }

  /** What the comparator sees of them. */
  function Shown(c: Check): seq<FileHash> {
    Stripped(c.prefix, Hashes(c))
  }

  predicate IsExpected(c: Check, x: FileHash) {
    c.setup.Success? && var expected := ToMap(c.setup.value); x.path in expected && expected[x.path] == x.hash
  }

  predicate Differs(c: Check, j: nat) {
    j < |Hashes(c)| && !IsExpected(c, Shown(c)[j])
  }

  predicate Repeats(c: Check, i: nat, j: nat) {
    i < j < |Hashes(c)| && Shown(c)[i] == Shown(c)[j]
  }

  /** More hashes than the workers and the channel take, after the least that has to be received to find
      a difference that does not come too late: one hash that is not expected, or one that is there twice. */
  ghost predicate EarlyDifference(c: Check) {
    var n, w := |Hashes(c)|, c.job.countWorkers;
    || (n > w + 1 && exists j :: 0 <= j < n - 2 && Differs(c, j))
    || (n > w + 2 && exists i, j :: 0 <= i < j < n - 2 && Repeats(c, i, j))
  }

  ghost predicate TooMany(c: Check) {
    if c.setup.Failure? then |Hashes(c)| > c.job.countWorkers else EarlyDifference(c)
  }

  /* ---------- How early a hash can arrive ---------- */

  lemma {:induction false} CarriedSize(job: Job, ws: seq<Worker>)
    ensures |Carried(job, ws)| <= |ws|
  {
    if ws != [] {
      CarriedSize(job, ws[1..]);
      CarrySize(job, ws[0]);
    }
  }

  lemma CarriedLess(job: Job, ws: seq<Worker>, i: nat)
    requires i < |ws| && ws[i].Waiting?
    ensures |Carried(job, ws)| < |ws|
  {
    CarriedWithout(job, ws, i);
    CarriedSize(job, ws[..i] + ws[i + 1..]);
  }

  /** A worker that waits makes no difference. */
  lemma {:induction false} CarriedWithout(job: Job, ws: seq<Worker>, i: nat)
    requires i < |ws| && ws[i].Waiting?
    ensures Carried(job, ws) == Carried(job, ws[..i] + ws[i + 1..])
  {
    var others := ws[..i] + ws[i + 1..];
    if i == 0 {
      assert others == ws[1..];
      assert Carried(job, ws) == multiset{} + Carried(job, others) == Carried(job, others);
    } else {
      CarriedWithout(job, ws[1..], i - 1);
      Without(ws, i);
      assert Carried(job, others) == Carry(job, ws[0]) + Carried(job, others[1..]);
      assert Carried(job, ws) == Carry(job, ws[0]) + Carried(job, ws[1..]);
    }
  }

  lemma Without(ws: seq<Worker>, i: nat)
    requires 0 < i < |ws|
    ensures var others := ws[..i] + ws[i + 1..];
      others != [] && others[0] == ws[0] && others[1..] == ws[1..][..i - 1] + ws[1..][i..]
  {
  }

  lemma CarrySize(job: Job, w: Worker)
    ensures |Carry(job, w)| <= 1 && (w.Waiting? ==> |Carry(job, w)| == 0)
    ensures w.Sending? ==> |Carry(job, w)| == 1
  {
    if w.Holding? {
      HashedOne(job, w.path);
    }
  }

  lemma {:induction false} CarriedSome(job: Job, ws: seq<Worker>, i: nat)
    requires i < |ws| && ws[i].Sending?
    ensures |Carried(job, ws)| >= 1
  {
    CarrySize(job, ws[i]);
    if i > 0 {
      CarriedSome(job, ws[1..], i - 1);
    }
  }

  /** The names handed over are the first ones. */
  predicate HandsOver(c: Check, p: Pipe) {
    p.handed + Files(p.todo) == Files(c.roots)
  }

  lemma HandedFirst(c: Check, p: Pipe)
    requires HandsOver(c, p)
    ensures Hashes(c) == Hashed(c.job.hash, p.handed) + Hashed(c.job.hash, Files(p.todo))
  {
    HashedConcat(c.job.hash, p.handed, Files(p.todo));
  }

  /** The first `n` hashes, or all. */
  function First(c: Check, n: nat): seq<FileHash> {
    if n <= |Hashes(c)| then Hashes(c)[..n] else Hashes(c)
  }

  ghost predicate AmongFirst(c: Check, out: seq<FileHash>, n: nat) {
    multiset(out) <= multiset(First(c, n))
  }

  /** With `w` workers, the first `n` to arrive are among the first `n + w - 1` of the walk. */
  ghost predicate InTime(c: Check, out: seq<FileHash>)
    requires c.job.countWorkers >= 1
  {
    forall n :: 1 <= n <= |out| ==> AmongFirst(c, out[..n], n + c.job.countWorkers - 1)
  }

  lemma FirstGrows(c: Check, a: nat, b: nat)
    requires a <= b
    ensures multiset(First(c, a)) <= multiset(First(c, b))
  {
    assert First(c, b) == First(c, a) + First(c, b)[|First(c, a)|..];
  }

  lemma InTimePrefix(c: Check, out: seq<FileHash>, more: seq<FileHash>)
    requires c.job.countWorkers >= 1 && InTime(c, out + more)
    ensures InTime(c, out)
  {
    forall n | 1 <= n <= |out| ensures AmongFirst(c, out[..n], n + c.job.countWorkers - 1) {
      assert (out + more)[..n] == out[..n];
    }
  }

  lemma InTimeNext(c: Check, out: seq<FileHash>, item: FileHash)
    requires c.job.countWorkers >= 1 && InTime(c, out)
    requires AmongFirst(c, out + [item], |out| + c.job.countWorkers)
    ensures InTime(c, out + [item])
  {
    forall n | 1 <= n <= |out + [item]| ensures AmongFirst(c, (out + [item])[..n], n + c.job.countWorkers - 1) {
      InTimeAt(c, out, item, n);
    }
  }

  lemma InTimeAt(c: Check, out: seq<FileHash>, item: FileHash, n: nat)
    requires c.job.countWorkers >= 1 && 1 <= n <= |out| + 1
    requires AmongFirst(c, out + [item], |out| + c.job.countWorkers)
    requires n <= |out| ==> AmongFirst(c, out[..n], n + c.job.countWorkers - 1)
    ensures AmongFirst(c, (out + [item])[..n], n + c.job.countWorkers - 1)
  {
    if n <= |out| {
      assert (out + [item])[..n] == out[..n];
    } else {
      assert (out + [item])[..n] == out + [item];
    }
  }

  /** What has come out is among the first that were handed over, and no more of these are missing than
      there are busy workers. */
  lemma OutIsFirst(c: Check, handed: seq<FileHash>, rest: seq<FileHash>, out: seq<FileHash>, carried: multiset<FileHash>)
    requires Hashes(c) == handed + rest && multiset(handed) == multiset(out) + carried
    requires |carried| < c.job.countWorkers
    ensures AmongFirst(c, out, |out| + c.job.countWorkers - 1)
  {
    assert |multiset(handed)| == |handed|;
    assert handed == First(c, |handed|);
    FirstGrows(c, |handed|, |out| + c.job.countWorkers - 1);
  }

  lemma HandedBag(c: Check, p: Pipe)
    requires Conserved(c.job, p) && !p.cancelled
    ensures multiset(Hashed(c.job.hash, p.handed)) == multiset(p.delivered + p.queue) + Carried(c.job, p.workers)
  {
    assert Hashed(c.job.hash, []) == [];
  }

  /** With an idle worker. */
  lemma IdleOutIsFirst(c: Check, p: Pipe, i: nat, out: seq<FileHash>)
    requires HandsOver(c, p) && |p.workers| == c.job.countWorkers && i < |p.workers| && p.workers[i].Waiting?
    requires multiset(Hashed(c.job.hash, p.handed)) == multiset(out) + Carried(c.job, p.workers)
    ensures AmongFirst(c, out, |out| + c.job.countWorkers - 1)
  {
    HandedFirst(c, p);
    CarriedLess(c.job, p.workers, i);
    OutIsFirst(c, Hashed(c.job.hash, p.handed), Hashed(c.job.hash, Files(p.todo)), out, Carried(c.job, p.workers));
  }

  /** All that was handed over has come out or is with a worker. */
  ghost predicate Bagged(c: Check, p: Pipe) {
    && HandsOver(c, p) && |p.workers| == c.job.countWorkers
    && multiset(Hashed(c.job.hash, p.handed)) == multiset(p.delivered + p.queue) + Carried(c.job, p.workers)
  }

  lemma InvBagged(c: Check, p: Pipe)
    requires Pipeline.Inv(c.job, c.roots, p) && !p.cancelled
    ensures Bagged(c, p)
  {
    HandedBag(c, p);
  }

  /** Worker `i` sends its result: it carries nothing any more. */
  lemma PushedBag(c: Check, p: Pipe, i: nat, handed: multiset<FileHash>, out: seq<FileHash>, item: FileHash)
    requires i < |p.workers| && p.workers[i] == Sending(item)
    requires handed == multiset(out) + Carried(c.job, p.workers)
    ensures handed == multiset(out + [item]) + Carried(c.job, p.workers[i := Waiting])
  {
    CarriedUpdate(c.job, p.workers, i, Waiting);
    var before, after := Carried(c.job, p.workers), Carried(c.job, p.workers[i := Waiting]);
    assert after + multiset{item} == before;
    assert multiset(out + [item]) == multiset(out) + multiset{item};
    assert (multiset(out) + multiset{item}) + after == multiset(out) + (after + multiset{item});
  }

  lemma PushInTime(c: Check, p: Pipe, i: nat, out: seq<FileHash>, item: FileHash)
    requires c.job.countWorkers >= 1 && HandsOver(c, p) && |p.workers| == c.job.countWorkers
    requires i < |p.workers| && p.workers[i] == Sending(item) && InTime(c, out)
    requires multiset(Hashed(c.job.hash, p.handed)) == multiset(out) + Carried(c.job, p.workers)
    ensures InTime(c, out + [item])
  {
    PushedIsFirst(c, p, i, out, item);
    InTimeNext(c, out, item);
  }

  lemma PushedIsFirst(c: Check, p: Pipe, i: nat, out: seq<FileHash>, item: FileHash)
    requires HandsOver(c, p) && |p.workers| == c.job.countWorkers && i < |p.workers| && p.workers[i] == Sending(item)
    requires multiset(Hashed(c.job.hash, p.handed)) == multiset(out) + Carried(c.job, p.workers)
    ensures AmongFirst(c, out + [item], |out| + c.job.countWorkers)
  {
    var q, all := p.(workers := p.workers[i := Waiting]), out + [item];
    PushedBag(c, p, i, multiset(Hashed(c.job.hash, p.handed)), out, item);
    IdleOutIsFirst(c, q, i, all);
  }

  lemma PushedWaits(job: Job, p: Pipe, i: nat)
    requires Channels(job, p) && Enabled(job, p, Push(i))
    ensures Pipeline.Step(job, p, Push(i)) == p.(workers := p.workers[i := Waiting], queue := p.queue + [p.workers[i].item])
  {
    WorkingSome(p.workers);
  }

  /* ---------- What an early verdict means ---------- */

  ghost predicate Unexpected(c: Check, out: seq<FileHash>) {
    c.setup.Success? && !(multiset(Stripped(c.prefix, out)) <= Entries(ToMap(c.setup.value)))
  }

  lemma FailingIsUnexpected(expected: map<string, string>, left: map<string, string>, seen: multiset<FileHash>, x: FileHash)
    requires seen + Entries(left) == Entries(expected) && Compare(left, x).Failing?
    ensures !(seen + multiset{x} <= Entries(expected))
  {
    LeftAndSeen(expected, left, seen, x.path);
    EntriesAt(expected, x);
    if x.path !in left && x.path in expected && expected[x.path] == x.hash {
      assert x in seen && (seen + multiset{x})[x] >= 2;
    } else {
      assert (seen + multiset{x})[x] >= 1;
    }
  }

  /** While hashes are still to come, the comparator has stopped only because of what it received. */
  ghost predicate Tracks(c: Check, m: Mon)
    requires c.job.countWorkers >= 1
  {
    && InTime(c, m.pipe.delivered + (if m.pipe.cancelled then [] else m.pipe.queue))
    && (m.main.Unwound? ==> m.pipe.cancelled)
    && (c.setup.Success? && !m.comparator.Preparing? && !m.comparator.Comparing? && !m.pipe.hashClosed ==>
          Unexpected(c, m.pipe.delivered))
  }

  lemma TakeTracks(c: Check, m: Mon)
    requires c.job.countWorkers >= 1 && Tracks(c, m) && CanDo(c, m, Take) && Struck(c, m)
    requires !m.pipe.cancelled
    ensures Tracks(c, Do(c, m, Take))
  {
    var p, x := m.pipe, Strip(c.prefix, m.pipe.queue[0]);
    assert p.delivered + [p.queue[0]] + p.queue[1..] == p.delivered + p.queue;
    if Compare(m.comparator.left, x).Failing? {
      TakenIsUnexpected(c, m, p.delivered + [p.queue[0]], x);
    }
  }

  lemma TakenIsUnexpected(c: Check, m: Mon, out: seq<FileHash>, x: FileHash)
    requires Struck(c, m) && m.comparator.Comparing? && m.pipe.queue != [] && x == Strip(c.prefix, m.pipe.queue[0])
    requires out == m.pipe.delivered + [m.pipe.queue[0]] && Compare(m.comparator.left, x).Failing?
    ensures Unexpected(c, out)
  {
    SeenNext(c, m.pipe);
    FailingIsUnexpected(ToMap(c.setup.value), m.comparator.left, Seen(c, m), x);
  }

  lemma WorkTracks(c: Check, m: Mon, a: Act)
    requires c.job.countWorkers >= 1 && Pipeline.Inv(c.job, c.roots, m.pipe) && Tracks(c, m) && CanDo(c, m, Work(a))
    ensures Tracks(c, Do(c, m, Work(a)))
  {
    WorkKeepsOut(c.job, m.pipe, a);
    if a.Push? && !m.pipe.cancelled {
      InvBagged(c, m.pipe);
      PushedWaits(c.job, m.pipe, a.i);
      PushTracks(c, m.pipe, a.i, Pipeline.Step(c.job, m.pipe, a));
    }
  }

  lemma PushTracks(c: Check, p: Pipe, i: nat, q: Pipe)
    requires c.job.countWorkers >= 1 && Bagged(c, p) && i < |p.workers| && p.workers[i].Sending?
    requires q == p.(workers := p.workers[i := Waiting], queue := p.queue + [p.workers[i].item])
    requires InTime(c, p.delivered + p.queue)
    ensures InTime(c, q.delivered + q.queue)
  {
    var out, item := p.delivered + p.queue, p.workers[i].item;
    assert q.delivered + q.queue == out + [item];
    PushInTime(c, p, i, out, item);
  }

  lemma WorkKeepsOut(job: Job, p: Pipe, a: Act)
    requires Channels(job, p) && Enabled(job, p, a) && !a.Pop? && !a.Cancel?
    ensures var p' := Pipeline.Step(job, p, a);
      && p'.delivered == p.delivered && p'.cancelled == p.cancelled && (p.hashClosed ==> p'.hashClosed)
      && (!a.Push? ==> p'.queue == p.queue)
  {
  }

  lemma UnwindTracks(c: Check, m: Mon)
    requires c.job.countWorkers >= 1 && Tracks(c, m) && CanDo(c, m, Unwind)
    ensures Tracks(c, Do(c, m, Unwind))
  {
    assert m.pipe.delivered + [] == m.pipe.delivered;
    if !m.pipe.cancelled {
      InTimePrefix(c, m.pipe.delivered, m.pipe.queue);
    }
  }

  lemma OtherTracks(c: Check, m: Mon, l: Label)
    requires c.job.countWorkers >= 1 && Tracks(c, m) && CanDo(c, m, l) && Handshake(c, m)
    requires !l.Work? && !l.Take? && !l.Unwind? && !l.Interrupt?
    ensures Tracks(c, Do(c, m, l))
  {
  }

  lemma StepTracks(c: Check, m: Mon, l: Label)
    requires c.job.countWorkers >= 1 && Undisturbed(c, m) && Tracks(c, m) && CanDo(c, m, l) && !l.Interrupt?
    ensures Tracks(c, Do(c, m, l))
  {
    match l
    case Work(a) => WorkTracks(c, m, a);
    case Take => TakeTracks(c, m);
    case Unwind => UnwindTracks(c, m);
    case _ => OtherTracks(c, m, l);
  }

  lemma {:induction false} RunTracks(c: Check, m: Mon, ls: seq<Label>)
    requires c.job.countWorkers >= 1 && Undisturbed(c, m) && Tracks(c, m) && IsRun(c, m, ls) && Interrupt !in ls
    ensures Tracks(c, After(c, m, ls))
    decreases |ls|
  {
    if ls != [] {
      assert ls[0] in ls && forall l :: l in ls[1..] ==> l in ls;
      StepTracks(c, m, ls[0]);
      DoKeeps(c, m, ls[0]);
      RunTracks(c, Do(c, m, ls[0]), ls[1..]);
    }
  }

  /* ---------- Left behind means too many ---------- */

  /** A worker waits to send to the full channel. */
  ghost predicate Blocked(c: Check, p: Pipe) {
    |p.queue| >= c.job.countWorkers && exists i :: 0 <= i < |p.workers| && p.workers[i].Sending?
  }

  lemma BlockedSize(c: Check, p: Pipe)
    requires Pipeline.Inv(c.job, c.roots, p) && Blocked(c, p)
    ensures |p.delivered| + c.job.countWorkers + 1 <= |Hashes(c)|
  {
    var i :| 0 <= i < |p.workers| && p.workers[i].Sending?;
    CarriedSome(c.job, p.workers, i);
    HashedBag(c.job.hash, p.handed, Files(c.roots));
    var handed := Hashed(c.job.hash, p.handed);
    assert Under(c.job, p) <= multiset(handed) <= multiset(Hashes(c));
    assert |Under(c.job, p)| == |p.delivered| + |p.queue| + |Carried(c.job, p.workers)|;
    BagSize(Under(c.job, p), multiset(Hashes(c)));
  }

  lemma BagSize(a: multiset<FileHash>, b: multiset<FileHash>)
    requires a <= b
    ensures |a| <= |b|
  {
    assert b == a + (b - a);
  }

  lemma Twice(s: seq<FileHash>, x: FileHash) returns (i: nat, j: nat)
    requires multiset(s)[x] >= 2
    ensures i < j < |s| && s[i] == s[j] == x
  {
    assert x in multiset(s);
    i :| 0 <= i < |s| && s[i] == x;
    var rest := s[..i] + s[i + 1..];
    assert s == s[..i] + [x] + s[i + 1..];
    assert multiset(s) == multiset(rest) + multiset{x};
    assert x in multiset(rest);
    var k :| 0 <= k < |rest| && rest[k] == x;
    j := if k < i then k else k + 1;
    assert s[j] == x && j != i;
    if j < i { i, j := j, i; }
  }

  /** What was received when a worker is blocked came early in the walk. */
  lemma ReceivedEarly(c: Check, out: seq<FileHash>, more: seq<FileHash>)
    requires c.job.countWorkers >= 1 && InTime(c, out + more) && out != []
    requires |out| + c.job.countWorkers + 1 <= |Hashes(c)|
    ensures multiset(Stripped(c.prefix, out)) <= multiset(Shown(c)[..|Hashes(c)| - 2])
  {
    InTimePrefix(c, out, more);
    assert out[..|out|] == out;
    assert AmongFirst(c, out, |out| + c.job.countWorkers - 1);
    FirstIsEarly(c, out, |out| + c.job.countWorkers - 1);
  }

  lemma FirstIsEarly(c: Check, out: seq<FileHash>, n: nat)
    requires AmongFirst(c, out, n) && n + 2 <= |Hashes(c)|
    ensures multiset(Stripped(c.prefix, out)) <= multiset(Shown(c)[..|Hashes(c)| - 2])
  {
    var early := Hashes(c)[..|Hashes(c)| - 2];
    FirstGrows(c, n, |Hashes(c)| - 2);
    assert First(c, |Hashes(c)| - 2) == early;
    StrippedBag(c.prefix, out, early);
    assert Stripped(c.prefix, early) == Shown(c)[..|Hashes(c)| - 2];
  }

  /** A hash that came too often, among the early ones. */
  lemma TooOften(c: Check, seen: seq<FileHash>) returns (x: FileHash)
    requires Unexpected(c, seen)
    ensures var bag := multiset(Stripped(c.prefix, seen));
      x in bag && |bag| == |seen| && (IsExpected(c, x) ==> bag[x] >= 2)
  {
    var bag := multiset(Stripped(c.prefix, seen));
    x :| bag[x] > Entries(ToMap(c.setup.value))[x];
    EntriesAt(ToMap(c.setup.value), x);
  }

  lemma UnexpectedIsEarly(c: Check, seen: seq<FileHash>)
    requires Unexpected(c, seen) && |seen| + c.job.countWorkers + 1 <= |Hashes(c)|
    requires c.job.countWorkers >= 1 && seen != []
    requires multiset(Stripped(c.prefix, seen)) <= multiset(Shown(c)[..|Hashes(c)| - 2])
    ensures EarlyDifference(c)
  {
    var bag, early := multiset(Stripped(c.prefix, seen)), Shown(c)[..|Hashes(c)| - 2];
    var x := TooOften(c, seen);
    if IsExpected(c, x) {
      var i, j := Twice(early, x);
      BagSize(multiset{x, x}, bag);
      assert Repeats(c, i, j);
    } else {
      assert x in multiset(early);
      var j :| 0 <= j < |early| && early[j] == x;
      assert Differs(c, j);
    }
  }

  lemma LeftMeansTooMany(c: Check, ls: seq<Label>, m: Mon)
    requires c.job.countWorkers >= 1 && At(c, ls, m) && m.main.Unwound? && Blocked(c, m.pipe)
    ensures TooMany(c)
  {
    AtUndisturbed(c, ls, m);
    AtTracks(c, ls, m);
    BlockedSize(c, m.pipe);
    if c.setup.Success? {
      StillOpen(c, m);
      NothingIsExpected(c);
      ReceivedEarly(c, m.pipe.delivered, if m.pipe.cancelled then [] else m.pipe.queue);
      UnexpectedIsEarly(c, m.pipe.delivered);
    }
  }

  lemma AtTracks(c: Check, ls: seq<Label>, m: Mon)
    requires c.job.countWorkers >= 1 && At(c, ls, m)
    ensures Tracks(c, m)
  {
    StartUndisturbed(c);
    StartTracks(c);
    RunTracks(c, Start(c), ls);
  }

  lemma StartTracks(c: Check)
    requires c.job.countWorkers >= 1
    ensures Tracks(c, Start(c))
  {
    assert [] + [] == Start(c).pipe.delivered;
  }

  lemma NothingIsExpected(c: Check)
    ensures !Unexpected(c, [])
  {
    assert Stripped(c.prefix, []) == [];
  }

  lemma StillOpen(c: Check, m: Mon)
    requires c.setup.Success? && c.job.countWorkers >= 1 && Channels(c.job, m.pipe) && Handshake(c, m) && Tracks(c, m)
    requires m.main.Unwound? && Blocked(c, m.pipe)
    ensures Unexpected(c, m.pipe.delivered)
  {
    WorkingSome(m.pipe.workers);
  }

  /* ---------- Too many means left behind ---------- */

  /** Every worker waits for a name or to send. */
  predicate Serving(m: Mon) {
    m.main.Selecting? && forall i :: 0 <= i < |m.pipe.workers| ==> m.pipe.workers[i].Waiting? || m.pipe.workers[i].Sending?
  }

  /** Then what is not delivered, queued or carried is still to come. */
  lemma StillToCome(c: Check, ls: seq<Label>, m: Mon)
    requires c.job.countWorkers >= 1 && At(c, ls, m) && Serving(m)
    ensures !m.pipe.hashClosed && !m.pipe.cancelled && |m.pipe.workers| == c.job.countWorkers
    ensures |Hashed(c.job.hash, Files(m.pipe.todo))| + |Carried(c.job, m.pipe.workers)| + |m.pipe.queue|
         + |m.pipe.delivered| == |Hashes(c)|
    ensures |m.pipe.queue| <= c.job.countWorkers
  {
    AtUndisturbed(c, ls, m);
    WorkingSome(m.pipe.workers);
    HandedFirst(c, m.pipe);
    HandedBag(c, m.pipe);
    var handed := Hashed(c.job.hash, m.pipe.handed);
    assert |multiset(handed)| == |handed|;
  }

  lemma SetWaiting(ws: seq<Worker>, i: nat, item: FileHash)
    requires i < |ws| && ws[i].Waiting?
    ensures ws[i := Sending(item)][i := Waiting] == ws
  {
  }

  /** The comparator has stopped receiving, with more to come than the workers and the channel take. */
  ghost predicate Filling(c: Check, ls: seq<Label>, m: Mon) {
    && c.job.countWorkers >= 1 && At(c, ls, m) && Serving(m) && m.comparator.Failing?
    && |m.pipe.delivered| + c.job.countWorkers + 1 <= |Hashes(c)|
  }

  ghost predicate SomeSending(p: Pipe) {
    exists i :: 0 <= i < |p.workers| && p.workers[i].Sending?
  }

  /** The channel fills up, and one more hash waits. */
  lemma {:induction false} FillUp(c: Check, ls: seq<Label>, m: Mon) returns (ls': seq<Label>, m': Mon)
    requires Filling(c, ls, m)
    ensures Filling(c, ls', m') && Blocked(c, m'.pipe)
    decreases c.job.countWorkers - |m.pipe.queue|, if SomeSending(m.pipe) then 0 else 1
  {
    StillToCome(c, ls, m);
    ls', m' := ls, m;
    if !SomeSending(m.pipe) {
      ls', m' := HashOneMore(c, ls, m);
      ls', m' := FillUp(c, ls', m');
    } else if |m.pipe.queue| < c.job.countWorkers {
      var i :| 0 <= i < |m.pipe.workers| && m.pipe.workers[i].Sending?;
      ls', m' := PushNext(c, ls, m, i);
      StillToCome(c, ls', m');
      ls', m' := FillUp(c, ls', m');
    }
  }

  lemma HashOneMore(c: Check, ls: seq<Label>, m: Mon) returns (ls': seq<Label>, m': Mon)
    requires Filling(c, ls, m) && !SomeSending(m.pipe)
    ensures Filling(c, ls', m') && SomeSending(m'.pipe) && m'.pipe.queue == m.pipe.queue
  {
    StillToCome(c, ls, m);
    CarriedNothing(c.job, m.pipe.workers);
    ls', m' := HashNext(c, ls, m, 0);
    assert m'.pipe.workers[0].Sending?;
  }

  /** The check is over, a worker is not, and nothing can move any more. */
  ghost predicate LeftBehind(c: Check, m: Mon) {
    m.main.Unwound? && Blocked(c, m.pipe) && !m.pipe.hashClosed && forall l :: !CanDo(c, m, l)
  }

  /** A blocked worker stays blocked when the check is over. */
  ghost predicate Stuck(c: Check, m: Mon) {
    && Pipeline.Inv(c.job, c.roots, m.pipe) && m.main.Unwound? && m.comparator.Ended? && m.pipe.cancelled
    && Blocked(c, m.pipe)
  }

  lemma StaysStuck(c: Check, m: Mon, l: Label)
    requires Stuck(c, m) && CanDo(c, m, l)
    ensures Stuck(c, Do(c, m, l)) && !l.Interrupt?
  {
    DoRanks(c, m, l);
    WorkingSome(m.pipe.workers);
    var i :| 0 <= i < |m.pipe.workers| && m.pipe.workers[i].Sending?;
    StaysBlocked(c, m.pipe, l.act, i);
  }

  lemma StaysBlocked(c: Check, p: Pipe, a: Act, i: nat)
    requires Enabled(c.job, p, a) && !a.Pop? && |p.queue| >= c.job.countWorkers && !p.hashClosed
    requires i < |p.workers| && p.workers[i].Sending?
    ensures var p' := Pipeline.Step(c.job, p, a); p'.queue == p.queue && |p'.workers| == |p.workers| && p'.workers[i].Sending?
  {
  }

  lemma {:induction false} GoesOnToTheEnd(c: Check, ls: seq<Label>, m: Mon) returns (ls': seq<Label>, m': Mon)
    requires At(c, ls, m) && Stuck(c, m)
    ensures At(c, ls', m') && LeftBehind(c, m')
    decreases MonRank(m)
  {
    ls', m' := ls, m;
    if l :| CanDo(c, m, l) {
      ls', m' := GoesOn(c, ls, m, l);
      ls', m' := GoesOnToTheEnd(c, ls', m');
    } else {
      WorkingSome(m.pipe.workers);
    }
  }

  lemma GoesOn(c: Check, ls: seq<Label>, m: Mon, l: Label) returns (ls': seq<Label>, m': Mon)
    requires At(c, ls, m) && Stuck(c, m) && CanDo(c, m, l)
    ensures At(c, ls', m') && Stuck(c, m') && MonRank(m') < MonRank(m)
  {
    StaysStuck(c, m, l);
    StuckRanks(c, m, l);
    ls', m' := Next(c, ls, m, l);
  }

  lemma StuckRanks(c: Check, m: Mon, l: Label)
    requires Stuck(c, m) && CanDo(c, m, l)
    ensures MonRank(Do(c, m, l)) < MonRank(m)
  {
    DoRanks(c, m, l);
  }

  lemma ComesToAnEnd(c: Check, ls: seq<Label>, m: Mon) returns (ls': seq<Label>, m': Mon)
    requires Filling(c, ls, m) && Blocked(c, m.pipe)
    ensures At(c, ls', m') && LeftBehind(c, m')
  {
    ls', m' := Returns(c, ls, m);
    ls', m' := GoesOnToTheEnd(c, ls', m');
  }

  /** CheckIntegrity takes the error, closes errC and cancels. */
  lemma Returns(c: Check, ls: seq<Label>, m: Mon) returns (ls': seq<Label>, m': Mon)
    requires Filling(c, ls, m) && Blocked(c, m.pipe)
    ensures At(c, ls', m') && Stuck(c, m')
  {
    ls', m' := Next(c, ls, m, SendErr);
    ls', m' := Next(c, ls', m', CloseErr);
    ls', m' := Next(c, ls', m', Unwind);
    assert m'.pipe == m.pipe.(cancelled := true);
    AtUndisturbed(c, ls', m');
  }

  /** The comparator receives, with worker 0 idle and nothing queued; the walk has come to hash `n`. */
  ghost predicate Feeding(c: Check, ls: seq<Label>, m: Mon, n: nat) {
    && c.job.countWorkers >= 1 && At(c, ls, m) && Serving(m) && m.comparator.Comparing? && m.pipe.queue == []
    && m.pipe.workers != [] && m.pipe.workers[0].Waiting? && n <= |Hashes(c)|
    && Hashed(c.job.hash, Files(m.pipe.todo)) == Hashes(c)[n..]
  }

  lemma NextHash(c: Check, n: nat)
    requires n < |Hashes(c)|
    ensures Hashes(c)[n..] != [] && Hashes(c)[n..][0] == Hashes(c)[n] && Hashes(c)[n..][1..] == Hashes(c)[n + 1..]
  {
  }

  /** Worker 0 hashes the next file, and the comparator receives the hash. */
  lemma ConsumeOne(c: Check, ls: seq<Label>, m: Mon, n: nat) returns (ls': seq<Label>, m': Mon)
    requires Feeding(c, ls, m, n) && n < |Hashes(c)|
    ensures At(c, ls', m') && Serving(m') && m'.pipe.workers == m.pipe.workers
    ensures m'.pipe.delivered == m.pipe.delivered + [Hashes(c)[n]]
    ensures m'.comparator.Failing? || Feeding(c, ls', m', n + 1)
  {
    NextHash(c, n);
    StillToCome(c, ls, m);
    ls', m' := HashNext(c, ls, m, 0);
    ls', m' := PushNext(c, ls', m', 0);
    SetWaiting(m.pipe.workers, 0, Hashes(c)[n]);
    assert m'.pipe.queue == [Hashes(c)[n]] && m'.pipe.workers == m.pipe.workers;
    ls', m' := Receive(c, ls', m', Hashes(c)[n]);
  }

  lemma Receive(c: Check, ls: seq<Label>, m: Mon, x: FileHash) returns (ls': seq<Label>, m': Mon)
    requires At(c, ls, m) && m.comparator.Comparing? && m.pipe.queue == [x] && !m.pipe.cancelled
    ensures At(c, ls', m') && (m'.comparator.Failing? || m'.comparator.Comparing?)
    ensures m' == m.(comparator := m'.comparator, pipe := m.pipe.(queue := [], delivered := m.pipe.delivered + [x]))
  {
    ls', m' := Next(c, ls, m, Take);
  }

  /** The next files up to `n'`, or up to a difference. */
  lemma {:induction false} ConsumeSome(c: Check, ls: seq<Label>, m: Mon, n: nat, n': nat)
    returns (ls': seq<Label>, m': Mon)
    requires Feeding(c, ls, m, n) && n <= n' <= |Hashes(c)|
    ensures At(c, ls', m') && Serving(m') && |m'.pipe.delivered| <= |m.pipe.delivered| + (n' - n)
    ensures m'.comparator.Failing? || Fed(c, m, n, ls', m', n')
    decreases n' - n
  {
    ls', m' := ls, m;
    if n < n' {
      var ls1, m1 := ConsumeOne(c, ls, m, n);
      ls', m' := ls1, m1;
      if !m1.comparator.Failing? {
        ls', m' := ConsumeSome(c, ls1, m1, n + 1, n');
        if !m'.comparator.Failing? {
          FedMore(c, m, n, m1, ls', m', n');
        }
      }
    } else {
      assert m.pipe.delivered + Hashes(c)[n..n] == m.pipe.delivered;
    }
  }

  /** All of them were received, and nothing else has changed for the workers. */
  ghost predicate Fed(c: Check, m: Mon, n: nat, ls': seq<Label>, m': Mon, n': nat) {
    && Feeding(c, ls', m', n') && n <= n' && m'.pipe.workers == m.pipe.workers
    && m'.pipe.delivered == m.pipe.delivered + Hashes(c)[n..n']
  }

  lemma FedMore(c: Check, m: Mon, n: nat, m1: Mon, ls': seq<Label>, m': Mon, n': nat)
    requires n < n' <= |Hashes(c)| && Fed(c, m1, n + 1, ls', m', n')
    requires m1.pipe.workers == m.pipe.workers && m1.pipe.delivered == m.pipe.delivered + [Hashes(c)[n]]
    ensures Fed(c, m, n, ls', m', n')
  {
    assert [Hashes(c)[n]] + Hashes(c)[n + 1..n'] == Hashes(c)[n..n'];
  }

  /** The workers from `h + 1` on are idle. */
  predicate IdleFrom(m: Mon, h: nat) {
    forall i :: h < i < |m.pipe.workers| ==> m.pipe.workers[i].Waiting?
  }

  /** The next `k` hashes are held back by as many workers. */
  lemma {:induction false} HoldBack(c: Check, ls: seq<Label>, m: Mon, n: nat, h: nat, k: nat)
    returns (ls': seq<Label>, m': Mon)
    requires Feeding(c, ls, m, n) && IdleFrom(m, h) && h + k < c.job.countWorkers && n + k <= |Hashes(c)|
    ensures Feeding(c, ls', m', n + k) && IdleFrom(m', h + k) && m'.pipe.delivered == m.pipe.delivered
    decreases k
  {
    ls', m' := ls, m;
    if k > 0 {
      ls', m' := HoldOne(c, ls, m, n, h);
      ls', m' := HoldBack(c, ls', m', n + 1, h + 1, k - 1);
    }
  }

  lemma HoldOne(c: Check, ls: seq<Label>, m: Mon, n: nat, h: nat) returns (ls': seq<Label>, m': Mon)
    requires Feeding(c, ls, m, n) && IdleFrom(m, h) && h + 1 < c.job.countWorkers && n < |Hashes(c)|
    ensures Feeding(c, ls', m', n + 1) && IdleFrom(m', h + 1) && m'.pipe.delivered == m.pipe.delivered
  {
    NextHash(c, n);
    StillToCome(c, ls, m);
    ls', m' := HashNext(c, ls, m, h + 1);
  }

  lemma BeginFeeding(c: Check) returns (ls: seq<Label>, m: Mon)
    requires c.job.countWorkers >= 1 && c.setup.Success?
    ensures Feeding(c, ls, m, 0) && IdleFrom(m, 0) && m.pipe.delivered == []
  {
    ls, m := [], Start(c);
    ls, m := Next(c, ls, m, Prepare);
    assert Hashes(c)[0..] == Hashes(c);
  }

  /** As long as nothing was amiss, every hash received was expected, and came once. */
  lemma FeedingIsExpected(c: Check, ls: seq<Label>, m: Mon, n: nat)
    requires Feeding(c, ls, m, n)
    ensures forall x :: x in Stripped(c.prefix, m.pipe.delivered) ==> IsExpected(c, x)
    ensures forall x :: multiset(Stripped(c.prefix, m.pipe.delivered))[x] <= 1
  {
    AtUndisturbed(c, ls, m);
    StruckIsExpected(c, m);
  }

  lemma StruckIsExpected(c: Check, m: Mon)
    requires Struck(c, m) && m.comparator.Comparing?
    ensures forall x :: x in Stripped(c.prefix, m.pipe.delivered) ==> IsExpected(c, x)
    ensures forall x :: multiset(Stripped(c.prefix, m.pipe.delivered))[x] <= 1
  {
    var expected, seen := ToMap(c.setup.value), Stripped(c.prefix, m.pipe.delivered);
    assert multiset(seen) <= Entries(expected);
    forall x ensures multiset(seen)[x] <= 1 && (x in seen ==> IsExpected(c, x)) {
      EntriesAt(expected, x);
      assert x in seen ==> multiset(seen)[x] >= 1;
    }
  }

  /** How many hashes have to be held back so that hash `j` is received in time. */
  function Back(c: Check, j: nat): nat {
    var most := |Hashes(c)| - c.job.countWorkers - 1;
    if j + 1 <= most then 0 else j + 1 - most
  }

  /** The first `h` hashes are held back, those up to `n` received. */
  lemma ReceiveSome(c: Check, h: nat, n: nat) returns (ls: seq<Label>, m: Mon)
    requires c.setup.Success? && h < c.job.countWorkers && h <= n <= |Hashes(c)|
    ensures At(c, ls, m) && Serving(m) && |m.pipe.delivered| <= n - h
    ensures m.comparator.Failing? || (Feeding(c, ls, m, n) && m.pipe.delivered == [] + Hashes(c)[h..n])
  {
    ls, m := BeginFeeding(c);
    ls, m := HoldBack(c, ls, m, 0, 0, h);
    ls, m := ConsumeSome(c, ls, m, h, n);
  }

  lemma BackFits(c: Check, j: nat)
    requires c.job.countWorkers >= 1 && |Hashes(c)| > c.job.countWorkers + 1 && j < |Hashes(c)| - 2
    ensures Back(c, j) <= j && Back(c, j) < c.job.countWorkers
    ensures (j + 1 - Back(c, j)) + c.job.countWorkers + 1 <= |Hashes(c)|
    ensures Back(c, j) > 0 && |Hashes(c)| > c.job.countWorkers + 2 ==> Back(c, j) < j
  {
  }

  lemma DifferenceFails(c: Check, j: nat) returns (ls: seq<Label>, m: Mon)
    requires c.job.countWorkers >= 1 && c.setup.Success? && |Hashes(c)| > c.job.countWorkers + 1
    requires j < |Hashes(c)| - 2 && Differs(c, j)
    ensures Filling(c, ls, m)
  {
    var h := Back(c, j);
    BackFits(c, j);
    ls, m := ReceiveSome(c, h, j + 1);
    if !m.comparator.Failing? {
      Among(c, h, j, j + 1);
      FeedingIsExpected(c, ls, m, j + 1);
    }
  }

  /** A hash is seen if it is in a stretch that was received. */
  lemma Among(c: Check, from: nat, j: nat, to: nat)
    requires from <= j < to <= |Hashes(c)|
    ensures Shown(c)[j] in Stripped(c.prefix, [] + Hashes(c)[from..to])
  {
    assert Stripped(c.prefix, [] + Hashes(c)[from..to])[j - from] == Shown(c)[j];
  }

  /** A hash that is in both of two stretches is seen twice. */
  lemma InBoth(c: Check, a: seq<FileHash>, b: seq<FileHash>, x: FileHash)
    requires x in Stripped(c.prefix, a) && x in Stripped(c.prefix, b)
    ensures multiset(Stripped(c.prefix, a + b))[x] >= 2
  {
    StrippedConcat(c.prefix, a, b);
    assert x in multiset(Stripped(c.prefix, a)) && x in multiset(Stripped(c.prefix, b));
  }

  lemma RepetitionFails(c: Check, i: nat, j: nat) returns (ls: seq<Label>, m: Mon)
    requires c.job.countWorkers >= 1 && c.setup.Success? && |Hashes(c)| > c.job.countWorkers + 2
    requires j < |Hashes(c)| - 2 && Repeats(c, i, j)
    ensures Filling(c, ls, m)
  {
    if i < Back(c, j) {
      ls, m := RepetitionApart(c, i, j);
    } else {
      ls, m := RepetitionTogether(c, i, j);
    }
  }

  lemma RepetitionTogether(c: Check, i: nat, j: nat) returns (ls: seq<Label>, m: Mon)
    requires c.job.countWorkers >= 1 && c.setup.Success? && |Hashes(c)| > c.job.countWorkers + 2
    requires j < |Hashes(c)| - 2 && Repeats(c, i, j) && Back(c, j) <= i
    ensures Filling(c, ls, m)
  {
    var h := Back(c, j);
    BackFits(c, j);
    ls, m := ReceiveSome(c, h, j + 1);
    if !m.comparator.Failing? {
      Halves(c, h, j);
      NotTwice(c, ls, m, h, i, j, j, j);
    }
  }

  lemma Halves(c: Check, h: nat, j: nat)
    requires h <= j < |Hashes(c)|
    ensures [] + Hashes(c)[h..j + 1] == ([] + Hashes(c)[h..j]) + ([] + Hashes(c)[j..j + 1])
  {
  }

  /** The first of the two has to be received before enough is held back. */
  lemma RepetitionApart(c: Check, i: nat, j: nat) returns (ls: seq<Label>, m: Mon)
    requires c.job.countWorkers >= 1 && c.setup.Success? && |Hashes(c)| > c.job.countWorkers + 2
    requires j < |Hashes(c)| - 2 && Repeats(c, i, j) && i < Back(c, j)
    ensures Filling(c, ls, m)
  {
    var h := Back(c, j);
    BackFits(c, j);
    ls, m := FirstReceived(c, i, h);
    if !m.comparator.Failing? {
      ls, m := SecondReceived(c, ls, m, i, j);
    }
  }

  lemma SecondReceived(c: Check, ls: seq<Label>, m: Mon, i: nat, j: nat) returns (ls': seq<Label>, m': Mon)
    requires |Hashes(c)| > c.job.countWorkers + 2 && j < |Hashes(c)| - 2 && Repeats(c, i, j) && i < Back(c, j)
    requires Feeding(c, ls, m, i + 1) && IdleFrom(m, i) && m.pipe.delivered == Hashes(c)[i..i + 1]
    ensures Filling(c, ls', m')
  {
    var h, all := Back(c, j), Hashes(c);
    BackFits(c, j);
    ls', m' := HoldBack(c, ls, m, i + 1, i, h - i);
    ls', m' := ConsumeSome(c, ls', m', h + 1, j + 1);
    if !m'.comparator.Failing? {
      assert [] + all[i..i + 1] == all[i..i + 1] && [] + all[h + 1..j + 1] == all[h + 1..j + 1];
      NotTwice(c, ls', m', i, i, i + 1, h + 1, j);
    }
  }

  /** Two stretches that were received do not show the same. */
  lemma NotTwice(c: Check, ls: seq<Label>, m: Mon, a: nat, i: nat, to: nat, b: nat, j: nat)
    requires a <= i < to <= b <= j < |Hashes(c)| && Feeding(c, ls, m, j + 1)
    requires m.pipe.delivered == ([] + Hashes(c)[a..to]) + ([] + Hashes(c)[b..j + 1])
    ensures Shown(c)[i] != Shown(c)[j]
  {
    Among(c, a, i, to);
    Among(c, b, j, j + 1);
    FeedingIsExpected(c, ls, m, j + 1);
    if Shown(c)[i] == Shown(c)[j] {
      InBoth(c, [] + Hashes(c)[a..to], [] + Hashes(c)[b..j + 1], Shown(c)[j]);
    }
  }

  /** Hash `i` is received, those before it are held back. */
  lemma FirstReceived(c: Check, i: nat, h: nat) returns (ls: seq<Label>, m: Mon)
    requires c.job.countWorkers >= 1 && c.setup.Success? && i < h < c.job.countWorkers && i < |Hashes(c)|
    ensures At(c, ls, m) && Serving(m) && |m.pipe.delivered| <= 1
    ensures m.comparator.Failing? ||
      (Feeding(c, ls, m, i + 1) && IdleFrom(m, i) && m.pipe.delivered == Hashes(c)[i..i + 1])
  {
    ls, m := BeginFeeding(c);
    ls, m := HoldBack(c, ls, m, 0, 0, i);
    var before := m;
    ls, m := ConsumeSome(c, ls, m, i, i + 1);
    assert [] + Hashes(c)[i..i + 1] == Hashes(c)[i..i + 1];
  }

  lemma SetupFails(c: Check) returns (ls: seq<Label>, m: Mon)
    requires c.setup.Failure?
    requires c.job.countWorkers >= 1 && |Hashes(c)| > c.job.countWorkers
    ensures Filling(c, ls, m)
  {
    ls, m := [], Start(c);
    ls, m := Next(c, ls, m, Prepare);
  }

  /** A run that leaves a worker behind. */
  lemma FailedCheckLeavesWorkers(c: Check) returns (ls: seq<Label>, m: Mon)
    requires c.job.countWorkers >= 1 && TooMany(c)
    ensures At(c, ls, m) && LeftBehind(c, m)
  {
    var n, w := |Hashes(c)|, c.job.countWorkers;
    if c.setup.Failure? {
      ls, m := SetupFails(c);
    } else if n > w + 1 && exists j :: 0 <= j < n - 2 && Differs(c, j) {
      var j :| 0 <= j < n - 2 && Differs(c, j);
      ls, m := DifferenceFails(c, j);
    } else {
      var i, j :| 0 <= i < j < n - 2 && Repeats(c, i, j);
      ls, m := RepetitionFails(c, i, j);
    }
    ls, m := FillUp(c, ls, m);
    ls, m := ComesToAnEnd(c, ls, m);
  }

  /* ---------- Exactly ---------- */

  /** Nothing more happens of its own accord. */
  ghost predicate Over(c: Check, m: Mon) {
    forall l :: CanDo(c, m, l) ==> l.Interrupt?
  }

  /** A check that is over has returned, and everyone is out, or a worker is blocked. */
  lemma OutOrBlocked(c: Check, ls: seq<Label>, m: Mon)
    requires c.job.countWorkers >= 1 && At(c, ls, m) && Over(c, m)
    ensures m.main.Unwound? && (AllOut(m.pipe) || Blocked(c, m.pipe))
  {
    AtUndisturbed(c, ls, m);
    HasReturned(c, m);
    PipeIsOver(c, m);
  }

  lemma HasReturned(c: Check, m: Mon)
    requires Undisturbed(c, m) && Over(c, m)
    ensures m.main.Unwound?
  {
    assert !CanDo(c, m, CloseErr) && !CanDo(c, m, Unwind);
    if m.main.Selecting? {
      var l := MonitorTheorems.Moves(c, m);
    }
  }

  lemma PipeIsOver(c: Check, m: Mon)
    requires c.job.countWorkers >= 1 && Channels(c.job, m.pipe) && Over(c, m)
    ensures AllOut(m.pipe) || Blocked(c, m.pipe)
  {
    if !AllOut(m.pipe) && !Blocked(c, m.pipe) {
      var a := CanMove(c.job, m.pipe);
      assert CanDo(c, m, Work(a));
    }
  }

  /** After every check that is not interrupted everyone is out in the end, if and only if there are not too
      many hashes: no more than workers, if the snapshot cannot be read; and otherwise no difference that
      can be found while more than the workers and the channel take are still to come. */
  lemma EveryoneLeavesExactly(c: Check)
    requires c.job.countWorkers >= 1
    ensures (forall ls, m :: At(c, ls, m) && Over(c, m) ==> m.main.Unwound? && AllOut(m.pipe)) <==> !TooMany(c)
  {
    if TooMany(c) {
      var ls, m := FailedCheckLeavesWorkers(c);
      var i :| 0 <= i < |m.pipe.workers| && m.pipe.workers[i].Sending?;
      assert At(c, ls, m) && Over(c, m) && !AllOut(m.pipe);
    } else {
      forall ls, m | At(c, ls, m) && Over(c, m) ensures m.main.Unwound? && AllOut(m.pipe) {
        OutOrBlocked(c, ls, m);
        if !AllOut(m.pipe) {
          LeftMeansTooMany(c, ls, m);
        }
      }
    }
  }

  /** No more hashable files than workers: everyone is out in the end, whatever the verdict. */
  lemma FewFilesLeaveNobody(c: Check, ls: seq<Label>, m: Mon)
    requires c.job.countWorkers >= 1 && |Hashes(c)| <= c.job.countWorkers && At(c, ls, m) && Over(c, m)
    ensures m.main.Unwound? && AllOut(m.pipe)
  {
    EveryoneLeavesExactly(c);
  }
}
