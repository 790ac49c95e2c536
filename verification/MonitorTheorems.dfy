/** What a check that is not interrupted guarantees under every schedule, and what one that is
    interrupted does not. */
module MonitorTheorems {
  import opened HashDir
  import opened Monitor
  import opened Pipeline
  import opened SnapshotText
  import opened Wrappers

  /* ---------- Every step keeps the invariant ---------- */

  lemma WorkKeeps(c: Check, m: Mon, act: Act)
    requires Undisturbed(c, m) && CanDo(c, m, Work(act))
    ensures Undisturbed(c, Do(c, m, Work(act)))
  {
    StepInv(c.job, c.roots, m.pipe, act);
    var p' := Pipeline.Step(c.job, m.pipe, act);
    assert p'.delivered == m.pipe.delivered && p'.cancelled == m.pipe.cancelled;
  }

  lemma PrepareKeeps(c: Check, m: Mon)
    requires Undisturbed(c, m) && CanDo(c, m, Prepare)
    ensures Undisturbed(c, Do(c, m, Prepare))
  {
    NothingSeen(c.prefix);
    if c.setup.Success? {
      assert multiset{} + Entries(ToMap(c.setup.value)) == Entries(ToMap(c.setup.value));
    }
  }

  lemma NothingSeen(prefix: string)
    ensures multiset(Stripped(prefix, [])) == multiset{}
  {
  }

  /** One more hash is seen. */
  lemma SeenNext(c: Check, p: Pipe)
    requires p.queue != []
    ensures multiset(Stripped(c.prefix, p.delivered + [p.queue[0]]))
         == multiset(Stripped(c.prefix, p.delivered)) + multiset{Strip(c.prefix, p.queue[0])}
  {
    StrippedConcat(c.prefix, p.delivered, [p.queue[0]]);
    assert Stripped(c.prefix, [p.queue[0]]) == [Strip(c.prefix, p.queue[0])];
  }

  /** What is left is expected, and what is expected and not left was seen. */
  lemma LeftAndSeen(expected: map<string, string>, left: map<string, string>, seen: multiset<FileHash>, path: string)
    requires seen + Entries(left) == Entries(expected)
    ensures path in left ==> path in expected && expected[path] == left[path]
    ensures path in left ==> forall h :: FileHash(path, h) !in seen
    ensures path in expected && path !in left ==> FileHash(path, expected[path]) in seen
  {
    if path in left {
      EntriesAt(left, FileHash(path, left[path]));
      EntriesAt(expected, FileHash(path, left[path]));
      forall h ensures FileHash(path, h) !in seen {
        EntriesAt(left, FileHash(path, h));
        EntriesAt(expected, FileHash(path, h));
        assert (seen + Entries(left))[FileHash(path, h)] == Entries(expected)[FileHash(path, h)];
      }
    } else if path in expected {
      EntriesAt(left, FileHash(path, expected[path]));
      EntriesAt(expected, FileHash(path, expected[path]));
      assert (seen + Entries(left))[FileHash(path, expected[path])] == 1;
    }
  }

  /** Comparing one more hash strikes it off, or finds a genuine difference. */
  lemma CompareKeeps(expected: map<string, string>, left: map<string, string>, seen: multiset<FileHash>,
                     x: FileHash, observed: multiset<FileHash>)
    requires seen + Entries(left) == Entries(expected) && seen + multiset{x} <= observed
    ensures match Compare(left, x)
      case Comparing(left') => seen + multiset{x} + Entries(left') == Entries(expected)
      case Failing(e) => Genuine(expected, observed, e)
      case _ => false
  {
    LeftAndSeen(expected, left, seen, x.path);
    assert x in seen + multiset{x};
    if x.path in left && left[x.path] == x.hash {
      EntriesWithout(left, x.path);
      assert seen + multiset{x} + Entries(left - {x.path}) == seen + (Entries(left - {x.path}) + multiset{x});
    } else if x.path !in left && x.path in expected {
      var y := FileHash(x.path, expected[x.path]);
      assert seen[y] >= 1;
      assert multiset{y, x} <= seen + multiset{x};
    }
  }

  lemma TakeKeeps(c: Check, m: Mon)
    requires Undisturbed(c, m) && CanDo(c, m, Take)
    ensures Undisturbed(c, Do(c, m, Take))
  {
    StepInv(c.job, c.roots, m.pipe, Pop);
    var p' := Pipeline.Step(c.job, m.pipe, Pop);
    SeenNext(c, m.pipe);
    SeenIsObserved(c, p');
    var x := Strip(c.prefix, m.pipe.queue[0]);
    assert multiset(Stripped(c.prefix, p'.delivered)) == Seen(c, m) + multiset{x};
    CompareKeeps(ToMap(c.setup.value), m.comparator.left, Seen(c, m), x, Observed(c));
  }

  /** Once the hashes are closed and received, all there was to observe has been seen. */
  lemma DrainedSawAll(c: Check, m: Mon)
    requires Undisturbed(c, m) && AllReceived(m.pipe) && !m.pipe.cancelled
    ensures Seen(c, m) == Observed(c)
  {
    FinishedDelivers(c.job, c.roots, m.pipe);
    StrippedBag(c.prefix, m.pipe.delivered, Hashed(c.job.hash, Files(c.roots)));
    StrippedBag(c.prefix, Hashed(c.job.hash, Files(c.roots)), m.pipe.delivered);
  }

  lemma MissingKeeps(c: Check, m: Mon, path: string)
    requires Undisturbed(c, m) && CanDo(c, m, Missing(path))
    ensures Undisturbed(c, Do(c, m, Missing(path)))
  {
    DrainedSawAll(c, m);
    LeftAndSeen(ToMap(c.setup.value), m.comparator.left, Seen(c, m), path);
  }

  lemma CompleteKeeps(c: Check, m: Mon)
    requires Undisturbed(c, m) && CanDo(c, m, Complete)
    ensures Undisturbed(c, Do(c, m, Complete))
  {
    DrainedSawAll(c, m);
    assert Entries(map[]) == multiset{};
  }

  lemma UnwindKeeps(c: Check, m: Mon)
    requires Undisturbed(c, m) && CanDo(c, m, Unwind)
    ensures Undisturbed(c, Do(c, m, Unwind))
  {
    StepInv(c.job, c.roots, m.pipe, Cancel);
  }

  lemma MainKeeps(c: Check, m: Mon, l: Label)
    requires Undisturbed(c, m) && CanDo(c, m, l)
    requires l.SendErr? || l.SendDone? || l.TakeZero? || l.TakeContext? || l.CloseErr?
    ensures Undisturbed(c, Do(c, m, l))
  {
    assert Do(c, m, l).pipe == m.pipe;
  }

  lemma DoKeeps(c: Check, m: Mon, l: Label)
    requires Undisturbed(c, m) && CanDo(c, m, l) && !l.Interrupt?
    ensures Undisturbed(c, Do(c, m, l))
  {
    match l
    case Work(act) => WorkKeeps(c, m, act);
    case Prepare => PrepareKeeps(c, m);
    case Take => TakeKeeps(c, m);
    case Missing(path) => MissingKeeps(c, m, path);
    case Complete => CompleteKeeps(c, m);
    case Unwind => UnwindKeeps(c, m);
    case _ => MainKeeps(c, m, l);
  }

  lemma {:induction false} RunKeeps(c: Check, m: Mon, ls: seq<Label>)
    requires Undisturbed(c, m) && IsRun(c, m, ls) && Interrupt !in ls
    ensures Undisturbed(c, After(c, m, ls))
    decreases |ls|
  {
    if ls != [] {
      assert ls[0] in ls && forall l :: l in ls[1..] ==> l in ls;
      DoKeeps(c, m, ls[0]);
      RunKeeps(c, Do(c, m, ls[0]), ls[1..]);
    }
  }

  /* ---------- The verdict ---------- */

  /** What makes a check pass: the snapshot could be read, and the files of the tree, by path and
      hash, are its entries, each exactly once. */
  predicate Agrees(c: Check) {
    c.setup.Success? && Observed(c) == Entries(ToMap(c.setup.value))
  }

  lemma JustifiedIsExact(c: Check, v: Verdict)
    requires Justified(c, v)
    ensures v.Passed? <==> Agrees(c)
  {
    if v.Rejected? && c.setup.Success? {
      GenuineMeansDifferent(ToMap(c.setup.value), Observed(c), v.error);
    }
  }

  /** The verdict of a check that is not interrupted does not depend on the schedule: it passes if and
      only if tree and snapshot agree; an error names a difference that is there; and the count that
      comes with success is that of the records. */
  lemma VerdictIsExact(c: Check, ls: seq<Label>)
    requires c.job.countWorkers >= 1 && IsRun(c, Start(c), ls) && Interrupt !in ls
    ensures var m := After(c, Start(c), ls);
      !m.main.Selecting? ==> Justified(c, m.main.verdict) && (m.main.verdict.Passed? <==> Agrees(c))
  {
    StartUndisturbed(c);
    RunKeeps(c, Start(c), ls);
    var m := After(c, Start(c), ls);
    if !m.main.Selecting? {
      JustifiedIsExact(c, m.main.verdict);
    }
  }

  /** Channel safety: nothing is sent on a closed errC, the comparator sends at most once, and what
      CheckIntegrity decides on is that one send, never the zero value of the closed doneC. */
  lemma ChannelsAreSafe(c: Check, ls: seq<Label>)
    requires c.job.countWorkers >= 1 && IsRun(c, Start(c), ls) && Interrupt !in ls
    ensures OneSend(c, After(c, Start(c), ls))
  {
    StartUndisturbed(c);
    RunKeeps(c, Start(c), ls);
    UndisturbedIsSafe(c, After(c, Start(c), ls));
  }

  predicate OneSend(c: Check, m: Mon) {
    && !m.panicked && !m.pipe.panicked && m.errSends + m.doneSends <= 1
    && (!m.main.Selecting? ==> m.errSends + m.doneSends == 1 && (m.main.verdict.Rejected? <==> m.errSends == 1))
    && (m.main.Selecting? ==> !CanDo(c, m, TakeZero) && !CanDo(c, m, TakeContext))
  }

  lemma UndisturbedIsSafe(c: Check, m: Mon)
    requires Handshake(c, m) && Channels(c.job, m.pipe)
    ensures OneSend(c, m)
  {
  }

  /* ---------- Every check returns ---------- */

  function ComparatorRank(k: Comparator): nat {
    match k
    case Preparing => 3
    case Comparing(_) => 2
    case Failing(_) => 1
    case Succeeding(_) => 1
    case Ended => 0
  }

  function MainRank(m: Main): nat {
    match m
    case Selecting => 3
    case Deciding(_) => 2
    case ErrClosed(_) => 1
    case Unwound(_) => 0
  }

  function MonRank(m: Mon): nat {
    Rank(m.pipe) + ComparatorRank(m.comparator) + MainRank(m.main)
  }

  /** The pipe's part in a step. */
  function PipeAct(m: Mon, l: Label): Option<Act> {
    match l
    case Work(act) => Some(act)
    case Take => Some(Pop)
    case Interrupt => Some(Cancel)
    case Unwind => if m.pipe.cancelled then None else Some(Cancel)
    case _ => None
  }

  lemma PipePart(c: Check, m: Mon, l: Label)
    requires CanDo(c, m, l)
    ensures var a := PipeAct(m, l);
      if a.None? then Do(c, m, l).pipe == m.pipe
      else Enabled(c.job, m.pipe, a.value) && Do(c, m, l).pipe == Pipeline.Step(c.job, m.pipe, a.value)
    ensures var m' := Do(c, m, l);
      ComparatorRank(m'.comparator) + MainRank(m'.main) + (if PipeAct(m, l).Some? then 0 else 1)
      <= ComparatorRank(m.comparator) + MainRank(m.main)
  {
  }

  lemma DoRanks(c: Check, m: Mon, l: Label)
    requires Pipeline.Inv(c.job, c.roots, m.pipe) && CanDo(c, m, l)
    ensures Pipeline.Inv(c.job, c.roots, Do(c, m, l).pipe) && MonRank(Do(c, m, l)) < MonRank(m)
  {
    PipePart(c, m, l);
    if PipeAct(m, l).Some? {
      PipeRanks(c, m.pipe, PipeAct(m, l).value);
    }
  }

  lemma PipeRanks(c: Check, p: Pipe, a: Act)
    requires Pipeline.Inv(c.job, c.roots, p) && Enabled(c.job, p, a)
    ensures Pipeline.Inv(c.job, c.roots, Pipeline.Step(c.job, p, a)) && Rank(Pipeline.Step(c.job, p, a)) < Rank(p)
  {
    StepInv(c.job, c.roots, p, a);
    StepRank(c.job, p, a);
  }

  /** As long as CheckIntegrity waits, something can happen other than an interruption. */
  lemma Moves(c: Check, m: Mon) returns (l: Label)
    requires Undisturbed(c, m) && m.main.Selecting?
    ensures CanDo(c, m, l) && !l.Interrupt?
  {
    match m.comparator
    case Preparing => l := Prepare;
    case Failing(_) => l := SendErr;
    case Succeeding(_) => l := SendDone;
    case Comparing(left) =>
      if m.pipe.queue != [] {
        l := Take;
      } else if !m.pipe.hashClosed {
        var a := CanMove(c.job, m.pipe);
        l := Work(a);
      } else if left == map[] {
        l := Complete;
      } else {
        var path :| path in left;
        l := Missing(path);
      }
  }

  lemma {:induction false} RunsAreShort(c: Check, m: Mon, ls: seq<Label>)
    requires Pipeline.Inv(c.job, c.roots, m.pipe) && IsRun(c, m, ls)
    ensures |ls| <= MonRank(m)
    decreases |ls|
  {
    if ls != [] {
      DoRanks(c, m, ls[0]);
      RunsAreShort(c, Do(c, m, ls[0]), ls[1..]);
    }
  }

  /** A check that is not interrupted always returns: runs are bounded, and one in which nothing more
      can happen has its verdict. */
  lemma CheckReturns(c: Check, ls: seq<Label>)
    requires c.job.countWorkers >= 1 && IsRun(c, Start(c), ls) && Interrupt !in ls
    ensures |ls| <= MonRank(Start(c))
    ensures (forall l :: CanDo(c, After(c, Start(c), ls), l) ==> l.Interrupt?) ==> !After(c, Start(c), ls).main.Selecting?
  {
    StartUndisturbed(c);
    RunsAreShort(c, Start(c), ls);
    RunKeeps(c, Start(c), ls);
    var m := After(c, Start(c), ls);
    if m.main.Selecting? {
      var l := Moves(c, m);
    }
  }

  /* ---------- CheckIntegrity under a scheduler ---------- */

  function Labels(m: Mon): set<Label> {
    {Interrupt, Prepare, Take, Complete, SendErr, SendDone, TakeZero, TakeContext, CloseErr, Unwind}
    + (set a | a in Acts(|m.pipe.workers|) :: Work(a))
    + (if m.comparator.Comparing? then (set p | p in m.comparator.left :: Missing(p)) else {})
  }

  lemma LabelsAreAll(c: Check, m: Mon, l: Label)
    requires CanDo(c, m, l)
    ensures l in Labels(m)
  {
    if l.Work? {
      ActsAreAll(c.job, m.pipe, l.act);
    }
  }

  /** A check until its verdict, the scheduler picking any step that can be taken. */
  method CheckIntegrity(c: Check) returns (v: Verdict, interrupted: bool)
    requires c.job.countWorkers >= 1
    ensures !interrupted ==> Justified(c, v) && (v.Passed? <==> Agrees(c))
  {
    var m := Start(c);
    interrupted := false;
    StartUndisturbed(c);
    while m.main.Selecting?
      invariant Pipeline.Inv(c.job, c.roots, m.pipe)
      invariant !interrupted ==> Undisturbed(c, m)
      invariant interrupted ==> m.pipe.cancelled
      decreases MonRank(m)
    {
      ghost var some := if interrupted then TakeContext else MoveOf(c, m);
      LabelsAreAll(c, m, some);
      var l :| l in Labels(m) && CanDo(c, m, l);
      DoRanks(c, m, l);
      if !interrupted && !l.Interrupt? { DoKeeps(c, m, l); }
      StaysCancelled(c, m, l);
      m := Do(c, m, l);
      interrupted := interrupted || l.Interrupt?;
    }
    v := m.main.verdict;
    if !interrupted { JustifiedIsExact(c, v); }
  }

  lemma StaysCancelled(c: Check, m: Mon, l: Label)
    requires CanDo(c, m, l)
    ensures m.pipe.cancelled || l.Interrupt? ==> Do(c, m, l).pipe.cancelled
  {
  }

  ghost function MoveOf(c: Check, m: Mon): (l: Label)
    requires Undisturbed(c, m) && m.main.Selecting?
    ensures CanDo(c, m, l)
  {
    MoveExists(c, m);
    var l :| CanDo(c, m, l) && !l.Interrupt?;
    l
  }

  lemma MoveExists(c: Check, m: Mon)
    requires Undisturbed(c, m) && m.main.Selecting?
    ensures exists l :: CanDo(c, m, l) && !l.Interrupt?
  {
    var l := Moves(c, m);
  }
}
