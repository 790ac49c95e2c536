/** Runs of an interrupted or failing check, step by step: what is promised for undisturbed checks
    does not hold for these. */
module MonitorRuns {
  import opened HashDir
  import opened Monitor
  import opened MonitorTheorems
  import opened Pipeline
  import opened SnapshotText
  import opened Wrappers

  /** A run and the state it leads to. */
  ghost predicate Leads(c: Check, ls: seq<Label>, m: Mon) {
    IsRun(c, Start(c), ls) && After(c, Start(c), ls) == m
  }

  lemma {:induction false} Extend(c: Check, from: Mon, ls: seq<Label>, l: Label)
    requires IsRun(c, from, ls) && CanDo(c, After(c, from, ls), l)
    ensures IsRun(c, from, ls + [l]) && After(c, from, ls + [l]) == Do(c, After(c, from, ls), l)
    decreases |ls|
  {
    if ls == [] {
      assert [] + [l] == [l] && [l][1..] == [];
    } else {
      assert (ls + [l])[1..] == ls[1..] + [l];
      Extend(c, Do(c, from, ls[0]), ls[1..], l);
    }
  }

  lemma Next(c: Check, ls: seq<Label>, m: Mon, l: Label) returns (ls': seq<Label>, m': Mon)
    requires Leads(c, ls, m) && CanDo(c, m, l)
    ensures Leads(c, ls', m') && m' == Do(c, m, l) && ls' == ls + [l]
  {
    Extend(c, Start(c), ls, l);
    ls', m' := ls + [l], Do(c, m, l);
  }

  /** One worker, one root. */
  function Small(entries: seq<Entry>, hash: string -> Option<string>, prefix: string, records: seq<FileHash>): Check {
    Check(Job(1, hash), [entries], prefix, Result.Success(records))
  }

  /** Only the walker has gone on, over nothing that can be hashed. */
  predicate WalkedOn(c: Check, p: Pipe, p': Pipe) {
    && p' == p.(todo := p'.todo, handed := p'.handed)
    && Hashed(c.job.hash, Files(p'.todo)) == Hashed(c.job.hash, Files(p.todo))
    && RootsRank(p'.todo) < RootsRank(p.todo)
  }

  /** What the walker does about the end of a root, an error, or something that is not a regular file. */
  function PassAct(p: Pipe): Act {
    if Head(p).None? then NextRoot else if Head(p).value.Broken? then GiveUp else Skip
  }

  lemma PassOver(c: Check, p: Pipe)
    requires p.todo != [] && (Head(p).Some? ==> !Head(p).value.Regular?)
    ensures Enabled(c.job, p, PassAct(p)) && WalkedOn(c, p, Pipeline.Step(c.job, p, PassAct(p)))
  {
    if PassAct(p).Skip? {
      AdvancedFiles(p);
      AdvancedRank(p);
      assert [] + Files(Advance(p)) == Files(Advance(p));
    } else {
      RootLeft(p);
    }
  }

  lemma AdvancedRank(p: Pipe)
    requires Head(p).Some?
    ensures RootsRank(Advance(p)) < RootsRank(p.todo)
  {
    assert Advance(p)[1..] == p.todo[1..] && Advance(p)[0] == p.todo[0][1..];
  }

  /** Worker `i` takes the files that come until it has one that can be hashed, and is about to send the
      result; the others do nothing. */
  lemma {:induction false} HashNext(c: Check, ls: seq<Label>, m: Mon, i: nat) returns (ls': seq<Label>, m': Mon)
    requires Leads(c, ls, m) && i < |m.pipe.workers| && m.pipe.workers[i].Waiting? && !m.pipe.cancelled
    requires Hashed(c.job.hash, Files(m.pipe.todo)) != []
    ensures Leads(c, ls', m') && (Interrupt in ls' ==> Interrupt in ls)
    ensures m' == m.(pipe := m'.pipe) && HasHashed(c, m.pipe, i, m'.pipe)
    decreases RootsRank(m.pipe.todo)
  {
    if Head(m.pipe).Some? && Head(m.pipe).value.Regular? {
      ls', m' := TakeFile(c, ls, m, i);
      if WalkedOn(c, m.pipe, m'.pipe) {
        var p := m'.pipe;
        ls', m' := HashNext(c, ls', m', i);
        HashedLater(c, m.pipe, i, p, m'.pipe);
      }
    } else {
      PassOver(c, m.pipe);
      ls', m' := Next(c, ls, m, Work(PassAct(m.pipe)));
      var p := m'.pipe;
      ls', m' := HashNext(c, ls', m', i);
      HashedLater(c, m.pipe, i, p, m'.pipe);
    }
  }

  lemma HashedLater(c: Check, p: Pipe, i: nat, p': Pipe, p'': Pipe)
    requires i < |p.workers| && WalkedOn(c, p, p') && HasHashed(c, p', i, p'')
    ensures HasHashed(c, p, i, p'')
  {
  }

  lemma TakeFile(c: Check, ls: seq<Label>, m: Mon, i: nat) returns (ls': seq<Label>, m': Mon)
    requires Leads(c, ls, m) && i < |m.pipe.workers| && m.pipe.workers[i].Waiting? && !m.pipe.cancelled
    requires Head(m.pipe).Some? && Head(m.pipe).value.Regular?
    ensures Leads(c, ls', m') && (Interrupt in ls' ==> Interrupt in ls)
    ensures m' == m.(pipe := m'.pipe)
    ensures WalkedOn(c, m.pipe, m'.pipe) || HasHashed(c, m.pipe, i, m'.pipe)
  {
    var path := Head(m.pipe).value.path;
    AdvancedRank(m.pipe);
    TakenFiles(c, m.pipe, path);
    ls', m' := Next(c, ls, m, Work(HandOver(i)));
    assert m'.pipe == m.pipe.(todo := Advance(m.pipe), workers := m.pipe.workers[i := Holding(path)], handed := m.pipe.handed + [path]);
    ls', m' := HashOne(c, ls', m', i, path, m.pipe.workers);
  }

  lemma TakenFiles(c: Check, p: Pipe, path: string)
    requires Head(p) == Some(Regular(path))
    ensures Hashed(c.job.hash, Files(p.todo))
         == match c.job.hash(path)
            case None => Hashed(c.job.hash, Files(Advance(p)))
            case Some(h) => [FileHash(path, h)] + Hashed(c.job.hash, Files(Advance(p)))
  {
    AdvancedFiles(p);
    assert ([path] + Files(Advance(p)))[1..] == Files(Advance(p));
    assert [] + Hashed(c.job.hash, Files(Advance(p))) == Hashed(c.job.hash, Files(Advance(p)));
  }

  /** What HashNext leads to. */
  predicate HasHashed(c: Check, p: Pipe, i: nat, p': Pipe) {
    var h := Hashed(c.job.hash, Files(p.todo));
    && h != [] && Hashed(c.job.hash, Files(p'.todo)) == h[1..] && i < |p.workers|
    && p' == p.(todo := p'.todo, handed := p'.handed, workers := p.workers[i := Sending(h[0])])
  }

  lemma HashOne(c: Check, ls: seq<Label>, m: Mon, i: nat, path: string, before: seq<Worker>)
    returns (ls': seq<Label>, m': Mon)
    requires Leads(c, ls, m) && i < |before| && before[i].Waiting? && m.pipe.workers == before[i := Holding(path)]
    requires !m.pipe.cancelled
    ensures Leads(c, ls', m') && (Interrupt in ls' ==> Interrupt in ls)
    ensures m' == m.(pipe := m.pipe.(workers := before[i := Pipeline.Result(path, c.job.hash(path))]))
    ensures c.job.hash(path).None? ==> m'.pipe.workers == before
  {
    ls', m' := Next(c, ls, m, Work(HashFile(i)));
    assert before[i := Holding(path)][i := Pipeline.Result(path, c.job.hash(path))] == before[i := Pipeline.Result(path, c.job.hash(path))];
  }

  /** Worker `i` sends its result. */
  lemma PushNext(c: Check, ls: seq<Label>, m: Mon, i: nat) returns (ls': seq<Label>, m': Mon)
    requires Leads(c, ls, m) && i < |m.pipe.workers| && m.pipe.workers[i].Sending?
    requires !m.pipe.hashClosed && |m.pipe.queue| < c.job.countWorkers
    ensures Leads(c, ls', m') && (Interrupt in ls' ==> Interrupt in ls)
    ensures m' == m.(pipe := m.pipe.(workers := m.pipe.workers[i := Waiting], queue := m.pipe.queue + [m.pipe.workers[i].item]))
  {
    ls', m' := Next(c, ls, m, Work(Push(i)));
  }

  lemma ObservedSize(c: Check)
    ensures |Observed(c)| == |Hashed(c.job.hash, Files(c.roots))|
  {
    var h := Hashed(c.job.hash, Files(c.roots));
    assert |Stripped(c.prefix, h)| == |h|;
  }

  /** A check of a tree with a file that can be hashed, up to the point where a hash is queued. */
  lemma FirstQueued(c: Check) returns (ls: seq<Label>, m: Mon)
    requires c.job.countWorkers >= 1 && c.setup.Success? && Observed(c) != multiset{}
    ensures Leads(c, ls, m) && m.comparator == Comparing(ToMap(c.setup.value)) && m.main.Selecting?
    ensures m.pipe.queue != [] && !m.pipe.cancelled && !m.interrupted
  {
    ObservedSize(c);
    ls, m := [], Start(c);
    ls, m := Next(c, ls, m, Prepare);
    ls, m := HashNext(c, ls, m, 0);
    ls, m := PushNext(c, ls, m, 0);
  }

  /* ---------- Interrupted: a wrong pass ---------- */

  /** No verdict but a failure can come of it. */
  ghost predicate Fruitless(c: Check, m: Mon) {
    && Pipeline.Inv(c.job, c.roots, m.pipe)
    && (m.comparator.Ended? ==> !m.main.Selecting?)
    && (!m.main.Selecting? ==> !m.main.verdict.Passed?)
    && !m.comparator.Succeeding?
    && (m.comparator.Comparing? ==> m.comparator.left != map[])
  }

  lemma NothingQueued(c: Check, p: Pipe)
    requires Pipeline.Inv(c.job, c.roots, p) && Observed(c) == multiset{}
    ensures p.queue == []
  {
    HashedBag(c.job.hash, p.handed, Files(c.roots));
    var all := Hashed(c.job.hash, Files(c.roots));
    assert |all| == |Stripped(c.prefix, all)| == |Observed(c)| == 0;
    assert multiset(p.queue) <= Under(c.job, p) <= multiset(Hashed(c.job.hash, p.handed)) <= multiset(all);
    assert |p.queue| == |multiset(p.queue)| && multiset(p.queue) == multiset{};
  }

  lemma StaysFruitless(c: Check, m: Mon, l: Label)
    requires Fruitless(c, m) && CanDo(c, m, l) && !Agrees(c)
    requires c.setup.Failure? ==> !m.comparator.Comparing?
    requires c.setup.Success? ==> Observed(c) == multiset{}
    ensures Fruitless(c, Do(c, m, l)) && (c.setup.Failure? ==> !Do(c, m, l).comparator.Comparing?)
  {
    DoRanks(c, m, l);
    if l.Take? {
      NothingQueued(c, m.pipe);
    } else if l.Prepare? && c.setup.Success? {
      assert Entries(map[]) == multiset{};
    }
  }

  lemma {:induction false} RunsFruitless(c: Check, m: Mon, ls: seq<Label>)
    requires IsRun(c, m, ls) && Fruitless(c, m) && !Agrees(c)
    requires c.setup.Failure? ==> !m.comparator.Comparing?
    requires c.setup.Success? ==> Observed(c) == multiset{}
    ensures Fruitless(c, After(c, m, ls))
    decreases |ls|
  {
    if ls != [] {
      StaysFruitless(c, m, ls[0]);
      RunsFruitless(c, Do(c, m, ls[0]), ls[1..]);
    }
  }

  /** Some run of the check passes. */
  ghost predicate CanPass(c: Check) {
    exists ls, m, n :: Leads(c, ls, m) && m.main == Deciding(Passed(n))
  }

  /** Interrupted at the wrong moment, a check passes whatever the tree and the snapshot: the comparator
      gives up, and its closed channel reads as a count of zero. */
  lemma InterruptedCheckMayPass(c: Check)
    requires c.job.countWorkers >= 1 && c.setup.Success? && Observed(c) != multiset{}
    ensures CanPass(c)
  {
    var ls, m := FirstQueued(c);
    ls, m := Next(c, ls, m, Interrupt);
    ls, m := Next(c, ls, m, Take);
    ls, m := Next(c, ls, m, TakeZero);
    assert m.main == Deciding(Passed(0));
  }

  /** Which checks an interruption can make pass wrongly: of those that ought to fail, exactly the ones
      whose snapshot could be read and which have a file to hash, whatever the files and workers. */
  lemma WrongPassExactly(c: Check)
    requires c.job.countWorkers >= 1 && !Agrees(c)
    ensures CanPass(c) <==> c.setup.Success? && Observed(c) != multiset{}
  {
    if c.setup.Success? && Observed(c) != multiset{} {
      InterruptedCheckMayPass(c);
    } else if CanPass(c) {
      var ls, m, n :| Leads(c, ls, m) && m.main == Deciding(Passed(n));
      InitInv(c.job, c.roots);
      RunsFruitless(c, Start(c), ls);
    }
  }

  /* ---------- Interrupted: a panic ---------- */

  /** Some run of the check sends on the closed errC, which takes the process down. */
  ghost predicate CanPanic(c: Check) {
    exists ls, m :: Leads(c, ls, m) && m.panicked
  }

  /** CheckIntegrity leaves because of the interruption and closes errC before the comparator sends. */
  lemma SendsTooLate(c: Check, ls: seq<Label>, m: Mon)
    requires Leads(c, ls, m) && m.comparator.Failing? && m.main.Selecting? && m.pipe.cancelled
    ensures CanPanic(c)
  {
    var ls', m' := Next(c, ls, m, TakeContext);
    ls', m' := Next(c, ls', m', CloseErr);
    ls', m' := Next(c, ls', m', SendErr);
    assert m'.panicked;
  }

  /** Interrupted, with no worker about to send and nothing queued. */
  predicate Deserted(p: Pipe) {
    p.cancelled && p.queue == [] && forall i :: 0 <= i < |p.workers| ==> !p.workers[i].Sending?
  }

  lemma StaysDeserted(c: Check, p: Pipe, a: Act)
    requires Deserted(p) && Enabled(c.job, p, a)
    ensures Deserted(Pipeline.Step(c.job, p, a))
  {
  }

  /** Then the walker stops and the workers leave, without sending anything. */
  lemma {:induction false} EmptiesOut(c: Check, ls: seq<Label>, m: Mon) returns (ls': seq<Label>, m': Mon)
    requires Leads(c, ls, m) && Pipeline.Inv(c.job, c.roots, m.pipe) && Deserted(m.pipe) && c.job.countWorkers >= 1
    ensures Leads(c, ls', m') && m' == m.(pipe := m'.pipe) && Deserted(m'.pipe) && m'.pipe.hashClosed
    decreases Rank(m.pipe)
  {
    ls', m' := ls, m;
    if !m.pipe.hashClosed {
      var a := CanMove(c.job, m.pipe);
      PipeRanks(c, m.pipe, a);
      StaysDeserted(c, m.pipe, a);
      ls', m' := Next(c, ls, m, Work(a));
      ls', m' := EmptiesOut(c, ls', m');
    }
  }

  /** A check that is interrupted at once finds the expected files missing, the tree being what it was. */
  lemma MissesAndPanics(c: Check, path: string)
    requires c.job.countWorkers >= 1 && c.setup.Success? && path in ToMap(c.setup.value)
    ensures CanPanic(c)
  {
    var ls, m := [], Start(c);
    ls, m := Next(c, ls, m, Interrupt);
    InitInv(c.job, c.roots);
    StepInv(c.job, c.roots, Start(c).pipe, Cancel);
    ls, m := EmptiesOut(c, ls, m);
    ls, m := Next(c, ls, m, Prepare);
    ls, m := Next(c, ls, m, Missing(path));
    SendsTooLate(c, ls, m);
  }

  /** Whatever is wrong: the snapshot cannot be read, an expected file was not seen, or there is a file
      that is not expected. */
  lemma InterruptedCheckMayPanic(c: Check)
    requires c.job.countWorkers >= 1
    requires c.setup.Failure? || ToMap(c.setup.value) != map[] || Observed(c) != multiset{}
    ensures CanPanic(c)
  {
    if c.setup.Failure? {
      var ls, m := [], Start(c);
      ls, m := Next(c, ls, m, Prepare);
      ls, m := Next(c, ls, m, Interrupt);
      SendsTooLate(c, ls, m);
    } else if ToMap(c.setup.value) != map[] {
      var path :| path in ToMap(c.setup.value);
      MissesAndPanics(c, path);
    } else {
      var ls, m := FirstQueued(c);
      ls, m := Next(c, ls, m, Take);
      ls, m := Next(c, ls, m, Interrupt);
      SendsTooLate(c, ls, m);
    }
  }

  /** Nothing to compare, and nothing that could fail. */
  ghost predicate Harmless(c: Check, m: Mon) {
    && Pipeline.Inv(c.job, c.roots, m.pipe) && !m.panicked && !m.comparator.Failing?
    && (m.comparator.Comparing? ==> m.comparator.left == map[])
  }

  lemma StaysHarmless(c: Check, m: Mon, l: Label)
    requires Harmless(c, m) && CanDo(c, m, l) && m.pipe.queue == []
    requires c.setup.Success? && ToMap(c.setup.value) == map[]
    ensures var m' := Do(c, m, l);
      !m'.panicked && !m'.comparator.Failing? && (m'.comparator.Comparing? ==> m'.comparator.left == map[])
  {
  }

  lemma {:induction false} RunsHarmless(c: Check, m: Mon, ls: seq<Label>)
    requires IsRun(c, m, ls) && Harmless(c, m)
    requires c.setup.Success? && ToMap(c.setup.value) == map[] && Observed(c) == multiset{}
    ensures Harmless(c, After(c, m, ls))
    decreases |ls|
  {
    if ls != [] {
      NothingQueued(c, m.pipe);
      StaysHarmless(c, m, ls[0]);
      DoRanks(c, m, ls[0]);
      RunsHarmless(c, Do(c, m, ls[0]), ls[1..]);
    }
  }

  /** Which checks an interruption can make panic: all of them, of an unchanged tree too, but that of a tree
      without files against a snapshot without records. */
  lemma PanicExactly(c: Check)
    requires c.job.countWorkers >= 1
    ensures CanPanic(c) <==> c.setup.Failure? || ToMap(c.setup.value) != map[] || Observed(c) != multiset{}
  {
    if c.setup.Failure? || ToMap(c.setup.value) != map[] || Observed(c) != multiset{} {
      InterruptedCheckMayPanic(c);
    } else if CanPanic(c) {
      var ls, m :| Leads(c, ls, m) && m.panicked;
      InitInv(c.job, c.roots);
      RunsHarmless(c, Start(c), ls);
    }
  }

  /* ---------- Not interrupted ---------- */

  /** Which difference is reported is a matter of chance: two expected files are gone, and either may
      be the one that the check names. */
  lemma ErrorIsNotDetermined(hash: string -> Option<string>, prefix: string, p: string, q: string, h: string)
    requires p != q
    ensures var c := Small([], hash, prefix, [FileHash(p, h), FileHash(q, h)]);
      && (exists ls, m :: Leads(c, ls, m) && m.main == Deciding(Rejected(FileDeleted(p, h))))
      && (exists ls, m :: Leads(c, ls, m) && m.main == Deciding(Rejected(FileDeleted(q, h))))
  {
    var records := [FileHash(p, h), FileHash(q, h)];
    var c := Small([], hash, prefix, records);
    assert records[..1] == [FileHash(p, h)] && records[..1][..0] == [];
    assert ToMap(records[..1]) == map[p := h];
    assert ToMap(records) == map[p := h, q := h];
    var ls, m := NothingFound(c);
    var ls', m' := Missed(c, ls, m, p);
    ls', m' := Missed(c, ls, m, q);
  }

  /** An empty tree is checked up to the point where every expected file is missing. */
  lemma NothingFound(c: Check) returns (ls: seq<Label>, m: Mon)
    requires c.job.countWorkers == 1 && c.roots == [[]] && c.setup.Success?
    ensures Leads(c, ls, m) && AllReceived(m.pipe) && m.comparator == Comparing(ToMap(c.setup.value)) && m.main.Selecting?
  {
    ls, m := [], Start(c);
    ls, m := Next(c, ls, m, Prepare);
    ls, m := Next(c, ls, m, Work(NextRoot));
    ls, m := Next(c, ls, m, Work(CloseNames));
    ls, m := Next(c, ls, m, Work(Leave(0)));
    ls, m := Next(c, ls, m, Work(CloseHashes));
  }

  lemma Missed(c: Check, ls: seq<Label>, m: Mon, path: string) returns (ls': seq<Label>, m': Mon)
    requires Leads(c, ls, m) && AllReceived(m.pipe) && m.comparator.Comparing? && m.main.Selecting?
    requires path in m.comparator.left
    ensures Leads(c, ls', m') && m'.main == Deciding(Rejected(FileDeleted(path, m.comparator.left[path])))
  {
    ls', m' := Next(c, ls, m, Missing(path));
    ls', m' := Next(c, ls', m', SendErr);
  }
}
