/** How every check ends, whenever it is interrupted, and what an interruption can leave behind. */
module MonitorEnds {
  import opened HashDir
  import opened Monitor
  import opened MonitorLeftovers
  import opened MonitorRuns
  import opened MonitorTheorems
  import opened Pipeline
  import opened Wrappers

  ghost predicate Sound(c: Check, m: Mon) {
    Pipeline.Inv(c.job, c.roots, m.pipe)
  }

  lemma StepSound(c: Check, m: Mon, l: Label)
    requires Sound(c, m) && CanDo(c, m, l)
    ensures Sound(c, Do(c, m, l))
  {
    DoRanks(c, m, l);
  }

  lemma {:induction false} RunSound(c: Check, m: Mon, ls: seq<Label>)
    requires Sound(c, m) && IsRun(c, m, ls)
    ensures Sound(c, After(c, m, ls))
    decreases |ls|
  {
    if ls != [] {
      StepSound(c, m, ls[0]);
      RunSound(c, Do(c, m, ls[0]), ls[1..]);
    }
  }

  lemma {:induction false} RunStaysCancelled(c: Check, m: Mon, ls: seq<Label>)
    requires IsRun(c, m, ls) && (m.pipe.cancelled || Interrupt in ls)
    ensures After(c, m, ls).pipe.cancelled
    decreases |ls|
  {
    if ls != [] {
      StaysCancelled(c, m, ls[0]);
      assert Interrupt in ls ==> ls[0] == Interrupt || Interrupt in ls[1..];
      RunStaysCancelled(c, Do(c, m, ls[0]), ls[1..]);
    }
  }

  /** Whenever a check is interrupted, if at all: once nothing more happens, CheckIntegrity has returned; the
      comparator has ended, unless the interruption left it alone with its success, which it then offers on
      doneC for ever; and everyone else is out, or a worker is blocked on the full channel. */
  lemma EveryCheckEnds(c: Check, ls: seq<Label>, m: Mon)
    requires c.job.countWorkers >= 1 && Leads(c, ls, m) && Over(c, m)
    ensures m.main.Unwound? && (m.comparator.Ended? || (m.comparator.Succeeding? && Interrupt in ls))
    ensures AllOut(m.pipe) || Blocked(c, m.pipe)
  {
    InitInv(c.job, c.roots);
    RunSound(c, Start(c), ls);
    PipeIsOver(c, m);
    if Interrupt in ls {
      RunStaysCancelled(c, Start(c), ls);
      MainIsOver(c, m);
      ComparatorIsOver(c, m);
    } else {
      AtUndisturbed(c, ls, m);
      HasReturned(c, m);
    }
  }

  lemma MainIsOver(c: Check, m: Mon)
    requires m.pipe.cancelled && Over(c, m)
    ensures m.main.Unwound?
  {
    assert !CanDo(c, m, TakeContext) && !CanDo(c, m, CloseErr) && !CanDo(c, m, Unwind);
  }

  lemma ComparatorIsOver(c: Check, m: Mon)
    requires c.job.countWorkers >= 1 && Channels(c.job, m.pipe) && Over(c, m) && m.main.Unwound?
    ensures m.comparator.Ended? || m.comparator.Succeeding?
  {
    assert !CanDo(c, m, Prepare) && !CanDo(c, m, SendErr) && !CanDo(c, m, Take) && !CanDo(c, m, Complete);
    if m.comparator.Comparing? {
      var left := m.comparator.left;
      if m.pipe.hashClosed {
        var path :| path in left;
        assert CanDo(c, m, Missing(path));
      } else {
        var a := CanMove(c.job, m.pipe);
        assert CanDo(c, m, Work(a));
      }
    }
  }

  /* ---------- A success that nobody takes ---------- */

  /** The comparator's success, before CheckIntegrity has taken it. */
  ghost predicate Offers(c: Check, ls: seq<Label>, m: Mon) {
    At(c, ls, m) && m.comparator.Succeeding? && m.main.Selecting?
  }

  lemma {:induction false} ComesToOffer(c: Check, ls: seq<Label>, m: Mon) returns (ls': seq<Label>, m': Mon)
    requires At(c, ls, m) && Undisturbed(c, m) && m.main.Selecting? && Agrees(c)
    ensures Offers(c, ls', m')
    decreases MonRank(m)
  {
    ls', m' := ls, m;
    if !m.comparator.Succeeding? {
      var l := NotYetTaken(c, m);
      ls', m' := Next(c, ls, m, l);
      ls', m' := ComesToOffer(c, ls', m');
    }
  }

  /** With nothing to find fault with, there is a step that leaves CheckIntegrity waiting. */
  lemma NotYetTaken(c: Check, m: Mon) returns (l: Label)
    requires Undisturbed(c, m) && m.main.Selecting? && Agrees(c) && !m.comparator.Succeeding?
    ensures CanDo(c, m, l) && !l.Interrupt?
    ensures var m' := Do(c, m, l); Undisturbed(c, m') && m'.main.Selecting? && MonRank(m') < MonRank(m)
  {
    if m.comparator.Failing? {
      JustifiedIsExact(c, Rejected(m.comparator.error));
      assert false;
    }
    l := MonitorTheorems.Moves(c, m);
    DoKeeps(c, m, l);
    DoRanks(c, m, l);
    StaysSelecting(c, m, l);
  }

  lemma StaysSelecting(c: Check, m: Mon, l: Label)
    requires CanDo(c, m, l) && m.main.Selecting? && Handshake(c, m) && !m.comparator.Succeeding? && !m.comparator.Failing?
    ensures Do(c, m, l).main.Selecting?
  {
  }

  /** CheckIntegrity has left, and the comparator's send has no receiver any more. */
  ghost predicate Abandoned(c: Check, m: Mon) {
    Pipeline.Inv(c.job, c.roots, m.pipe) && m.pipe.cancelled && m.main.Unwound? && m.comparator.Succeeding?
  }

  lemma {:induction false} RunsDry(c: Check, ls: seq<Label>, m: Mon) returns (ls': seq<Label>, m': Mon)
    requires Leads(c, ls, m) && Abandoned(c, m)
    ensures Leads(c, ls', m') && Abandoned(c, m') && Over(c, m') && m'.main == m.main
    decreases MonRank(m)
  {
    ls', m' := ls, m;
    if l :| CanDo(c, m, l) {
      StaysAbandoned(c, m, l);
      ls', m' := Next(c, ls, m, l);
      ls', m' := RunsDry(c, ls', m');
    }
  }

  lemma StaysAbandoned(c: Check, m: Mon, l: Label)
    requires Abandoned(c, m) && CanDo(c, m, l)
    ensures var m' := Do(c, m, l); Abandoned(c, m') && m'.main == m.main && MonRank(m') < MonRank(m)
  {
    DoRanks(c, m, l);
    StaysCancelled(c, m, l);
  }

  lemma LeavesNow(c: Check, ls: seq<Label>, m: Mon) returns (ls': seq<Label>, m': Mon)
    requires Offers(c, ls, m) && !m.interrupted && !m.pipe.cancelled
    ensures Leads(c, ls', m') && m' == m.(main := Unwound(ContextDone), pipe := m.pipe.(cancelled := true), interrupted := true)
  {
    ls', m' := Next(c, ls, m, Interrupt);
    ls', m' := Next(c, ls', m', TakeContext);
    ls', m' := Next(c, ls', m', CloseErr);
    ls', m' := Next(c, ls', m', Unwind);
  }

  /** Every check that ought to pass can be interrupted so that the comparator offers its success for ever. */
  lemma SuccessIsLeftBehind(c: Check) returns (ls: seq<Label>, m: Mon)
    requires c.job.countWorkers >= 1 && Agrees(c)
    ensures Leads(c, ls, m) && Over(c, m) && m.main == Unwound(ContextDone) && m.comparator.Succeeding?
  {
    StartUndisturbed(c);
    ls, m := ComesToOffer(c, [], Start(c));
    AtUndisturbed(c, ls, m);
    ls, m := LeavesNow(c, ls, m);
    InitInv(c.job, c.roots);
    RunSound(c, Start(c), ls);
    ls, m := RunsDry(c, ls, m);
  }

  /** An interruption does not take back what the comparator is about to say: if CheckIntegrity looks at that
      first, the verdict is the one without the interruption. */
  lemma InterruptionMayBeOverlooked(c: Check, ls: seq<Label>, m: Mon) returns (ls': seq<Label>, m': Mon)
    requires c.job.countWorkers >= 1 && At(c, ls, m) && m.main.Selecting?
    requires m.comparator.Failing? || m.comparator.Succeeding?
    ensures Leads(c, ls', m') && Interrupt in ls'
    ensures m'.main == Deciding(if m.comparator.Failing? then Rejected(m.comparator.error) else Passed(m.comparator.count))
  {
    AtUndisturbed(c, ls, m);
    ls', m' := Next(c, ls, m, Interrupt);
    ls', m' := Next(c, ls', m', if m.comparator.Failing? then SendErr else SendDone);
  }
}
