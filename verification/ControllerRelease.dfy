/** What every step keeps when Snapshots are created with the controller's finalizer: once it is off,
    nothing is stored under the name it came off with, and nothing leads to an upload any more. */
module ControllerRelease {
  import opened Controller
  import opened ControllerInvariant
  import opened Wrappers

  predicate Gone(v: Option<Snapshot>) {
    v.None? || v.value.deleting
  }

  /** An object that is not being deleted has the finalizer. */
  predicate Guards(v: Option<Snapshot>) {
    !Gone(v) ==> FINALIZER in v.value.finalizers
  }

  /** A cache that still shows an earlier incarnation shows it being deleted. */
  ghost predicate Stale(s: State) {
    forall v :: s.cache <= v < s.born && v < |s.hist| ==> Gone(s.hist[v])
  }

  /** Only versions of the present incarnation are uploaded; what is stored of earlier ones was there when
      it was created. */
  ghost predicate Present(s: State) {
    && (s.pc.Uploading? || s.pc.Reporting? ==> s.born <= s.pc.rv)
    && (forall name :: name in s.stored && s.stored[name] < s.born ==> name in s.former)
  }

  /** The finalizer is off, or there is no object. */
  predicate Released(s: State) {
    Current(s).None? || FINALIZER !in Current(s).value.finalizers
  }

  /** The edit at which the finalizer came off names an object that is not stored; what is stored of this
      incarnation was saved before. */
  ghost predicate Cleaned(w: World, s: State) {
    if s.edits == [] then s.stored == map[]
    else s.settled.Some? && CleanedAt(w, s, s.settled.value)
  }

  ghost predicate CleanedAt(w: World, s: State, r: nat) {
    && r < |s.edits| && Key(w, s.edits[r]).Some? && Key(w, s.edits[r]).value !in s.stored
    && (forall name :: name in s.stored && Alive(s, s.stored[name]) ==> s.hist[s.stored[name]].value.edit <= r)
  }

  /** Nothing the cache can still show leads to an upload, and none is under way. */
  ghost predicate Over(w: World, s: State) {
    && Cleaned(w, s) && !s.pc.Uploading? && !s.pc.Reporting?
    && forall v :: s.cache <= v < |s.hist| ==> Gone(s.hist[v])
  }

  ghost predicate Held(w: World, s: State) {
    && (forall v :: 0 <= v < |s.hist| ==> Guards(s.hist[v]))
    && Stale(s) && Present(s)
    && (Released(s) ==> Over(w, s))
  }

  lemma InitHeld(w: World, store: map<string, string>)
    ensures Held(w, Init(store))
  {
  }

  /* ---------- A new version ---------- */

  lemma GrowsCleaned(w: World, s: State, s': State)
    requires Grows(s, s') && Cleaned(w, s) && Stored(w, s) && s.edits <= s'.edits && s.edits != []
    ensures Cleaned(w, s')
  {
    forall name | name in s'.stored && Alive(s', s'.stored[name])
      ensures s'.hist[s'.stored[name]].value.edit <= s'.settled.value
    {
      assert Holding(w, s, name);
      assert Alive(s, s.stored[name]);
    }
  }

  lemma GrowsOver(w: World, s: State, s': State)
    requires Grows(s, s') && Over(w, s) && Stored(w, s) && s.edits <= s'.edits && s.edits != [] && Gone(Current(s'))
    ensures Over(w, s')
  {
    GrowsCleaned(w, s, s');
  }

  /** One more version, on which the finalizer is as it was or which comes when all is over. */
  lemma GrowsHeld(w: World, s: State, s': State)
    requires Inv(w, s) && Held(w, s) && Grows(s, s') && Current(s).Some? && s.edits <= s'.edits && Guards(Current(s'))
    requires Released(s') && !Released(s) ==> Over(w, s) && Gone(Current(s'))
    requires Gone(Current(s)) ==> Gone(Current(s'))
    ensures Held(w, s')
  {
    assert s.born < |s.hist| && s.edits != [];
    if Released(s') {
      assert Released(s) ==> Gone(Current(s));
      GrowsOver(w, s, s');
    }
  }

  lemma CreateHeld(w: World, s: State, spec: Spec, finalizers: set<string>)
    requires Guarded(w) && Held(w, s) && Allowed(w, s, Create(spec, finalizers))
    ensures Held(w, Step(w, s, Create(spec, finalizers)))
  {
    assert FINALIZER in finalizers;
  }

  /** Changes by others leave the finalizer be. */
  lemma WrittenHeld(w: World, s: State, s': State)
    requires Inv(w, s) && Held(w, s) && Grows(s, s') && Current(s).Some? && s.edits <= s'.edits
    requires Current(s').None? ==> Released(s) && Gone(Current(s))
    requires Current(s').Some? ==>
      && (FINALIZER in Current(s).value.finalizers <==> FINALIZER in Current(s').value.finalizers)
      && (Current(s).value.deleting ==> Current(s').value.deleting)
    ensures Held(w, s')
  {
    GrowsHeld(w, s, s');
  }

  lemma EditSpecHeld(w: World, s: State, spec: Spec)
    requires Inv(w, s) && Held(w, s)
    ensures Held(w, Step(w, s, EditSpec(spec)))
  {
    var s' := Step(w, s, EditSpec(spec));
    if s' != s {
      WrittenHeld(w, s, s');
    }
  }

  /** Changes to the metadata, if they leave the finalizer be. */
  lemma MetadataHeld(w: World, s: State, o: Snapshot)
    requires Inv(w, s) && Held(w, s) && Current(s).Some?
    requires var c := Current(s).value;
      && o == c.(deleting := o.deleting, finalizers := o.finalizers) && (c.deleting ==> o.deleting)
      && (FINALIZER in c.finalizers <==> FINALIZER in o.finalizers)
      && (!c.deleting && o.deleting ==> o.finalizers == c.finalizers)
    ensures Held(w, Append(s, Settled(o)))
  {
    var s' := Append(s, Settled(o));
    assert Guards(Current(s));
    if s' != s {
      WrittenHeld(w, s, s');
    }
  }

  lemma EditFinalizersHeld(w: World, s: State, finalizers: set<string>)
    requires Inv(w, s) && Held(w, s) && Allowed(w, s, EditFinalizers(finalizers))
    ensures Held(w, Step(w, s, EditFinalizers(finalizers)))
  {
    if Current(s).Some? && (Current(s).value.deleting ==> finalizers <= Current(s).value.finalizers) {
      assert Guards(Current(s));
      MetadataHeld(w, s, Current(s).value.(finalizers := finalizers));
    }
  }

  lemma DeleteHeld(w: World, s: State)
    requires Inv(w, s) && Held(w, s)
    ensures Held(w, Step(w, s, Delete))
  {
    if Current(s).Some? {
      MetadataHeld(w, s, Current(s).value.(deleting := true));
    }
  }

  /* ---------- Steps that make no version ---------- */

  /** Nothing new is stored, and nothing new is under way that would lead to an upload. */
  predicate Calm(s: State, s': State) {
    && s'.hist == s.hist && s'.born == s.born && s'.edits == s.edits && s'.former == s.former
    && s'.settled == s.settled && s.cache <= s'.cache
    && (forall name :: name in s'.stored ==> name in s.stored && s'.stored[name] == s.stored[name])
    && (s'.pc.Uploading? ==> s'.pc == s.pc || (s'.pc.rv == s.cache && !Gone(s.hist[s.cache])))
    && (s'.pc.Reporting? ==> (s.pc.Reporting? || s.pc.Uploading?) && s'.pc.rv == s.pc.rv)
  }

  lemma CalmHeld(w: World, s: State, s': State)
    requires Inv(w, s) && Held(w, s) && Calm(s, s')
    ensures Held(w, s')
  {
    if Released(s') && s.edits != [] {
      forall name | name in s'.stored && Alive(s', s'.stored[name])
        ensures s'.hist[s'.stored[name]].value.edit <= s'.settled.value
      {
        assert Alive(s, s.stored[name]);
      }
    }
  }

  lemma QuietCalm(w: World, s: State, l: Label)
    requires l.CacheTo? || l.OtherWrite? || l.Crash? || l.Begin?
    ensures Calm(s, Step(w, s, l))
  {
  }

  lemma GetCalm(w: World, s: State, found: bool)
    ensures Calm(s, Step(w, s, Get(found)))
  {
  }

  lemma RemoveCalm(w: World, s: State, outcome: Outcome)
    ensures Calm(s, Step(w, s, Remove(outcome)))
  {
  }

  lemma SaveHeld(w: World, s: State, outcome: Outcome)
    requires Inv(w, s) && Held(w, s)
    ensures Held(w, Step(w, s, Save(outcome)))
  {
    if s.pc.Uploading? {
      var s' := AfterSave(w, s, outcome);
      SaveShape(w, s, outcome);
      if Put(w, s, s') {
        PutHeld(w, s, s');
      } else {
        CalmHeld(w, s, s');
      }
    }
  }

  lemma PutHeld(w: World, s: State, s': State)
    requires Held(w, s) && Put(w, s, s') && (s'.pc.Idle? || (s'.pc.Reporting? && s'.pc.rv == s.pc.rv))
    ensures Held(w, s')
  {
    assert !Released(s);
  }

  /* ---------- The controller's writes ---------- */

  lemma PutStatusHeld(w: World, s: State, outcome: Outcome)
    requires Inv(w, s) && Held(w, s)
    ensures Held(w, Step(w, s, PutStatus(outcome)))
  {
    if s.pc.Reporting? {
      var t := s.(pc := Idle);
      CalmHeld(w, s, t);
      if Accepts(s, s.pc.rv, outcome) {
        IdleInv(w, s, s.settled);
        assert s.(pc := Idle, settled := s.settled) == t;
        WrittenStatus(s, outcome);
        ReportedHeld(w, t, Reported(s));
      }
    }
  }

  lemma ReportedHeld(w: World, s: State, o: Snapshot)
    requires Inv(w, s) && Held(w, s) && Current(s).Some?
    requires o == Current(s).value.(status := o.status, vouched := o.vouched)
    ensures Held(w, Append(s, Some(o)))
  {
    var s' := Append(s, Some(o));
    assert Guards(Current(s));
    if s' != s {
      WrittenHeld(w, s, s');
    }
  }

  lemma PutFinalizersHeld(w: World, s: State, outcome: Outcome)
    requires Inv(w, s) && Held(w, s)
    ensures Held(w, Step(w, s, PutFinalizers(outcome)))
  {
    if s.pc.Finalizing? {
      if Accepts(s, s.pc.rv, outcome) {
        var t := s.(pc := Idle, settled := Some(Current(s).value.edit));
        ReleasedHeld(w, s, t);
        WrittenFinalizers(s, outcome, t);
      } else {
        CalmHeld(w, s, s.(pc := Idle));
      }
    }
  }

  lemma ReleasedHeld(w: World, s: State, t: State)
    requires Inv(w, s) && Held(w, s) && s.pc.Finalizing? && s.pc.rv == Latest(s) && Current(s).Some?
    requires t == s.(pc := Idle, settled := Some(Current(s).value.edit))
    ensures Held(w, Append(t, Settled(Current(s).value.(finalizers := s.pc.obj.finalizers))))
  {
    CleanedNow(w, s, t);
    IdleInv(w, s, t.settled);
    TakeOffHeld(w, t, Current(s).value.(finalizers := s.pc.obj.finalizers));
  }

  /** The version that the finalizer comes off names an object that is not stored. */
  lemma CleanedNow(w: World, s: State, t: State)
    requires Inv(w, s) && Held(w, s) && s.pc.Finalizing? && s.pc.rv == Latest(s)
    requires t == s.(pc := Idle, settled := Some(Current(s).value.edit))
    ensures Over(w, t) && Held(w, t) && Current(t).value.deleting
  {
    assert s.pc.rv <= s.cache;
    assert Alive(s, Latest(s)) && s.edits[Current(s).value.edit] == SpecAt(s, Latest(s));
    forall name | name in t.stored && Alive(t, t.stored[name])
      ensures t.hist[t.stored[name]].value.edit <= t.settled.value
    {
      assert Alive(s, s.stored[name]);
    }
  }

  lemma TakeOffHeld(w: World, s: State, o: Snapshot)
    requires Inv(w, s) && Held(w, s) && Over(w, s) && Current(s).Some? && Current(s).value.deleting
    requires o == Current(s).value.(finalizers := o.finalizers)
    ensures Held(w, Append(s, Settled(o)))
  {
    var s' := Append(s, Settled(o));
    if s' != s {
      GrowsHeld(w, s, s');
    }
  }

  /* ---------- Every step, every run ---------- */

  lemma StepHeld(w: World, s: State, l: Label)
    requires Guarded(w) && Inv(w, s) && Held(w, s) && Allowed(w, s, l)
    ensures Held(w, Step(w, s, l))
  {
    match l
    case Create(spec, finalizers) => CreateHeld(w, s, spec, finalizers);
    case EditSpec(spec) => EditSpecHeld(w, s, spec);
    case EditFinalizers(finalizers) => EditFinalizersHeld(w, s, finalizers);
    case Delete => DeleteHeld(w, s);
    case Get(found) => GetCalm(w, s, found); CalmHeld(w, s, Step(w, s, l));
    case Remove(outcome) => RemoveCalm(w, s, outcome); CalmHeld(w, s, Step(w, s, l));
    case Save(outcome) => SaveHeld(w, s, outcome);
    case PutStatus(outcome) => PutStatusHeld(w, s, outcome);
    case PutFinalizers(outcome) => PutFinalizersHeld(w, s, outcome);
    case _ => QuietCalm(w, s, l); CalmHeld(w, s, Step(w, s, l));
  }

  lemma {:induction false} RunHeld(w: World, s: State, ls: seq<Label>)
    requires Guarded(w) && Inv(w, s) && Held(w, s) && AllowedRun(w, s, ls)
    ensures Held(w, Exec(w, s, ls))
    decreases |ls|
  {
    if ls != [] {
      StepInv(w, s, ls[0]);
      StepHeld(w, s, ls[0]);
      RunHeld(w, Step(w, s, ls[0]), ls[1..]);
    }
  }

  lemma ReachableHeld(w: World, s: State)
    requires Guarded(w) && Reachable(w, s)
    ensures Held(w, s)
  {
    var store, ls :| Clear(w, store) && AllowedRun(w, Init(store), ls) && Exec(w, Init(store), ls) == s;
    InitInv(w, store);
    InitHeld(w, store);
    RunHeld(w, Init(store), ls);
  }
}
