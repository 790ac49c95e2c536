/** Runs of the controller protocol built step by step: for every unsafe series of edits one that
    ends incoherent, for every stranding one that leaves an object behind, and some that show what happens
    without the assumptions. */
module ControllerRuns {
  import opened Controller
  import opened ControllerInvariant
  import opened ControllerTheorems
  import opened Wrappers
  import ObjectKey

  /** Edits that change something. */
  predicate Changing(edits: seq<Spec>) {
    edits != [] && forall i :: 0 < i < |edits| ==> edits[i - 1] != edits[i]
  }

  predicate AllOwned(w: World, edits: seq<Spec>) {
    forall i :: 0 <= i < |edits| ==> Owned(w, edits[i])
  }

  /** The Snapshot carries edit `i`, with these finalizers, in its first incarnation or one that was
      created when nothing was stored; the controller is at rest. */
  predicate Carries(s: State, edits: seq<Spec>, i: nat, finalizers: set<string>, deleting: bool)
    requires i < |edits|
  {
    && s.pc.Idle? && !s.storage.Broken? && s.former == {}
    && s.edits == edits[..i + 1]
    && Current(s).Some? && Current(s).value.spec == edits[i]
    && Current(s).value.finalizers == finalizers && Current(s).value.deleting == deleting
  }

  ghost predicate AtEdit(w: World, s: State, edits: seq<Spec>, i: nat, finalizers: set<string>)
    requires i < |edits|
  {
    Reachable(w, s) && Carries(s, edits, i, finalizers, false)
  }

  lemma InitReachable(w: World)
    ensures Reachable(w, Init(map[]))
  {
    assert Clear(w, map[]) && AllowedRun(w, Init(map[]), []) && Exec(w, Init(map[]), []) == Init(map[]);
  }

  lemma FirstEdit(w: World, edits: seq<Spec>, finalizers: set<string>) returns (s: State)
    requires edits != [] && AllOwned(w, edits) && w.created(finalizers)
    ensures AtEdit(w, s, edits, 0, finalizers) && s.store == map[] && !Current(s).value.status.isUploaded
  {
    InitReachable(w);
    var l := Create(edits[0], finalizers);
    StepReachable(w, Init(map[]), l);
    s := Step(w, Init(map[]), l);
    assert edits[..1] == [edits[0]];
  }

  lemma {:induction false} EditOn(w: World, s: State, edits: seq<Spec>, i: nat, j: nat,
                                  finalizers: set<string>, deleting: bool) returns (t: State)
    requires i <= j < |edits| && Changing(edits) && AllOwned(w, edits)
    requires Reachable(w, s) && Carries(s, edits, i, finalizers, deleting)
    ensures Reachable(w, t) && Carries(t, edits, j, finalizers, deleting)
    ensures t.store == s.store && Current(t).value.status == Current(s).value.status
    decreases j - i
  {
    t := s;
    if i < j {
      StepReachable(w, s, EditSpec(edits[i + 1]));
      var next := NextEdit(w, s, edits, i, finalizers, deleting);
      t := EditOn(w, next, edits, i + 1, j, finalizers, deleting);
    }
  }

  lemma NextEdit(w: World, s: State, edits: seq<Spec>, i: nat, finalizers: set<string>, deleting: bool)
    returns (t: State)
    requires i + 1 < |edits| && Changing(edits) && Carries(s, edits, i, finalizers, deleting)
    ensures t == Step(w, s, EditSpec(edits[i + 1])) && Carries(t, edits, i + 1, finalizers, deleting)
    ensures t.store == s.store && Current(t).value.status == Current(s).value.status
  {
    assert edits[i] != edits[i + 1];
    assert edits[..i + 1] + [edits[i + 1]] == edits[..i + 2];
    t := Step(w, s, EditSpec(edits[i + 1]));
  }

  lemma CaughtUp(s: State, edits: seq<Spec>, i: nat, finalizers: set<string>, deleting: bool)
    requires i < |edits| && Carries(s, edits, i, finalizers, deleting)
    ensures Carries(CatchUp(s), edits, i, finalizers, deleting) && Rested(CatchUp(s))
    ensures Current(CatchUp(s)) == Current(s) && CatchUp(s).store == s.store
  {
  }

  /** A reconcile that uploads edit `i` and reports it. */
  lemma Upload(w: World, s: State, edits: seq<Spec>, i: nat, finalizers: set<string>) returns (t: State)
    requires i < |edits| && AtEdit(w, s, edits, i, finalizers)
    requires NeedsUpload(w, Current(s).value) && Uploads(w, edits[i])
    ensures AtEdit(w, t, edits, i, finalizers)
    ensures t.store == s.store[Key(w, edits[i]).value := w.decode(edits[i].base64Hashes).value]
    ensures Current(t).value.status == Status(true, w.md5(edits[i].base64Hashes))
  {
    ReconcileReachable(w, s);
    CaughtUp(s, edits, i, finalizers, false);
    t := SavedAndReported(w, CatchUp(s), Key(w, edits[i]).value, w.decode(edits[i].base64Hashes).value);
  }

  lemma SavedAndReported(w: World, s: State, k: string, data: string) returns (t: State)
    requires Reachable(w, s) && Rested(s) && !s.storage.Broken?
    requires Current(s).Some? && !Current(s).value.deleting && NeedsUpload(w, Current(s).value)
    requires Key(w, Current(s).value.spec) == Some(k)
    requires w.decode(Current(s).value.spec.base64Hashes) == Some(data)
    ensures Reachable(w, t)
    ensures var o, rv := Current(s).value, Latest(s);
      t == s.(
        hist := s.hist + [Some(o.(status := Status(true, w.md5(o.spec.base64Hashes)), vouched := rv))],
        store := s.store[k := data], saves := s.saves + [rv], stored := s.stored[k := rv], storage := Ready)
  {
    ReconcileReachable(w, s);
    ReconcileUploads(w, s, k, data);
    t := Reconcile(w, s);
  }

  /** A reconcile whose status write fails. */
  function Unreported(w: World, s: State): State {
    Step(w, Step(w, Step(w, Step(w, s, Begin(true)), Get(true)), Save(Ok)), PutStatus(Fail))
  }

  lemma UnreportedReachable(w: World, s: State)
    requires Reachable(w, s)
    ensures Reachable(w, Unreported(w, s))
  {
    StepReachable(w, s, Begin(true));
    var s1 := Step(w, s, Begin(true));
    StepReachable(w, s1, Get(true));
    var s2 := Step(w, s1, Get(true));
    StepReachable(w, s2, Save(Ok));
    StepReachable(w, Step(w, s2, Save(Ok)), PutStatus(Fail));
  }

  lemma UnreportedSaves(w: World, s: State, k: string, data: string)
    requires Rested(s) && !s.storage.Broken?
    requires Current(s).Some? && !Current(s).value.deleting && NeedsUpload(w, Current(s).value)
    requires Key(w, Current(s).value.spec) == Some(k)
    requires w.decode(Current(s).value.spec.base64Hashes) == Some(data)
    ensures Unreported(w, s) == s.(
      store := s.store[k := data], saves := s.saves + [Latest(s)], stored := s.stored[k := Latest(s)], storage := Ready)
  {
    var o, rv := Current(s).value, Latest(s);
    var s1 := s.(storage := Ready, pc := Fetching);
    var s2 := s1.(pc := Uploading(rv, o));
    assert Step(w, s, Begin(true)) == s1;
    assert Step(w, s1, Get(true)) == s2;
    SavedState(w, s2, rv, o, k, data);
    assert Step(w, s2, Save(Ok)) == AfterSave(w, s2, Ok);
  }

  lemma SavedUnreported(w: World, s: State, k: string, data: string) returns (t: State)
    requires Reachable(w, s) && Rested(s) && !s.storage.Broken?
    requires Current(s).Some? && !Current(s).value.deleting && NeedsUpload(w, Current(s).value)
    requires Key(w, Current(s).value.spec) == Some(k)
    requires w.decode(Current(s).value.spec.base64Hashes) == Some(data)
    ensures Reachable(w, t)
    ensures t == s.(
      store := s.store[k := data], saves := s.saves + [Latest(s)], stored := s.stored[k := Latest(s)], storage := Ready)
  {
    UnreportedReachable(w, s);
    UnreportedSaves(w, s, k, data);
    t := Unreported(w, s);
  }

  /** A reconcile that uploads edit `i` and then fails to report it. */
  lemma UploadUnreported(w: World, s: State, edits: seq<Spec>, i: nat, finalizers: set<string>) returns (t: State)
    requires i < |edits| && AtEdit(w, s, edits, i, finalizers)
    requires NeedsUpload(w, Current(s).value) && Uploads(w, edits[i])
    ensures AtEdit(w, t, edits, i, finalizers)
    ensures t.store == s.store[Key(w, edits[i]).value := w.decode(edits[i].base64Hashes).value]
    ensures Current(t) == Current(s)
  {
    ReconcileReachable(w, s);
    CaughtUp(s, edits, i, finalizers, false);
    var u, name, data := CatchUp(s), Key(w, edits[i]).value, w.decode(edits[i].base64Hashes).value;
    t := SavedUnreported(w, u, name, data);
    SavedCarries(u, edits, i, finalizers, name, data, t);
  }

  lemma SavedCarries(s: State, edits: seq<Spec>, i: nat, finalizers: set<string>, name: string, data: string, t: State)
    requires i < |edits| && Carries(s, edits, i, finalizers, false)
    requires t == s.(store := s.store[name := data], saves := t.saves, stored := t.stored, storage := Ready)
    ensures Carries(t, edits, i, finalizers, false) && Current(t) == Current(s)
  {
  }

  /* ---------- When the status can be trusted ---------- */

  /** Up to edit `j`: its contents, or an earlier edit's of the same name, are the only ones stored, and
      the status is that of an upload that looks like the last edit. */
  lemma Confused(w: World, edits: seq<Spec>, finalizers: set<string>, i: nat, j: nat) returns (s: State)
    requires Changing(edits) && AllOwned(w, edits) && w.created(finalizers) && i <= j < |edits|
    requires Confuses(w, edits, i, j) && Key(w, edits[i]) == Key(w, edits[|edits| - 1])
    ensures AtEdit(w, s, edits, j, finalizers)
    ensures s.store == map[Key(w, edits[i]).value := w.decode(edits[j].base64Hashes).value]
    ensures Current(s).value.status == Status(true, w.md5(edits[|edits| - 1].base64Hashes))
  {
    s := FirstEdit(w, edits, finalizers);
    if w.md5(edits[j].base64Hashes) == w.md5(edits[|edits| - 1].base64Hashes) {
      s := EditOn(w, s, edits, 0, j, finalizers, false);
      s := Upload(w, s, edits, j, finalizers);
    } else {
      s := UploadedThenEdited(w, edits, finalizers, i, j);
      s := UploadUnreported(w, s, edits, j, finalizers);
    }
  }

  /** For every unsafe series of edits there is a run that ends with a status claiming an upload
      that the store contradicts. */
  lemma UnsafeRun(w: World, edits: seq<Spec>, finalizers: set<string>) returns (s: State)
    requires Changing(edits) && AllOwned(w, edits) && w.created(finalizers) && Unsafe(w, edits)
    ensures Reachable(w, s) && s.edits == edits && !Coherent(w, s)
  {
    var n := |edits| - 1;
    var i, j :| 0 <= i <= j < |edits| && Confuses(w, edits, i, j);
    if Key(w, edits[i]) == Key(w, edits[n]) {
      s := Confused(w, edits, finalizers, i, j);
      s := EditOn(w, s, edits, j, n, finalizers, false);
    } else {
      s := UploadedThenEdited(w, edits, finalizers, i, n);
    }
    assert edits[..n + 1] == edits;
  }

  /** The status can be trusted, in every run with these edits of image, algorithm and hashes, exactly
      when the edits are safe. */
  lemma CoherentExactlyWhenSafe(w: World, edits: seq<Spec>, finalizers: set<string>)
    requires Changing(edits) && AllOwned(w, edits) && w.created(finalizers)
    ensures (forall s :: Reachable(w, s) && s.edits == edits ==> Coherent(w, s)) <==> !Unsafe(w, edits)
  {
    if Unsafe(w, edits) {
      var s := UnsafeRun(w, edits, finalizers);
    } else {
      forall s | Reachable(w, s) && s.edits == edits ensures Coherent(w, s) {
        ReachableInv(w, s);
        SafeIsCoherent(w, s);
      }
    }
  }

  /** Edits are safe when md5 tells the last hashes apart from the earlier ones, and they were not there
      before other hashes, or under another name. An upgrade of the image with new hashes is safe. */
  lemma NoRevertIsSafe(w: World, edits: seq<Spec>)
    requires NoRevert(w, edits)
    ensures !Unsafe(w, edits)
  {
    forall i, j | 0 <= i <= j < |edits| ensures !Confuses(w, edits, i, j) {
      if edits[i].base64Hashes == edits[|edits| - 1].base64Hashes {
        SameHashesSafe(w, edits, i, j);
      }
    }
  }

  predicate NoRevert(w: World, edits: seq<Spec>) {
    var n := |edits| - 1;
    && (forall i :: 0 <= i < n && w.md5(edits[i].base64Hashes) == w.md5(edits[n].base64Hashes) ==>
          edits[i].base64Hashes == edits[n].base64Hashes)
    && (forall i, j :: 0 <= i < j < n && edits[i].base64Hashes == edits[n].base64Hashes ==>
          edits[j].base64Hashes == edits[n].base64Hashes)
    && (forall i :: 0 <= i < n && edits[i].base64Hashes == edits[n].base64Hashes ==> Key(w, edits[i]) == Key(w, edits[n]))
  }

  lemma SameHashesSafe(w: World, edits: seq<Spec>, i: nat, j: nat)
    requires NoRevert(w, edits) && i <= j < |edits| && edits[i].base64Hashes == edits[|edits| - 1].base64Hashes
    ensures !Confuses(w, edits, i, j)
  {
    var n := |edits| - 1;
    assert Key(w, edits[i]) == Key(w, edits[n]);
    assert edits[j].base64Hashes == edits[n].base64Hashes;
  }

  /* ---------- When a deleted Snapshot leaves nothing behind ---------- */

  const FOREIGN := "foreign/finalizer"

  /** The finalizer of some other controller is put on as well. */
  lemma Shared(w: World, s: State, edits: seq<Spec>, i: nat, finalizers: set<string>) returns (t: State)
    requires i < |edits| && AtEdit(w, s, edits, i, finalizers)
    ensures AtEdit(w, t, edits, i, finalizers + {FOREIGN}) && t.store == s.store
  {
    var l := EditFinalizers(finalizers + {FOREIGN});
    StepReachable(w, s, l);
    t := Step(w, s, l);
  }

  /** Deleted, and finalized at once by an undisturbed reconcile; the other finalizer keeps it. */
  lemma DeletedAndReleased(w: World, s: State, edits: seq<Spec>, r: nat, finalizers: set<string>) returns (t: State)
    requires r < |edits| && AtEdit(w, s, edits, r, finalizers) && FOREIGN in finalizers && Key(w, edits[r]).Some?
    ensures Reachable(w, t) && Carries(t, edits, r, finalizers - {FINALIZER}, true)
    ensures t.store == s.store - {Key(w, edits[r]).value}
  {
    assert FOREIGN in finalizers - {FINALIZER} by { assert FOREIGN[0] != FINALIZER[0]; }
    StepReachable(w, s, Delete);
    DeleteIs(w, s);
    var u := Step(w, s, Delete);
    assert Carries(u, edits, r, finalizers, true);
    ReconcileReachable(w, u);
    CaughtUp(u, edits, r, finalizers, true);
    t := Removed(w, CatchUp(u), Key(w, edits[r]).value);
  }

  lemma Removed(w: World, s: State, k: string) returns (t: State)
    requires Reachable(w, s) && Rested(s) && !s.storage.Broken?
    requires Current(s).Some? && Current(s).value.deleting && Current(s).value.finalizers - {FINALIZER} != {}
    requires Key(w, Current(s).value.spec) == Some(k)
    ensures Reachable(w, t) && t.store == s.store - {k} && t.pc.Idle? && t.storage.Ready?
    ensures t.edits == s.edits && t.former == s.former
    ensures var o := Current(s).value; Current(t) == Some(o.(finalizers := o.finalizers - {FINALIZER}))
  {
    ReconcileReachable(w, s);
    ReconcileRemoves(w, s, k);
    t := Reconcile(w, s);
    OffButKept(s, Current(s).value.(finalizers := Current(s).value.finalizers - {FINALIZER}));
  }

  lemma OffButKept(s: State, o: Snapshot)
    requires Current(s).Some? && o.finalizers != {}
    ensures var t := Append(s, Settled(o)); Current(t) == Some(o) && t == s.(hist := t.hist)
  {
  }

  lemma DeleteIs(w: World, s: State)
    requires Current(s).Some? && !Current(s).value.deleting
    ensures Step(w, s, Delete) == s.(hist := s.hist + [Settled(Current(s).value.(deleting := true))])
  {
  }

  lemma EmptyIs(w: World, s: State)
    requires Current(s).Some? && Current(s).value.deleting
    ensures Step(w, s, EditFinalizers({})) == s.(hist := s.hist + [None])
  {
  }

  /** Deleted, and gone without the controller. */
  lemma DeletedUnseen(w: World, s: State) returns (t: State)
    requires Reachable(w, s) && Current(s).Some? && !Current(s).value.deleting && FINALIZER !in Current(s).value.finalizers
    ensures Reachable(w, t) && Current(t).None? && t == s.(hist := t.hist)
  {
    StepReachable(w, s, Delete);
    DeleteIs(w, s);
    t := Step(w, s, Delete);
    if Current(t).Some? {
      EmptyIs(w, t);
      StepReachable(w, t, EditFinalizers({}));
      t := Step(w, t, EditFinalizers({}));
    }
  }

  /** The other finalizers come off. */
  lemma LetGo(w: World, s: State, edits: seq<Spec>, i: nat, finalizers: set<string>) returns (t: State)
    requires i < |edits| && Reachable(w, s) && Carries(s, edits, i, finalizers, true) && FINALIZER !in finalizers
    ensures Reachable(w, t) && Current(t).None? && t.store == s.store && t.edits == s.edits && t.former == {}
    ensures t.pc.Idle?
  {
    StepReachable(w, s, EditFinalizers({}));
    EmptyIs(w, s);
    t := Step(w, s, EditFinalizers({}));
  }

  /** For every series of edits that strands an object, a run in which the Snapshot is deleted, by the
      book, and the object stays. */
  lemma StrandedRun(w: World, edits: seq<Spec>, finalizers: set<string>) returns (s: State)
    requires Changing(edits) && AllOwned(w, edits) && w.created(finalizers) && Strands(w, edits)
    ensures Reachable(w, s) && Current(s).None? && s.edits == edits && s.former == {} && !Clear(w, s.store)
  {
    var i, r :| 0 <= i < r < |edits| && StrandsAt(w, edits, i, r);
    var n, all := |edits| - 1, finalizers + {FOREIGN};
    s := UploadedThenEdited(w, edits, finalizers, i, r);
    var stored := s.store;
    s := Shared(w, s, edits, r, finalizers);
    s := DeletedAndReleased(w, s, edits, r, all);
    s := EditOn(w, s, edits, r, n, all - {FINALIZER}, true);
    s := LetGo(w, s, edits, n, all - {FINALIZER});
    assert edits[..n + 1] == edits;
    StillStored(w, s.store, stored, Key(w, edits[i]).value, Key(w, edits[r]).value);
  }

  lemma StillStored(w: World, store: map<string, string>, before: map<string, string>, name: string, removed: string)
    requires name in before && store == before - {removed} && name != removed && w.ours(name)
    ensures !Clear(w, store)
  {
    assert name in store;
  }

  lemma UploadedThenEdited(w: World, edits: seq<Spec>, finalizers: set<string>, i: nat, j: nat) returns (s: State)
    requires Changing(edits) && AllOwned(w, edits) && w.created(finalizers) && i <= j < |edits| && Uploads(w, edits[i])
    ensures AtEdit(w, s, edits, j, finalizers) && Current(s).value.status == Status(true, w.md5(edits[i].base64Hashes))
    ensures s.store == map[Key(w, edits[i]).value := w.decode(edits[i].base64Hashes).value]
  {
    s := FirstEdit(w, edits, finalizers);
    s := EditOn(w, s, edits, 0, i, finalizers, false);
    s := Upload(w, s, edits, i, finalizers);
    s := EditOn(w, s, edits, i, j, finalizers, false);
  }

  /** Created without the controller's finalizer: whatever the edits, there is a run that leaves an object
      behind. A reconcile is about to save what it fetched when its Snapshot is deleted and created again. */
  lemma UnguardedRun(w: World, edits: seq<Spec>, finalizers: set<string>, earlier: Spec) returns (s: State)
    requires Changing(edits) && AllOwned(w, edits) && w.created(finalizers) && FINALIZER !in finalizers
    requires Uploads(w, earlier) && Owned(w, earlier)
    ensures Reachable(w, s) && Current(s).None? && s.edits == edits && s.former == {} && !Clear(w, s.store)
  {
    var rv, o, edited := EditedMeanwhile(w, edits, finalizers, earlier);
    var gone := DeletedUnseen(w, edited);
    s := SavedLate(w, gone, rv, o);
  }

  lemma EditedMeanwhile(w: World, edits: seq<Spec>, finalizers: set<string>, earlier: Spec)
    returns (rv: nat, o: Snapshot, t: State)
    requires Changing(edits) && AllOwned(w, edits) && w.created(finalizers) && FINALIZER !in finalizers
    requires Uploads(w, earlier) && Owned(w, earlier)
    ensures Reachable(w, t) && t.pc == Uploading(rv, o) && o.spec == earlier && t.edits == edits && t.former == {}
    ensures Current(t).Some? && !Current(t).value.deleting && FINALIZER !in Current(t).value.finalizers
  {
    var fetched;
    rv, o, fetched := FetchedAndGone(w, earlier, finalizers);
    t := EditedBusy(w, fetched, edits, finalizers);
  }

  lemma EditedBusy(w: World, s: State, edits: seq<Spec>, finalizers: set<string>) returns (t: State)
    requires Changing(edits) && AllOwned(w, edits) && w.created(finalizers) && FINALIZER !in finalizers
    requires Reachable(w, s) && Current(s).None? && s.stored == map[] && s.pc.Uploading?
    ensures Reachable(w, t) && t.pc == s.pc && t.edits == edits && t.former == {}
    ensures Current(t).Some? && !Current(t).value.deleting && FINALIZER !in Current(t).value.finalizers
  {
    var u := CreatedBusy(w, s, edits, finalizers);
    t := EditBusy(w, u, edits, 0);
  }

  lemma CreatedBusy(w: World, s: State, edits: seq<Spec>, finalizers: set<string>) returns (t: State)
    requires edits != [] && AllOwned(w, edits) && w.created(finalizers) && FINALIZER !in finalizers
    requires Reachable(w, s) && Current(s).None? && s.stored == map[]
    ensures Reachable(w, t) && t.pc == s.pc && t.edits == edits[..1] && t.former == {}
    ensures Current(t).Some? && !Current(t).value.deleting && Current(t).value.spec == edits[0]
    ensures FINALIZER !in Current(t).value.finalizers
  {
    StepReachable(w, s, Create(edits[0], finalizers));
    t := Step(w, s, Create(edits[0], finalizers));
    assert edits[..1] == [edits[0]];
  }

  lemma SavedLate(w: World, s: State, rv: nat, o: Snapshot) returns (t: State)
    requires Reachable(w, s) && s.pc == Uploading(rv, o) && Uploads(w, o.spec) && Owned(w, o.spec)
    ensures Reachable(w, t) && t.hist == s.hist && t.edits == s.edits && t.former == s.former && !Clear(w, t.store)
  {
    StepReachable(w, s, Save(Ok));
    SavedState(w, s, rv, o, Key(w, o.spec).value, w.decode(o.spec.base64Hashes).value);
    t := Step(w, s, Save(Ok));
    assert t == AfterSave(w, s, Ok) && Key(w, o.spec).value in t.store;
  }

  /** The reconciler holds a copy of a Snapshot that is gone. */
  lemma FetchedAndGone(w: World, earlier: Spec, finalizers: set<string>) returns (rv: nat, o: Snapshot, s: State)
    requires w.created(finalizers) && FINALIZER !in finalizers && Uploads(w, earlier) && Owned(w, earlier)
    ensures Reachable(w, s) && Current(s).None? && s.pc == Uploading(rv, o) && o.spec == earlier && s.stored == map[]
  {
    InitReachable(w);
    StepReachable(w, Init(map[]), Create(earlier, finalizers));
    s := Step(w, Init(map[]), Create(earlier, finalizers));
    s := FetchedFresh(w, s);
    rv, o := s.pc.rv, s.pc.obj;
    s := DeletedUnseen(w, s);
  }

  lemma FetchedFresh(w: World, s: State) returns (t: State)
    requires Reachable(w, s) && s.pc.Idle? && !s.storage.Broken? && s.cache < Latest(s)
    requires Current(s).Some? && !Current(s).value.deleting && NeedsUpload(w, Current(s).value)
    ensures Reachable(w, t) && t.hist == s.hist && t.stored == s.stored
    ensures t.pc == Uploading(Latest(s), Current(s).value)
  {
    StepReachable(w, s, CacheTo(Latest(s)));
    t := Step(w, s, CacheTo(Latest(s)));
    StepReachable(w, t, Begin(true));
    t := Step(w, t, Begin(true));
    StepReachable(w, t, Get(true));
    assert Step(w, t, Get(true)).pc == Dispatch(w, Latest(s), Current(s).value);
    t := Step(w, t, Get(true));
  }

  /** Editing goes on while the reconciler is busy with an old copy. */
  lemma {:induction false} EditBusy(w: World, s: State, edits: seq<Spec>, i: nat) returns (t: State)
    requires i < |edits| && Changing(edits) && AllOwned(w, edits)
    requires Reachable(w, s) && s.pc.Uploading? && s.edits == edits[..i + 1] && s.former == {}
    requires Current(s).Some? && !Current(s).value.deleting && Current(s).value.spec == edits[i]
    requires FINALIZER !in Current(s).value.finalizers
    ensures Reachable(w, t) && t.pc == s.pc && t.edits == edits && t.former == {}
    ensures Current(t).Some? && !Current(t).value.deleting && FINALIZER !in Current(t).value.finalizers
    decreases |edits| - i
  {
    t := s;
    if i + 1 < |edits| {
      StepReachable(w, s, EditSpec(edits[i + 1]));
      assert edits[i] != edits[i + 1];
      assert edits[..i + 1] + [edits[i + 1]] == edits[..i + 2];
      t := EditBusy(w, Step(w, s, EditSpec(edits[i + 1])), edits, i + 1);
    } else {
      assert edits[..i + 1] == edits;
    }
  }

  /** In every run with these edits a Snapshot that is gone has nothing left in the store, if and only if
      Snapshots are always created with the controller's finalizer and no edit strands an earlier one.
      (Some spec can be uploaded at all; nothing was stored when the Snapshot was created.) */
  lemma RemovedExactlyWhen(w: World, edits: seq<Spec>, finalizers: set<string>, some: Spec)
    requires Changing(edits) && AllOwned(w, edits) && w.created(finalizers)
    requires Uploads(w, some) && Owned(w, some)
    ensures (forall s :: Reachable(w, s) && Current(s).None? && s.edits == edits && s.former == {} ==> Clear(w, s.store))
       <==> Guarded(w) && !Strands(w, edits)
  {
    if !Guarded(w) {
      var unguarded :| w.created(unguarded) && FINALIZER !in unguarded;
      var s := UnguardedRun(w, edits, unguarded, some);
    } else if Strands(w, edits) {
      var s := StrandedRun(w, edits, finalizers);
    } else {
      forall s | Reachable(w, s) && Current(s).None? && s.edits == edits && s.former == {} ensures Clear(w, s.store) {
        NothingLeftUnlessStranded(w, s);
      }
    }
  }

  /** If image and algorithm keep their values, or change only so that the name stays, a deleted Snapshot
      leaves nothing behind. */
  lemma OneNameLeavesNothing(w: World, s: State)
    requires Guarded(w) && Reachable(w, s) && Current(s).None? && s.former == {}
    requires forall i, j :: 0 <= i < j < |s.edits| ==> Key(w, s.edits[i]) == Key(w, s.edits[j])
    ensures Clear(w, s.store)
  {
    assert !Strands(w, s.edits);
    NothingLeftUnlessStranded(w, s);
  }

  /** A Snapshot created with whatever finalizers but the controller's, uploaded and deleted: its object
      stays. */
  lemma NoFinalizerLeavesObject(w: World, spec: Spec, finalizers: set<string>) returns (s: State)
    requires w.created(finalizers) && FINALIZER !in finalizers && Uploads(w, spec) && Owned(w, spec)
    ensures Reachable(w, s) && Current(s).None? && s.pc.Idle? && Key(w, spec).value in s.store
  {
    s := UploadedAtOnce(w, spec, finalizers);
    s := DeletedUnseen(w, s);
  }

  /** A change of image leads to nothing: the status goes on claiming an upload, a reconcile finds
      nothing to do, and no object has the new image's name. */
  lemma ImageEditIsNotUploaded(w: World, spec: Spec, image: string, finalizers: set<string>) returns (s: State)
    requires w.created(finalizers) && Uploads(w, spec) && Owned(w, spec) && Owned(w, spec.(image := image))
    requires Key(w, spec.(image := image)) != Key(w, spec)
    ensures Reachable(w, s) && Current(s).Some? && Current(s).value.spec == spec.(image := image)
    ensures ClaimsUpload(w, s) && NotStored(w, s, spec.(image := image))
    ensures Rested(s) && Reconcile(w, s).store == s.store && Reconcile(w, s).hist == s.hist
  {
    var edits := [spec, spec.(image := image)];
    s := FirstEdit(w, edits, finalizers);
    s := Upload(w, s, edits, 0, finalizers);
    s := EditOn(w, s, edits, 0, 1, finalizers, false);
    ReconcileReachable(w, s);
    CaughtUp(s, edits, 1, finalizers, false);
    s := CatchUp(s);
    ReconcileRests(w, s);
  }

  /* ---------- One step outside the assumptions ---------- */

  /** Uploaded by its first reconcile, under these finalizers. */
  lemma UploadedAtOnce(w: World, spec: Spec, finalizers: set<string>) returns (s: State)
    requires w.created(finalizers) && Uploads(w, spec) && Owned(w, spec)
    ensures AtEdit(w, s, [spec], 0, finalizers)
    ensures s.store == map[Key(w, spec).value := w.decode(spec.base64Hashes).value]
    ensures Current(s).value.status == Status(true, w.md5(spec.base64Hashes))
  {
    s := FirstEdit(w, [spec], finalizers);
    s := Upload(w, s, [spec], 0, finalizers);
  }

  /** Someone else takes the finalizer off before the controller gets to it: the object stays. */
  lemma ForeignRemovalLeavesObject(w: World, spec: Spec, finalizers: set<string>) returns (s: State, t: State)
    requires w.created(finalizers) && FINALIZER in finalizers && Uploads(w, spec) && Owned(w, spec)
    ensures Reachable(w, s) && t == Step(w, s, EditFinalizers({}))
    ensures Current(t).None? && t.pc.Idle? && Key(w, spec).value in t.store
  {
    s := UploadedAtOnce(w, spec, finalizers);
    StepReachable(w, s, Delete);
    DeleteIs(w, s);
    s := Step(w, s, Delete);
    EmptyIs(w, s);
    t := Step(w, s, EditFinalizers({}));
  }

  /** Two Snapshots with one name, as all tags of an image have whose registry has a port. `a` is what
      the first looks like, `b` the second: it was uploaded earlier, then `a` wrote under the name, and
      now `b` is deleted. Its removal takes the object away from `a`, whose status goes on claiming the
      upload and whose reconciles do nothing about it. */
  lemma SharedNameLosesObject(w: World, one: Spec, other: Spec, finalizers: set<string>)
    returns (a: State, b: State, name: string, data: string)
    requires w.created(finalizers) && FINALIZER in finalizers
    requires Uploads(w, one) && Owned(w, one) && Uploads(w, other) && Owned(w, other) && Key(w, one) == Key(w, other)
    ensures Key(w, one) == Some(name) && Reachable(w, a) && Reachable(w, b)
    ensures var b' := CatchUp(Step(w, Step(w, b, OtherWrite(name, Some(data))), Delete));
      var a' := CatchUp(Step(w, a, OtherWrite(name, None)));
      && b'.store == a.store && Reconcile(w, b').store == a'.store
      && ClaimsUpload(w, a') && !Coherent(w, a')
      && Reconcile(w, a').hist == a'.hist && Reconcile(w, a').store == a'.store
  {
    name, data := Key(w, one).value, w.decode(one.base64Hashes).value;
    a := UploadedAtOnce(w, one, finalizers);
    b := UploadedAtOnce(w, other, finalizers);
    OtherIsRemoved(w, b, name, data);
    ObjectIsLost(w, a, name);
  }

  lemma OtherIsRemoved(w: World, b: State, name: string, data: string)
    requires b.pc.Idle? && !b.storage.Broken? && Current(b).Some? && !Current(b).value.deleting
    requires FINALIZER in Current(b).value.finalizers && Key(w, Current(b).value.spec) == Some(name)
    requires name in b.store && b.store == map[name := b.store[name]]
    ensures var b' := CatchUp(Step(w, Step(w, b, OtherWrite(name, Some(data))), Delete));
      b'.store == map[name := data] && Reconcile(w, b').store == map[]
  {
    var b1 := Step(w, b, OtherWrite(name, Some(data)));
    var b2 := Step(w, b1, Delete);
    assert Current(b2) == Some(Current(b).value.(deleting := true));
    ReconcileRemoves(w, CatchUp(b2), name);
    assert b1.store - {name} == map[];
  }

  lemma ObjectIsLost(w: World, a: State, name: string)
    requires a.pc.Idle? && !a.storage.Broken? && ClaimsUpload(w, a)
    requires Key(w, Current(a).value.spec) == Some(name) && name in a.store && a.store == map[name := a.store[name]]
    ensures var a' := CatchUp(Step(w, a, OtherWrite(name, None)));
      && a'.store == map[] && ClaimsUpload(w, a') && !Coherent(w, a')
      && Reconcile(w, a').hist == a'.hist && Reconcile(w, a').store == a'.store
  {
    var a1 := Step(w, a, OtherWrite(name, None));
    assert a1.store == a.store - {name} == map[];
    ReconcileRests(w, CatchUp(a1));
  }

  /** Two tags of such an image do have one name. */
  lemma TagsShareName(w: World, namespace: string, host: string, repository: string, tag: string, tag': string, one: Spec, other: Spec)
    requires Named(w, namespace) && ':' !in host && ':' !in repository && one.algorithm == other.algorithm
    requires one.image == host + ":" + repository + ":" + tag && other.image == host + ":" + repository + ":" + tag'
    ensures Key(w, one).Some? && Key(w, one) == Key(w, other)
  {
    ObjectKey.RegistryPortLosesTag(namespace, host, repository, tag, tag', one.algorithm);
  }

  /** The cache may come to show any version from the one it shows to the latest. */
  lemma CacheMayLag(w: World, s: State, rv: nat) returns (t: State)
    requires Reachable(w, s) && s.cache <= rv <= Latest(s)
    ensures Reachable(w, t) && t == s.(cache := rv)
  {
    t := Step(w, s, CacheTo(rv));
    StepReachable(w, s, CacheTo(rv));
  }
}
