/** What the controller protocol guarantees over whole runs, and where it stops doing so. */
module ControllerTheorems {
  import opened Controller
  import opened ControllerInvariant
  import opened ControllerRelease
  import opened Wrappers

  /* ---------- Deletion ---------- */

  /** Edit `i` uploads, and edit `r`, a later one, has another name that can be removed. */
  predicate StrandsAt(w: World, edits: seq<Spec>, i: nat, r: nat)
    requires i < r < |edits|
  {
    Uploads(w, edits[i]) && Key(w, edits[r]).Some? && Key(w, edits[i]) != Key(w, edits[r])
  }

  ghost predicate Strands(w: World, edits: seq<Spec>) {
    exists i, r :: 0 <= i < r < |edits| && StrandsAt(w, edits, i, r)
  }

  /** When a Snapshot is gone from the API, or the controller has taken its finalizer off, nothing is
      stored under the name it had then; whatever is still stored under its names was there before it
      was created, or is what an earlier edit, with another name, uploaded. */
  lemma GoneMeansRemoved(w: World, s: State)
    requires Guarded(w) && Reachable(w, s) && Released(s) && s.edits != []
    ensures s.settled.Some? && s.settled.value < |s.edits|
    ensures var r := s.settled.value;
      && Key(w, s.edits[r]).Some? && Key(w, s.edits[r]).value !in s.stored
      && forall name :: name in s.store && w.ours(name) ==>
           name in s.former || exists i :: 0 <= i < r && StrandsAt(w, s.edits, i, r) && Key(w, s.edits[i]) == Some(name)
  {
    ReachableInv(w, s);
    ReachableHeld(w, s);
    var r := s.settled.value;
    forall name | name in s.store && w.ours(name) && name !in s.former
      ensures exists i :: 0 <= i < r && StrandsAt(w, s.edits, i, r) && Key(w, s.edits[i]) == Some(name)
    {
      var i := LeftBehind(w, s, name);
      assert StrandsAt(w, s.edits, i, r);
    }
  }

  lemma LeftBehind(w: World, s: State, name: string) returns (i: nat)
    requires Inv(w, s) && Held(w, s) && Released(s) && s.edits != []
    requires name in s.store && w.ours(name) && name !in s.former
    ensures i < s.settled.value < |s.edits| && StrandsAt(w, s.edits, i, s.settled.value)
    ensures Key(w, s.edits[i]) == Some(name)
  {
    assert Holding(w, s, name) && CleanedAt(w, s, s.settled.value);
    i := SavedInEdit(w, s, name);
    Stranded(w, s, name, i, s.settled.value);
  }

  /** The edit whose contents are stored under a name. */
  lemma SavedInEdit(w: World, s: State, name: string) returns (i: nat)
    requires Shape(w, s) && Present(s) && name in s.stored && Holding(w, s, name) && name !in s.former
    ensures Alive(s, s.stored[name]) && i == s.hist[s.stored[name]].value.edit
    ensures i < |s.edits| && Uploads(w, s.edits[i]) && Key(w, s.edits[i]) == Some(name)
  {
    var v := s.stored[name];
    assert Alive(s, v);
    i := s.hist[v].value.edit;
    assert s.edits[i] == SpecAt(s, v);
  }

  lemma Stranded(w: World, s: State, name: string, i: nat, r: nat)
    requires CleanedAt(w, s, r) && name in s.stored && Alive(s, s.stored[name])
    requires i == s.hist[s.stored[name]].value.edit && i < |s.edits| && Uploads(w, s.edits[i])
    requires Key(w, s.edits[i]) == Some(name)
    ensures i < r < |s.edits| && StrandsAt(w, s.edits, i, r)
  {
    assert i <= r;
  }

  /** If no edit strands an earlier one, nothing at all is left. */
  lemma NothingLeftUnlessStranded(w: World, s: State)
    requires Guarded(w) && Reachable(w, s) && Released(s) && s.former == {} && !Strands(w, s.edits)
    ensures Clear(w, s.store)
  {
    ReachableInv(w, s);
    ReachableHeld(w, s);
    if s.edits != [] {
      GoneMeansRemoved(w, s);
    }
  }

  predicate NoCreate(ls: seq<Label>) {
    forall i :: 0 <= i < |ls| ==> !ls[i].Create?
  }

  /** Of the Snapshot's own names, `after` has none that `before` does not have. */
  ghost predicate NothingNew(w: World, before: map<string, string>, after: map<string, string>) {
    forall name :: name in after && w.ours(name) ==> name in before
  }

  /** Unless the Snapshot is created again, nothing that happens later, a reconcile of a stale copy
      included, puts an object back. */
  lemma {:induction false} RemovedStaysRemoved(w: World, s: State, ls: seq<Label>)
    requires Guarded(w) && Reachable(w, s) && Current(s).None? && AllowedRun(w, s, ls) && NoCreate(ls)
    ensures Current(Exec(w, s, ls)).None? && NothingNew(w, s.store, Exec(w, s, ls).store)
    decreases |ls|
  {
    if ls != [] {
      ReachableHeld(w, s);
      NothingPutBack(w, s, ls[0]);
      StepReachable(w, s, ls[0]);
      RemovedStaysRemoved(w, Step(w, s, ls[0]), ls[1..]);
    }
  }

  lemma NothingPutBack(w: World, s: State, l: Label)
    requires Over(w, s) && Current(s).None? && Allowed(w, s, l) && !l.Create?
    ensures Current(Step(w, s, l)).None? && NothingNew(w, s.store, Step(w, s, l).store)
  {
  }

  /* ---------- No stale overwrite ---------- */

  /** The versions whose contents are saved never go back in time; what is stored under a name is the
      content of the last version saved under it, and that is no older than what any uploaded status of
      this incarnation was written for under that name. */
  lemma NoStaleOverwrite(w: World, s: State)
    requires Reachable(w, s)
    ensures forall i, j :: 0 <= i < j < |s.saves| ==> s.saves[i] <= s.saves[j]
    ensures forall name :: name in s.store && w.ours(name) ==> name in s.stored && LastUnder(w, s, name, s.stored[name])
  {
    ReachableInv(w, s);
    forall name | name in s.store && w.ours(name) ensures name in s.stored && LastUnder(w, s, name, s.stored[name]) {
      assert Holding(w, s, name);
      VouchedUnder(w, s, name);
    }
  }

  /** Version `u` of this incarnation has an uploaded status, written for a version saved under a name. */
  predicate Claims(w: World, s: State, u: nat, name: string) {
    Alive(s, u) && s.hist[u].value.status.isUploaded && SavedAs(w, s, s.hist[u].value.vouched, name)
  }

  ghost predicate LastUnder(w: World, s: State, name: string, v: nat) {
    && v in s.saves && SavedAs(w, s, v, name)
    && name in s.store && w.decode(SpecAt(s, v).base64Hashes) == Some(s.store[name])
    && (forall u :: u in s.saves && SavedAs(w, s, u, name) ==> u <= v)
    && (forall u: nat :: Claims(w, s, u, name) ==> s.hist[u].value.vouched <= v)
  }

  lemma VouchedUnder(w: World, s: State, name: string)
    requires Vouches(w, s) && name in s.stored && Holding(w, s, name)
    ensures forall u: nat :: Claims(w, s, u, name) ==> s.hist[u].value.vouched <= s.stored[name]
  {
    forall u: nat | Claims(w, s, u, name) ensures s.hist[u].value.vouched <= s.stored[name] {
      assert Vouched(w, s, u);
    }
  }

  /* ---------- Coherence ---------- */

  predicate ClaimsUpload(w: World, s: State) {
    && Current(s).Some?
    && var o := Current(s).value;
    && !o.deleting && o.status.isUploaded && o.status.controlHash == w.md5(o.spec.base64Hashes)
  }

  /** If the status claims that the present contents are uploaded, the store holds just their decoding
      under the present name. */
  predicate Coherent(w: World, s: State) {
    ClaimsUpload(w, s) ==>
      var spec := Current(s).value.spec;
      && Key(w, spec).Some? && Key(w, spec).value in s.store
      && w.decode(spec.base64Hashes) == Some(s.store[Key(w, spec).value])
  }

  /** Edit `i` uploads and looks like the last edit; and it has another name than that, or edit `j`, the
      same or a later one, uploads something else than the last edit's contents under the last name. */
  predicate Confuses(w: World, edits: seq<Spec>, i: nat, j: nat)
    requires i <= j < |edits|
  {
    var last := edits[|edits| - 1];
    && Uploads(w, edits[i]) && w.md5(edits[i].base64Hashes) == w.md5(last.base64Hashes)
    && (Key(w, edits[i]) != Key(w, last)
        || (Key(w, edits[j]) == Key(w, last) && w.decode(edits[j].base64Hashes).Some?
            && w.decode(edits[j].base64Hashes) != w.decode(last.base64Hashes)))
  }

  ghost predicate Unsafe(w: World, edits: seq<Spec>) {
    exists i, j :: 0 <= i <= j < |edits| && Confuses(w, edits, i, j)
  }

  lemma SafeIsCoherent(w: World, s: State)
    requires Inv(w, s) && !Unsafe(w, s.edits)
    ensures Coherent(w, s)
  {
    if ClaimsUpload(w, s) {
      var eu, ej, name := BehindTheClaim(w, s);
      BehindIsCoherent(w, s, eu, ej, name);
    }
  }

  /** The edit that the status was written for, and the one whose contents are stored under its name. */
  ghost predicate Behind(w: World, s: State, eu: nat, ej: nat, name: string) {
    && eu <= ej < |s.edits| && Current(s).Some? && Current(s).value.spec == s.edits[|s.edits| - 1]
    && Uploads(w, s.edits[eu]) && Uploads(w, s.edits[ej])
    && w.md5(s.edits[eu].base64Hashes) == w.md5(Current(s).value.spec.base64Hashes)
    && Key(w, s.edits[eu]) == Key(w, s.edits[ej]) == Some(name)
    && name in s.store && w.decode(s.edits[ej].base64Hashes) == Some(s.store[name])
  }

  lemma BehindIsCoherent(w: World, s: State, eu: nat, ej: nat, name: string)
    requires Behind(w, s, eu, ej, name) && !Unsafe(w, s.edits)
    ensures Coherent(w, s)
  {
    assert !Confuses(w, s.edits, eu, eu) && !Confuses(w, s.edits, eu, ej);
  }

  lemma BehindTheClaim(w: World, s: State) returns (eu: nat, ej: nat, name: string)
    requires Inv(w, s) && ClaimsUpload(w, s)
    ensures Behind(w, s, eu, ej, name)
  {
    var v := Latest(s);
    assert Alive(s, v) && Vouched(w, s, v);
    var u := s.hist[v].value.vouched;
    assert Saved(w, s, u) && StillThere(w, s, u);
    name := Key(w, SpecAt(s, u)).value;
    assert Holding(w, s, name);
    var j := s.stored[name];
    eu, ej := s.hist[u].value.edit, s.hist[j].value.edit;
    EditsOf(w, s, u, j, v);
  }

  lemma EditsOf(w: World, s: State, u: nat, j: nat, v: nat)
    requires Shape(w, s) && Alive(s, u) && Alive(s, v) && u <= j <= v < |s.hist| && s.hist[j].Some? && v == Latest(s)
    ensures s.hist[u].value.edit <= s.hist[j].value.edit < |s.edits|
    ensures s.edits[s.hist[u].value.edit] == SpecAt(s, u) && s.edits[s.hist[j].value.edit] == SpecAt(s, j)
    ensures s.edits[|s.edits| - 1] == SpecAt(s, v)
  {
    assert Alive(s, j);
  }

  /* ---------- One undisturbed reconcile ---------- */

  function Rank(pc: PC): nat {
    match pc
    case Idle => 0
    case Fetching => 3
    case Removing(_, _) => 2
    case Uploading(_, _) => 2
    case Finalizing(_, _) => 1
    case Reporting(_, _) => 1
  }

  /** The reconciler's next call, when it succeeds. */
  function NextCall(pc: PC): Label {
    match pc
    case Idle => Begin(true)
    case Fetching => Get(true)
    case Removing(_, _) => Remove(Ok)
    case Uploading(_, _) => Save(Ok)
    case Finalizing(_, _) => PutFinalizers(Ok)
    case Reporting(_, _) => PutStatus(Ok)
  }

  /** Every call that succeeds brings the reconciler nearer to its end. */
  lemma Nearer(w: World, s: State)
    requires !s.pc.Idle?
    ensures Rank(Step(w, s, NextCall(s.pc)).pc) < Rank(s.pc)
  {
    match s.pc
    case Fetching => assert Step(w, s, Get(true)).pc == Fetched(w, s);
    case Removing(_, _) => assert Step(w, s, Remove(Ok)) == AfterRemove(w, s, Ok);
    case Uploading(_, _) => assert Step(w, s, Save(Ok)) == AfterSave(w, s, Ok);
    case Finalizing(_, _) => assert Step(w, s, PutFinalizers(Ok)) == AfterPutFinalizers(s, Ok);
    case Reporting(_, _) => assert Step(w, s, PutStatus(Ok)) == AfterPutStatus(s, Ok);
  }

  function Finish(w: World, s: State): State
    decreases Rank(s.pc)
  {
    if s.pc.Idle? then s
    else
      Nearer(w, s);
      Finish(w, Step(w, s, NextCall(s.pc)))
  }

  function Reconcile(w: World, s: State): State {
    Finish(w, Step(w, s, Begin(true)))
  }

  function CatchUp(s: State): State {
    s.(cache := Latest(s))
  }

  predicate Rested(s: State) {
    s.pc.Idle? && s.cache == Latest(s)
  }

  /** The storage client is not lost, and the name can be built. */
  predicate CanWork(w: World, s: State) {
    !s.storage.Broken? && (Current(s).Some? ==> Key(w, Current(s).value.spec).Some?)
  }

  /** The first two calls bring the reconciler to the branch for the present object. */
  lemma ReconcileFetches(w: World, s: State)
    requires Rested(s) && !s.storage.Broken? && Current(s).Some?
    ensures Reconcile(w, s) == Finish(w, s.(storage := Ready, pc := Dispatch(w, Latest(s), Current(s).value)))
  {
    var s1 := s.(storage := Ready, pc := Fetching);
    assert Step(w, s, Begin(true)) == s1;
    assert Step(w, s1, Get(true)) == s1.(pc := Dispatch(w, Latest(s), Current(s).value));
  }

  lemma FinishUpload(w: World, s: State)
    requires s.pc.Uploading?
    ensures Finish(w, s) == Finish(w, AfterSave(w, s, Ok))
  {
  }

  lemma FinishReport(w: World, s: State)
    requires s.pc.Reporting?
    ensures Finish(w, s) == AfterPutStatus(s, Ok)
  {
    assert Finish(w, s) == Finish(w, AfterPutStatus(s, Ok));
  }

  lemma FinishRemove(w: World, s: State)
    requires s.pc.Removing?
    ensures Finish(w, s) == Finish(w, AfterRemove(w, s, Ok))
  {
  }

  lemma FinishRelease(w: World, s: State)
    requires s.pc.Finalizing?
    ensures Finish(w, s) == AfterPutFinalizers(s, Ok)
  {
    assert Finish(w, s) == Finish(w, AfterPutFinalizers(s, Ok));
  }

  lemma ReconcileUploads(w: World, s: State, k: string, data: string)
    requires Rested(s) && !s.storage.Broken?
    requires Current(s).Some? && !Current(s).value.deleting && NeedsUpload(w, Current(s).value)
    requires Key(w, Current(s).value.spec) == Some(k)
    requires w.decode(Current(s).value.spec.base64Hashes) == Some(data)
    ensures var o, rv := Current(s).value, Latest(s);
      Reconcile(w, s) == s.(
        hist := s.hist + [Some(o.(status := Status(true, w.md5(o.spec.base64Hashes)), vouched := rv))],
        store := s.store[k := data], saves := s.saves + [rv], stored := s.stored[k := rv], storage := Ready)
  {
    var o, rv := Current(s).value, Latest(s);
    ReconcileFetches(w, s);
    var s2 := s.(storage := Ready, pc := Uploading(rv, o));
    FinishUpload(w, s2);
    SavedState(w, s2, rv, o, k, data);
    FinishReport(w, AfterSave(w, s2, Ok));
  }

  lemma SavedState(w: World, s: State, rv: nat, o: Snapshot, k: string, data: string)
    requires s.pc == Uploading(rv, o) && Key(w, o.spec) == Some(k) && w.decode(o.spec.base64Hashes) == Some(data)
    ensures AfterSave(w, s, Ok) == s.(
      store := s.store[k := data], saves := s.saves + [rv], stored := s.stored[k := rv],
      pc := Reporting(rv, o.(status := Status(true, w.md5(o.spec.base64Hashes)))))
  {
  }

  lemma RefusedState(w: World, s: State, rv: nat, o: Snapshot)
    requires s.pc == Uploading(rv, o) && Key(w, o.spec).Some? && w.decode(o.spec.base64Hashes).None?
    ensures AfterSave(w, s, Ok) == s.(pc := Reporting(rv, o.(status := o.status.(isUploaded := false))))
  {
  }

  lemma ReconcileRefuses(w: World, s: State)
    requires Rested(s) && !s.storage.Broken?
    requires Current(s).Some? && !Current(s).value.deleting && NeedsUpload(w, Current(s).value)
    requires Key(w, Current(s).value.spec).Some?
    requires w.decode(Current(s).value.spec.base64Hashes).None?
    ensures var o := Current(s).value;
      Reconcile(w, s) == Append(s, Some(o.(status := o.status.(isUploaded := false)))).(storage := Ready)
  {
    var o, rv := Current(s).value, Latest(s);
    ReconcileFetches(w, s);
    var s2 := s.(storage := Ready, pc := Uploading(rv, o));
    FinishUpload(w, s2);
    RefusedState(w, s2, rv, o);
    var s3 := s2.(pc := Reporting(rv, o.(status := o.status.(isUploaded := false))));
    FinishReport(w, s3);
    WrittenBack(s3, rv, o);
    AppendElsewhere(s, s3, Some(o.(status := o.status.(isUploaded := false))));
  }

  lemma WrittenBack(s: State, rv: nat, o: Snapshot)
    requires s.pc == Reporting(rv, o.(status := o.status.(isUploaded := false)))
    requires rv == Latest(s) && Current(s) == Some(o)
    ensures AfterPutStatus(s, Ok) == Append(s, Some(o.(status := o.status.(isUploaded := false)))).(pc := Idle)
  {
  }

  lemma AppendElsewhere(s: State, t: State, v: Option<Snapshot>)
    requires t == s.(pc := t.pc, storage := t.storage, store := t.store, stored := t.stored)
    ensures Append(t, v)
         == Append(s, v).(pc := t.pc, storage := t.storage, store := t.store, stored := t.stored)
  {
  }

  lemma ReconcileRemoves(w: World, s: State, k: string)
    requires Rested(s) && !s.storage.Broken? && Current(s).Some? && Current(s).value.deleting
    requires Key(w, Current(s).value.spec) == Some(k)
    ensures var o := Current(s).value;
      Reconcile(w, s) == Append(s, Settled(o.(finalizers := o.finalizers - {"controller.snapshot/finalizer"}))).(
        store := s.store - {k}, stored := s.stored - {k}, storage := Ready, settled := Some(o.edit))
  {
    var o, rv := Current(s).value, Latest(s);
    ReconcileFetches(w, s);
    var s2 := s.(storage := Ready, pc := Removing(rv, o));
    FinishRemove(w, s2);
    RemovedState(w, s2, rv, o, k);
    var s3 := AfterRemove(w, s2, Ok);
    FinishRelease(w, s3);
    TakenOff(s3, rv, o);
    AppendElsewhere(s, s3, Settled(o.(finalizers := o.finalizers - {FINALIZER})));
  }

  lemma TakenOff(s: State, rv: nat, o: Snapshot)
    requires s.pc == Finalizing(rv, o.(finalizers := o.finalizers - {FINALIZER}))
    requires rv == Latest(s) && Current(s) == Some(o)
    ensures AfterPutFinalizers(s, Ok)
         == Append(s, Settled(o.(finalizers := o.finalizers - {FINALIZER}))).(settled := Some(o.edit), pc := Idle)
  {
  }

  lemma RemovedState(w: World, s: State, rv: nat, o: Snapshot, k: string)
    requires s.pc == Removing(rv, o) && Key(w, o.spec) == Some(k)
    ensures AfterRemove(w, s, Ok) == s.(
      store := s.store - {k}, stored := s.stored - {k},
      pc := Finalizing(rv, o.(finalizers := o.finalizers - {FINALIZER})))
  {
  }

  lemma ReconcileRests(w: World, s: State)
    requires Rested(s) && !s.storage.Broken?
    requires Current(s).Some? ==> !Current(s).value.deleting && !NeedsUpload(w, Current(s).value)
    ensures Reconcile(w, s) == s.(storage := Ready)
  {
    var s1 := Step(w, s, Begin(true));
    var s2 := Step(w, s1, Get(true));
    assert Finish(w, s1) == Finish(w, s2);
  }

  lemma ReconcilePanics(w: World, s: State)
    requires Rested(s) && !s.storage.Broken? && Current(s).Some? && Key(w, Current(s).value.spec).None?
    requires Current(s).value.deleting || NeedsUpload(w, Current(s).value)
    ensures Reconcile(w, s) == s.(storage := Untried)
  {
    var o, rv := Current(s).value, Latest(s);
    ReconcileFetches(w, s);
    var s2 := s.(storage := Ready, pc := Dispatch(w, rv, o));
    if o.deleting {
      FinishRemove(w, s2);
    } else {
      FinishUpload(w, s2);
    }
  }

  /** Without a client or a name, a reconcile comes to nothing, and so does the next. */
  lemma ReconcileCannot(w: World, s: State)
    requires Rested(s) && !CanWork(w, s)
    ensures var t := Reconcile(w, s);
      t.hist == s.hist && t.store == s.store && t.pc.Idle? && !CanWork(w, t)
  {
    if s.storage.Broken? {
      assert Step(w, s, Begin(true)) == s;
    } else if Current(s).value.deleting || NeedsUpload(w, Current(s).value) {
      ReconcilePanics(w, s);
    } else {
      ReconcileRests(w, s);
    }
  }

  /** What the controller is there for: the Snapshot is gone; or it waits for others' finalizers and
      its object is not stored; or it is uploaded; or it cannot be decoded and says so. */
  predicate Resolved(w: World, s: State) {
    match Current(s)
    case None => true
    case Some(o) =>
      if o.deleting then FINALIZER !in o.finalizers && NotStored(w, s, o.spec)
      else ClaimsUpload(w, s) || (w.decode(o.spec.base64Hashes).None? && !o.status.isUploaded)
  }

  predicate NotStored(w: World, s: State, spec: Spec) {
    Key(w, spec).Some? ==> Key(w, spec).value !in s.store
  }

  /** A reconcile that can work: resolved, and by an upload of the present contents if any. */
  predicate WorkDone(w: World, s: State, t: State) {
    && Resolved(w, t) && t.pc.Idle? && !t.storage.Broken?
    && (ClaimsUpload(w, t) && !ClaimsUpload(w, s) ==> Coherent(w, t))
    && (ClaimsUpload(w, s) ==> t == s.(storage := Ready))
    && (Current(s).Some? && Current(s).value.deleting ==> NotStored(w, t, Current(s).value.spec))
  }

  lemma ReconcileResolves(w: World, s: State)
    requires Rested(s) && CanWork(w, s)
    ensures WorkDone(w, s, Reconcile(w, s))
  {
    if Current(s).None? {
      ReconcileRests(w, s);
    } else {
      var o := Current(s).value;
      var k := Key(w, o.spec).value;
      if o.deleting {
        RemovalResolves(w, s, k);
      } else if !NeedsUpload(w, o) {
        ReconcileRests(w, s);
      } else {
        UploadResolves(w, s, k);
      }
    }
  }

  lemma RemovalResolves(w: World, s: State, k: string)
    requires Rested(s) && CanWork(w, s) && Current(s).Some? && Key(w, Current(s).value.spec) == Some(k)
    requires Current(s).value.deleting
    ensures WorkDone(w, s, Reconcile(w, s))
  {
    var o := Current(s).value;
    ReconcileRemoves(w, s, k);
    assert Current(Reconcile(w, s)) == Settled(o.(finalizers := o.finalizers - {FINALIZER}));
  }

  lemma UploadResolves(w: World, s: State, k: string)
    requires Rested(s) && CanWork(w, s) && Current(s).Some? && Key(w, Current(s).value.spec) == Some(k)
    requires !Current(s).value.deleting && NeedsUpload(w, Current(s).value)
    ensures WorkDone(w, s, Reconcile(w, s))
  {
    var o := Current(s).value;
    var t := Reconcile(w, s);
    if w.decode(o.spec.base64Hashes).None? {
      ReconcileRefuses(w, s);
      assert Current(t) == Some(o.(status := o.status.(isUploaded := false)));
    } else {
      ReconcileUploads(w, s, k, w.decode(o.spec.base64Hashes).value);
      assert Current(t).value.spec == o.spec;
    }
  }

  lemma SameAsBefore(w: World, s: State, t: State)
    requires t.hist == s.hist && t.store == s.store
    ensures Resolved(w, t) == Resolved(w, s) && Coherent(w, t) == Coherent(w, s) && ClaimsUpload(w, t) == ClaimsUpload(w, s)
  {
  }

  /** Once edits and failures stop and the cache is current, one reconcile resolves the Snapshot if and
      only if the storage client is not lost and the name can be built, or there was nothing to do. A
      deleted one's object is then not stored, and a status that could be trusted still can. */
  lemma OneReconcileResolves(w: World, s: State)
    requires Rested(s)
    ensures var t := Reconcile(w, s);
      && t.pc.Idle?
      && (Resolved(w, t) <==> CanWork(w, s) || Resolved(w, s))
      && (Coherent(w, s) ==> Coherent(w, t))
      && (CanWork(w, s) && Current(s).Some? && Current(s).value.deleting ==> NotStored(w, t, Current(s).value.spec))
  {
    var t := Reconcile(w, s);
    if CanWork(w, s) {
      ReconcileResolves(w, s);
      if ClaimsUpload(w, s) {
        SameAsBefore(w, s, t);
      }
    } else {
      ReconcileCannot(w, s);
      SameAsBefore(w, s, t);
    }
  }

  /* ---------- A lost storage client ---------- */

  /** The reconciler's own steps, as opposed to those of the world around it. */
  predicate IsCall(l: Label) {
    l.Begin? || l.Get? || l.Remove? || l.Save? || l.PutStatus? || l.PutFinalizers?
  }

  function WithoutCalls(ls: seq<Label>): seq<Label> {
    if ls == [] then []
    else if IsCall(ls[0]) then WithoutCalls(ls[1..])
    else [ls[0]] + WithoutCalls(ls[1..])
  }

  /** One failed attempt to find the secret, the first one, loses the storage client. */
  lemma ClientMayBeLost(w: World)
    ensures var s := Step(w, Init(map[]), Begin(false));
      Reachable(w, s) && s.storage.Broken? && s.pc.Idle?
  {
    assert Clear(w, map[]) && AllowedRun(w, Init(map[]), []) && Exec(w, Init(map[]), []) == Init(map[]);
    assert Reachable(w, Init(map[]));
    StepReachable(w, Init(map[]), Begin(false));
  }

  /** It stays lost until the process is restarted: whatever happens, the controller might as well not
      be there. */
  lemma {:induction false} LostClientStaysLost(w: World, s: State, ls: seq<Label>)
    requires s.storage.Broken? && s.pc.Idle? && Crash !in ls
    ensures Exec(w, s, ls) == Exec(w, s, WithoutCalls(ls))
    ensures Exec(w, s, ls).storage.Broken? && Exec(w, s, ls).pc.Idle?
    decreases |ls|
  {
    if ls != [] {
      assert ls == [ls[0]] + ls[1..];
      LostStep(w, s, ls[0]);
      LostClientStaysLost(w, Step(w, s, ls[0]), ls[1..]);
      if !IsCall(ls[0]) {
        assert WithoutCalls(ls)[1..] == WithoutCalls(ls[1..]);
      }
    }
  }

  lemma LostStep(w: World, s: State, l: Label)
    requires s.storage.Broken? && s.pc.Idle? && !l.Crash?
    ensures var t := Step(w, s, l); t.storage.Broken? && t.pc.Idle? && (IsCall(l) ==> t == s)
  {
  }

  /* ---------- Reachability of what a reconcile does ---------- */

  lemma {:induction false} FinishReachable(w: World, s: State)
    requires Reachable(w, s)
    ensures Reachable(w, Finish(w, s))
    decreases Rank(s.pc)
  {
    if !s.pc.Idle? {
      NextRanks(w, s);
      StepReachable(w, s, NextCall(s.pc));
      FinishReachable(w, Step(w, s, NextCall(s.pc)));
    }
  }

  lemma NextRanks(w: World, s: State)
    requires !s.pc.Idle?
    ensures Rank(Step(w, s, NextCall(s.pc)).pc) < Rank(s.pc) && Allowed(w, s, NextCall(s.pc))
    ensures Finish(w, s) == Finish(w, Step(w, s, NextCall(s.pc)))
  {
    Nearer(w, s);
  }

  lemma StepReachable(w: World, s: State, l: Label)
    requires Reachable(w, s) && Allowed(w, s, l)
    ensures Reachable(w, Step(w, s, l))
  {
    assert [l][1..] == [];
    assert Exec(w, s, [l]) == Exec(w, Step(w, s, l), []) == Step(w, s, l);
    assert AllowedRun(w, Step(w, s, l), []);
    ReachableGoesOn(w, s, [l]);
  }

  lemma ReconcileReachable(w: World, s: State)
    requires Reachable(w, s)
    ensures Reachable(w, Reconcile(w, s)) && Reachable(w, CatchUp(s))
  {
    StepReachable(w, s, Begin(true));
    FinishReachable(w, Step(w, s, Begin(true)));
    StepReachable(w, s, CacheTo(Latest(s)));
  }

  /** An object being deleted that is still there waits for some finalizer. */
  predicate Waits(s: State) {
    Current(s).Some? && Current(s).value.deleting ==> Current(s).value.finalizers != {}
  }

  lemma StepWaits(w: World, s: State, l: Label)
    requires Waits(s)
    ensures Waits(Step(w, s, l))
  {
    match l
    case Remove(outcome) => assert Step(w, s, l).hist == s.hist;
    case Save(outcome) => assert Step(w, s, l).hist == s.hist;
    case _ =>
  }

  lemma {:induction false} ExecWaits(w: World, s: State, ls: seq<Label>)
    requires Waits(s)
    ensures Waits(Exec(w, s, ls))
    decreases |ls|
  {
    if ls != [] {
      StepWaits(w, s, ls[0]);
      ExecWaits(w, Step(w, s, ls[0]), ls[1..]);
    }
  }

  lemma ReachableWaits(w: World, s: State)
    requires Reachable(w, s)
    ensures Waits(s)
  {
    var store, ls :| Clear(w, store) && AllowedRun(w, Init(store), ls) && Exec(w, Init(store), ls) == s;
    ExecWaits(w, Init(store), ls);
  }

  /* ---------- No loop ---------- */

  /** A resolved Snapshot whose versions the cache shows gives a reconcile nothing to write. */
  lemma ResolvedIsQuiet(w: World, s: State)
    requires Waits(s) && Rested(s) && Resolved(w, s)
    ensures Reconcile(w, s).hist == s.hist && Reconcile(w, s).store == s.store && Reconcile(w, s).pc.Idle?
  {
    if !CanWork(w, s) {
      ReconcileCannot(w, s);
    } else if Current(s).Some? && Current(s).value.deleting {
      var o, k := Current(s).value, Key(w, Current(s).value.spec).value;
      ReconcileRemoves(w, s, k);
      assert o.finalizers - {FINALIZER} == o.finalizers;
      assert s.store - {k} == s.store;
    } else if Current(s).Some? && NeedsUpload(w, Current(s).value) {
      ReconcileRefuses(w, s);
      assert Current(s).value.status.(isUploaded := false) == Current(s).value.status;
    } else {
      ReconcileRests(w, s);
    }
  }

  /** `n` reconciles, each of the version that the one before left. */
  function Rounds(w: World, s: State, n: nat): State
    decreases n
  {
    if n == 0 then s else Rounds(w, Reconcile(w, CatchUp(s)), n - 1)
  }

  /** At rest with nothing to do, or nothing that can be done. */
  ghost predicate AtRest(w: World, s: State) {
    Reachable(w, s) && s.pc.Idle? && (Resolved(w, s) || !CanWork(w, s))
  }

  lemma CaughtUpIsSame(w: World, s: State)
    ensures Resolved(w, CatchUp(s)) == Resolved(w, s) && CanWork(w, CatchUp(s)) == CanWork(w, s)
    ensures s.pc.Idle? ==> Rested(CatchUp(s))
  {
    SameAsBefore(w, s, CatchUp(s));
  }

  lemma FirstRound(w: World, s: State)
    requires Reachable(w, s) && s.pc.Idle?
    ensures AtRest(w, Reconcile(w, CatchUp(s)))
    ensures Resolved(w, Reconcile(w, CatchUp(s))) <==> CanWork(w, s) || Resolved(w, s)
  {
    ReconcileReachable(w, s);
    ReconcileReachable(w, CatchUp(s));
    CaughtUpIsSame(w, s);
    OneReconcileResolves(w, CatchUp(s));
    if !CanWork(w, CatchUp(s)) {
      ReconcileCannot(w, CatchUp(s));
    }
  }

  lemma QuietRound(w: World, s: State)
    requires AtRest(w, s)
    ensures Reconcile(w, CatchUp(s)).hist == s.hist && Reconcile(w, CatchUp(s)).store == s.store
  {
    ReachableWaits(w, s);
    CaughtUpIsSame(w, s);
    if CanWork(w, CatchUp(s)) {
      ResolvedIsQuiet(w, CatchUp(s));
    } else {
      ReconcileCannot(w, CatchUp(s));
    }
  }

  lemma NextRound(w: World, s: State, t: State)
    requires AtRest(w, s) && t == Reconcile(w, CatchUp(s))
    ensures t.hist == s.hist && t.store == s.store && AtRest(w, t)
  {
    FirstRound(w, s);
    QuietRound(w, s);
  }

  lemma {:induction false} LaterRounds(w: World, s: State, n: nat)
    requires AtRest(w, s)
    ensures var t := Rounds(w, s, n); t.hist == s.hist && t.store == s.store && AtRest(w, t)
    decreases n
  {
    if n > 0 {
      var t := Reconcile(w, CatchUp(s));
      NextRound(w, s, t);
      LaterRounds(w, t, n - 1);
    }
  }

  /** The controller's own updates do not keep it busy: however often they trigger it again, all
      rounds after the first write nothing, whether or not it could do its work. */
  lemma NoUpdateLoop(w: World, s: State, n: nat)
    requires Reachable(w, s) && s.pc.Idle?
    ensures var first := Reconcile(w, CatchUp(s)); var t := Rounds(w, first, n);
      && t.hist == first.hist && t.store == first.store && t.pc.Idle?
      && (Resolved(w, t) <==> CanWork(w, s) || Resolved(w, s))
  {
    var first := Reconcile(w, CatchUp(s));
    FirstRound(w, s);
    LaterRounds(w, first, n);
    SameAsBefore(w, first, Rounds(w, first, n));
  }
}
