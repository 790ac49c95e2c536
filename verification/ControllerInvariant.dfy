/** What every step of the controller protocol keeps, with or without finalizers: versions, saves,
    stored objects and uploaded statuses. */
module ControllerInvariant {
  import opened Controller
  import opened Wrappers

  function SpecAt(s: State, v: nat): Spec
    requires v < |s.hist| && s.hist[v].Some?
  {
    s.hist[v].value.spec
  }

  /** The versions of the present incarnation that exist. */
  predicate Alive(s: State, v: int) {
    0 <= s.born <= v < |s.hist| && s.hist[v].Some?
  }

  /** One incarnation is an unbroken run of versions, its edits in order, deletion for good. */
  ghost predicate Shape(w: World, s: State) {
    && s.born <= |s.hist|
    && (Current(s).Some? ==> s.born < |s.hist| && Current(s).value.edit == |s.edits| - 1)
    && (forall v :: s.born <= v < Latest(s) ==> s.hist[v].Some?)
    && (forall v :: 0 <= v < |s.hist| && s.hist[v].Some? ==> Owned(w, SpecAt(s, v)))
    && (forall v :: Alive(s, v) ==> s.hist[v].value.edit < |s.edits| && s.edits[s.hist[v].value.edit] == SpecAt(s, v))
    && (forall u, v :: Alive(s, u) && Alive(s, v) && u <= v ==>
          && s.hist[u].value.edit <= s.hist[v].value.edit
          && (s.hist[u].value.deleting ==> s.hist[v].value.deleting))
  }

  predicate Holds(pc: PC) {
    !pc.Idle? && !pc.Fetching?
  }

  /** The saved versions never go back, and the local copy is no older than any of them. */
  ghost predicate Order(s: State) {
    && (forall i, j :: 0 <= i < j < |s.saves| ==> s.saves[i] <= s.saves[j])
    && (forall i :: 0 <= i < |s.saves| ==> s.saves[i] <= s.cache)
    && (Holds(s.pc) ==> s.pc.rv <= s.cache && forall i :: 0 <= i < |s.saves| ==> s.saves[i] <= s.pc.rv)
  }

  predicate LastSaved(s: State, v: nat) {
    s.saves != [] && s.saves[|s.saves| - 1] == v
  }

  ghost predicate Local(w: World, s: State) {
    match s.pc
    case Idle => true
    case Fetching => true
    case Removing(rv, obj) => rv < |s.hist| && s.hist[rv] == Some(obj) && obj.deleting
    case Finalizing(rv, obj) =>
      && rv < |s.hist| && s.hist[rv].Some? && s.hist[rv].value.deleting
      && obj.finalizers == s.hist[rv].value.finalizers - {FINALIZER}
      && Key(w, SpecAt(s, rv)).Some? && Key(w, SpecAt(s, rv)).value !in s.stored
    case Uploading(rv, obj) => rv < |s.hist| && s.hist[rv] == Some(obj) && !obj.deleting
    case Reporting(rv, obj) =>
      && rv < |s.hist| && s.hist[rv].Some?
      && (obj.status.isUploaded ==> LastSaved(s, rv) && obj.status.controlHash == w.md5(SpecAt(s, rv).base64Hashes))
  }

  /** A version whose contents were saved under a name. */
  predicate SavedAs(w: World, s: State, v: nat, name: string) {
    v < |s.hist| && s.hist[v].Some? && Uploads(w, SpecAt(s, v)) && Key(w, SpecAt(s, v)) == Some(name)
  }

  predicate Saved(w: World, s: State, v: nat) {
    v < |s.hist| && s.hist[v].Some? && Uploads(w, SpecAt(s, v))
  }

  /** Under each name is the decoded content of the last version saved under it, or nothing. */
  ghost predicate Stored(w: World, s: State) {
    && (forall v :: v in s.saves ==> Saved(w, s, v))
    && (forall name :: name in s.stored ==> Holding(w, s, name))
    && (forall name :: name in s.store && w.ours(name) ==> name in s.stored)
  }

  ghost predicate Holding(w: World, s: State, name: string)
    requires name in s.stored
  {
    var v := s.stored[name];
    && v in s.saves && SavedAs(w, s, v, name) && w.ours(name)
    && name in s.store && w.decode(SpecAt(s, v).base64Hashes) == Some(s.store[name])
    && (forall u :: u in s.saves && SavedAs(w, s, u, name) ==> u <= v)
  }

  /** An uploaded status names the content of a version that was decoded and saved. */
  ghost predicate Vouched(w: World, s: State, v: int)
    requires Alive(s, v)
  {
    var o := s.hist[v].value;
    && o.vouched < v && Alive(s, o.vouched) && o.vouched in s.saves
    && o.status.controlHash == w.md5(SpecAt(s, o.vouched).base64Hashes)
  }

  ghost predicate Vouches(w: World, s: State) {
    forall v :: Alive(s, v) && s.hist[v].value.status.isUploaded ==> Vouched(w, s, v)
  }

  /** What an undeleted incarnation saved is stored, or something newer is, under the same name. */
  ghost predicate Kept(w: World, s: State) {
    Current(s).Some? && !Current(s).value.deleting ==>
      forall v :: v in s.saves && v >= s.born && Saved(w, s, v) ==> StillThere(w, s, v)
  }

  predicate StillThere(w: World, s: State, v: nat)
    requires Saved(w, s, v)
  {
    var name := Key(w, SpecAt(s, v)).value;
    name in s.stored && s.stored[name] >= v
  }

  ghost predicate Inv(w: World, s: State) {
    Shape(w, s) && Order(s) && Local(w, s) && Stored(w, s) && Vouches(w, s) && Kept(w, s)
  }

  lemma InitInv(w: World, store: map<string, string>)
    requires Clear(w, store)
    ensures Inv(w, Init(store))
  {
  }

  /* ---------- A new version ---------- */

  /** One more version of the object, or its end; everything else but the edits stays. */
  predicate Grows(s: State, s': State) {
    && |s'.hist| == |s.hist| + 1 && (forall v :: 0 <= v < |s.hist| ==> s'.hist[v] == s.hist[v])
    && s' == s.(hist := s'.hist, edits := s'.edits)
  }

  lemma GrowsStored(w: World, s: State, s': State)
    requires Grows(s, s') && Stored(w, s)
    ensures Stored(w, s')
  {
    assert forall v :: v in s.saves ==> Saved(w, s, v) && Saved(w, s', v) && SpecAt(s', v) == SpecAt(s, v);
    forall name | name in s'.stored ensures Holding(w, s', name) {
      assert Holding(w, s, name);
      assert forall u :: u in s.saves && SavedAs(w, s', u, name) ==> SavedAs(w, s, u, name);
    }
  }

  lemma GrowsLocal(w: World, s: State, s': State)
    requires Grows(s, s') && Local(w, s) && Order(s)
    ensures Local(w, s') && Order(s')
  {
  }

  lemma GrowsKept(w: World, s: State, s': State)
    requires Grows(s, s') && Kept(w, s) && Stored(w, s)
    requires Current(s').Some? && !Current(s').value.deleting ==> Current(s).Some? && !Current(s).value.deleting
    ensures Kept(w, s')
  {
    assert forall v :: v in s.saves ==> Saved(w, s, v) && SpecAt(s', v) == SpecAt(s, v);
    if Current(s').Some? && !Current(s').value.deleting {
      forall v | v in s'.saves && v >= s'.born && Saved(w, s', v) ensures StillThere(w, s', v) {
        assert StillThere(w, s, v);
      }
    }
  }

  /** A new version of the present object that keeps what the controller relies on. */
  ghost predicate Follows(w: World, s: State, o: Snapshot, edits: seq<Spec>) {
    && Current(s).Some?
    && var c := Current(s).value;
    && Owned(w, o.spec) && (c.deleting ==> o.deleting)
    && ((edits == s.edits && o.edit == c.edit && o.spec == c.spec)
        || (edits == s.edits + [o.spec] && o.edit == |s.edits|))
  }

  /** Appending such a version keeps the shape of the history. */
  lemma FollowsShape(w: World, s: State, o: Snapshot, edits: seq<Spec>)
    requires Shape(w, s) && Follows(w, s, o, edits)
    ensures Shape(w, s.(hist := s.hist + [Some(o)], edits := edits))
  {
    var s' := s.(hist := s.hist + [Some(o)], edits := edits);
    assert forall v :: 0 <= v < |s.hist| ==> s'.hist[v] == s.hist[v];
    assert forall v :: Alive(s', v) <==> Alive(s, v) || v == Latest(s');
    assert Alive(s, Latest(s));
    forall u, v | Alive(s', u) && Alive(s', v) && u <= v
      ensures s'.hist[u].value.edit <= s'.hist[v].value.edit
      ensures s'.hist[u].value.deleting ==> s'.hist[v].value.deleting
    {
      if v == Latest(s') && u != v {
        assert Alive(s, u) && u <= Latest(s);
      }
    }
  }

  /** Uploaded statuses are vouched for in the versions that were there, and in one more version that
      either repeats the last status or is vouched for itself. */
  lemma FollowsVouches(w: World, s: State, s': State)
    requires Shape(w, s) && Vouches(w, s) && Current(s).Some? && Current(s').Some?
    requires s'.hist == s.hist + [Current(s')] && s'.born == s.born && s'.saves == s.saves
    requires var c, o := Current(s).value, Current(s').value;
      || (o.status == c.status && o.vouched == c.vouched)
      || (o.status.isUploaded ==> Vouched(w, s', Latest(s')))
    ensures Vouches(w, s')
  {
    assert forall v :: 0 <= v < |s.hist| ==> s'.hist[v] == s.hist[v];
    assert Alive(s, Latest(s));
    forall v | Alive(s', v) && s'.hist[v].value.status.isUploaded ensures Vouched(w, s', v) {
      var c, o := Current(s).value, Current(s').value;
      if v < Latest(s') {
        assert Alive(s, v) && Vouched(w, s, v);
      } else if o.status == c.status && o.vouched == c.vouched {
        assert Vouched(w, s, Latest(s));
      }
    }
  }

  lemma FollowsGoods(w: World, s: State, o: Snapshot, edits: seq<Spec>)
    requires Inv(w, s) && Follows(w, s, o, edits)
    ensures var s' := s.(hist := s.hist + [Some(o)], edits := edits);
      Order(s') && Local(w, s') && Stored(w, s') && Kept(w, s')
  {
    var s' := s.(hist := s.hist + [Some(o)], edits := edits);
    assert Grows(s, s');
    GrowsStored(w, s, s');
    GrowsLocal(w, s, s');
    GrowsKept(w, s, s');
  }

  /** A version that follows, written by anyone but the controller's own status write. */
  lemma FollowsInv(w: World, s: State, o: Snapshot, edits: seq<Spec>)
    requires Inv(w, s) && Follows(w, s, o, edits)
    requires o.status == Current(s).value.status && o.vouched == Current(s).value.vouched
    ensures Inv(w, s.(hist := s.hist + [Some(o)], edits := edits))
  {
    FollowsShape(w, s, o, edits);
    FollowsVouches(w, s, s.(hist := s.hist + [Some(o)], edits := edits));
    FollowsGoods(w, s, o, edits);
  }

  /** The object disappears. */
  lemma VanishInv(w: World, s: State)
    requires Inv(w, s) && Current(s).Some?
    ensures Inv(w, s.(hist := s.hist + [None]))
  {
    var s' := s.(hist := s.hist + [None]);
    VanishVersions(w, s);
    assert Grows(s, s');
    GrowsStored(w, s, s');
    GrowsLocal(w, s, s');
    GrowsKept(w, s, s');
  }

  lemma VanishVersions(w: World, s: State)
    requires Shape(w, s) && Vouches(w, s) && Current(s).Some?
    ensures Shape(w, s.(hist := s.hist + [None])) && Vouches(w, s.(hist := s.hist + [None]))
  {
    var s' := s.(hist := s.hist + [None]);
    assert forall v :: 0 <= v < |s.hist| ==> s'.hist[v] == s.hist[v];
    assert forall v :: Alive(s', v) <==> Alive(s, v);
    forall v | Alive(s', v) && s'.hist[v].value.status.isUploaded ensures Vouched(w, s', v) {
      assert Vouched(w, s, v);
    }
  }

  /* ---------- The world's steps ---------- */

  lemma CreateInv(w: World, s: State, spec: Spec, finalizers: set<string>)
    requires Inv(w, s) && Allowed(w, s, Create(spec, finalizers))
    ensures Inv(w, Step(w, s, Create(spec, finalizers)))
  {
    if Current(s).None? {
      var s' := Step(w, s, Create(spec, finalizers));
      assert forall v :: 0 <= v < |s.hist| ==> s'.hist[v] == s.hist[v];
      assert forall v :: Alive(s', v) <==> v == Latest(s');
      CreateGoods(w, s, s');
    }
  }

  lemma CreateGoods(w: World, s: State, s': State)
    requires Inv(w, s) && Current(s).None? && Current(s').Some?
    requires |s'.hist| == |s.hist| + 1 && forall v :: 0 <= v < |s.hist| ==> s'.hist[v] == s.hist[v]
    requires s' == s.(hist := s'.hist, edits := s'.edits, born := |s.hist|, former := s.stored.Keys, settled := None)
    ensures Order(s') && Local(w, s') && Stored(w, s') && Kept(w, s')
  {
    assert forall v :: v in s.saves ==> Saved(w, s, v) && Saved(w, s', v) && SpecAt(s', v) == SpecAt(s, v);
    forall name | name in s'.stored ensures Holding(w, s', name) {
      assert Holding(w, s, name);
      assert forall u :: u in s.saves && SavedAs(w, s', u, name) ==> SavedAs(w, s, u, name);
    }
  }

  lemma EditSpecInv(w: World, s: State, spec: Spec)
    requires Inv(w, s) && Allowed(w, s, EditSpec(spec))
    ensures Inv(w, Step(w, s, EditSpec(spec)))
  {
    if Current(s).Some? && spec != Current(s).value.spec {
      var c := Current(s).value;
      FollowsInv(w, s, c.(spec := spec, edit := |s.edits|), s.edits + [spec]);
    }
  }

  /** Changes to the metadata of the present object. */
  lemma MetadataInv(w: World, s: State, o: Snapshot)
    requires Inv(w, s) && Current(s).Some?
    requires var c := Current(s).value;
      o == c.(deleting := o.deleting, finalizers := o.finalizers) && (c.deleting ==> o.deleting)
    ensures Inv(w, Append(s, Settled(o)))
  {
    var c := Current(s).value;
    assert Owned(w, SpecAt(s, Latest(s)));
    if Settled(o) == None {
      VanishInv(w, s);
    } else if o != c {
      FollowsInv(w, s, o, s.edits);
      assert s.(hist := s.hist + [Some(o)], edits := s.edits) == Append(s, Some(o));
    }
  }

  lemma EditFinalizersInv(w: World, s: State, finalizers: set<string>)
    requires Inv(w, s) && Allowed(w, s, EditFinalizers(finalizers))
    ensures Inv(w, Step(w, s, EditFinalizers(finalizers)))
  {
    if Current(s).Some? && (Current(s).value.deleting ==> finalizers <= Current(s).value.finalizers) {
      MetadataInv(w, s, Current(s).value.(finalizers := finalizers));
    }
  }

  lemma DeleteInv(w: World, s: State)
    requires Inv(w, s)
    ensures Inv(w, Step(w, s, Delete))
  {
    if Current(s).Some? {
      MetadataInv(w, s, Current(s).value.(deleting := true));
    }
  }

  /* ---------- Steps that make no version ---------- */

  /** They keep what is said of the versions alone. */
  lemma SameVersions(w: World, s: State, s': State)
    requires Shape(w, s) && Vouches(w, s)
    requires s'.hist == s.hist && s'.born == s.born && s'.edits == s.edits
    requires forall v :: v in s.saves ==> v in s'.saves
    ensures Shape(w, s') && Vouches(w, s')
  {
    assert forall v :: Alive(s', v) <==> Alive(s, v);
    forall v | Alive(s', v) && s'.hist[v].value.status.isUploaded ensures Vouched(w, s', v) {
      assert Vouched(w, s, v);
    }
  }

  /** They leave alone what is stored of the Snapshot. */
  predicate SameGoods(w: World, s: State, s': State) {
    && s'.hist == s.hist && s'.born == s.born && s'.edits == s.edits && s'.saves == s.saves
    && s'.stored == s.stored && s'.former == s.former
  }

  lemma SameStored(w: World, s: State, s': State)
    requires Stored(w, s) && Kept(w, s) && SameGoods(w, s, s')
    requires forall name :: w.ours(name) ==> (name in s'.store <==> name in s.store)
    requires forall name :: w.ours(name) && name in s.store ==> s'.store[name] == s.store[name]
    ensures Stored(w, s') && Kept(w, s')
  {
    assert forall v :: v in s.saves ==> Saved(w, s, v) && Saved(w, s', v);
    forall name | name in s'.stored ensures Holding(w, s', name) {
      assert Holding(w, s, name);
      assert forall u :: SavedAs(w, s', u, name) ==> SavedAs(w, s, u, name);
    }
    if Current(s').Some? && !Current(s').value.deleting {
      forall v | v in s'.saves && v >= s'.born && Saved(w, s', v) ensures StillThere(w, s', v) {
        assert Saved(w, s, v) && StillThere(w, s, v);
      }
    }
  }

  lemma QuietInv(w: World, s: State, l: Label)
    requires Inv(w, s) && Allowed(w, s, l)
    requires l.CacheTo? || l.OtherWrite? || l.Crash? || l.Begin?
    ensures Inv(w, Step(w, s, l))
  {
    var s' := Step(w, s, l);
    QuietGoods(w, s, l);
    SameVersions(w, s, s');
    SameStored(w, s, s');
  }

  lemma QuietGoods(w: World, s: State, l: Label)
    requires Order(s) && Local(w, s) && Allowed(w, s, l)
    requires l.CacheTo? || l.OtherWrite? || l.Crash? || l.Begin?
    ensures var s' := Step(w, s, l);
      && SameGoods(w, s, s')
      && (forall name :: w.ours(name) ==> (name in s'.store <==> name in s.store))
      && (forall name :: w.ours(name) && name in s.store ==> s'.store[name] == s.store[name])
      && Order(s') && Local(w, s')
  {
    var s' := Step(w, s, l);
    assert s'.pc == s.pc || s'.pc.Idle? || s'.pc.Fetching?;
  }

  lemma GetInv(w: World, s: State, found: bool)
    requires Inv(w, s)
    ensures Inv(w, Step(w, s, Get(found)))
  {
    var s' := Step(w, s, Get(found));
    SameVersions(w, s, s');
    SameStored(w, s, s');
    GetLocal(w, s, found);
  }

  lemma GetLocal(w: World, s: State, found: bool)
    requires Order(s) && Local(w, s)
    ensures Order(Step(w, s, Get(found))) && Local(w, Step(w, s, Get(found)))
  {
  }

  lemma RemoveInv(w: World, s: State, outcome: Outcome)
    requires Inv(w, s)
    ensures Inv(w, Step(w, s, Remove(outcome)))
  {
    if s.pc.Removing? {
      RemoveLocal(w, s, outcome);
      DroppedInv(w, s, AfterRemove(w, s, outcome));
    }
  }

  lemma DroppedInv(w: World, s: State, s': State)
    requires Inv(w, s) && s.pc.Removing? && Dropped(s, s')
    requires s' == s.(pc := s'.pc, storage := s'.storage, store := s'.store, stored := s'.stored)
    requires Order(s') && Local(w, s')
    ensures Inv(w, s')
  {
    SameVersions(w, s, s');
    RemoveStored(w, s, s');
  }

  /** The state after a removal: one name less, or the same names. */
  lemma RemoveLocal(w: World, s: State, outcome: Outcome)
    requires Local(w, s) && Order(s) && s.pc.Removing?
    ensures var s' := AfterRemove(w, s, outcome);
      && Order(s') && Local(w, s')
      && s' == s.(pc := s'.pc, storage := s'.storage, store := s'.store, stored := s'.stored)
      && Dropped(s, s')
  {
  }

  ghost predicate Dropped(s: State, s': State) {
    || (s'.store == s.store && s'.stored == s.stored)
    || exists name :: s'.store == s.store - {name} && s'.stored == s.stored - {name}
  }

  lemma RemoveStored(w: World, s: State, s': State)
    requires Shape(w, s) && Stored(w, s) && Kept(w, s) && Local(w, s) && Order(s) && s.pc.Removing? && Dropped(s, s')
    requires s' == s.(pc := s'.pc, storage := s'.storage, store := s'.store, stored := s'.stored)
    ensures Stored(w, s') && Kept(w, s')
  {
    StillSaved(w, s, s');
    forall name | name in s'.stored ensures Holding(w, s', name) {
      StillHolding(w, s, s', name);
    }
    if Current(s).Some? && !Current(s).value.deleting {
      assert Alive(s, Latest(s)) && !Alive(s, s.pc.rv);
      assert forall v :: v in s.saves ==> v < s.born;
    }
  }

  lemma StillSaved(w: World, s: State, s': State)
    requires s'.hist == s.hist && s'.saves == s.saves && forall v :: v in s.saves ==> Saved(w, s, v)
    ensures forall v :: v in s'.saves ==> Saved(w, s', v)
  {
    forall v | v in s'.saves ensures Saved(w, s', v) {
      assert Saved(w, s, v);
    }
  }

  lemma StillHolding(w: World, s: State, s': State, name: string)
    requires s'.hist == s.hist && s'.saves == s.saves
    requires name in s.stored && Holding(w, s, name)
    requires name in s'.stored && s'.stored[name] == s.stored[name]
    requires name in s'.store && s'.store[name] == s.store[name]
    ensures Holding(w, s', name)
  {
    assert forall u :: SavedAs(w, s', u, name) ==> SavedAs(w, s, u, name);
  }

  lemma SaveInv(w: World, s: State, outcome: Outcome)
    requires Inv(w, s)
    ensures Inv(w, Step(w, s, Save(outcome)))
  {
    if s.pc.Uploading? {
      var s' := AfterSave(w, s, outcome);
      SaveShape(w, s, outcome);
      TriedInv(w, s, s');
    }
  }

  lemma TriedInv(w: World, s: State, s': State)
    requires Inv(w, s) && s.pc.Uploading? && Tried(w, s, s')
    ensures Inv(w, s')
  {
    TriedLocal(w, s, s');
    SameVersions(w, s, s');
    if s' == s.(pc := s'.pc, storage := s'.storage) {
      SameStored(w, s, s');
    } else {
      SaveStored(w, s, s');
      SaveKept(w, s, s');
    }
  }

  /** The version was saved and is the last one now. */
  ghost predicate Put(w: World, s: State, s': State) {
    && s.pc.Uploading? && Uploads(w, s.pc.obj.spec)
    && var rv, name := s.pc.rv, Key(w, s.pc.obj.spec).value;
    && s' == s.(pc := s'.pc, saves := s.saves + [rv], stored := s.stored[name := rv],
                store := s.store[name := w.decode(s.pc.obj.spec.base64Hashes).value])
  }

  /** An upload was tried: saved or not, and a status to report or a panic. */
  ghost predicate Tried(w: World, s: State, s': State)
    requires s.pc.Uploading?
  {
    && (s' == s.(pc := s'.pc, storage := s'.storage) || Put(w, s, s'))
    && (s'.pc.Idle? || (s'.pc.Reporting? && s'.pc.rv == s.pc.rv))
    && (s'.pc.Reporting? && s'.pc.obj.status.isUploaded ==>
          Put(w, s, s') && s'.pc.obj.status.controlHash == w.md5(s.pc.obj.spec.base64Hashes))
  }

  lemma SaveShape(w: World, s: State, outcome: Outcome)
    requires s.pc.Uploading?
    ensures Tried(w, s, AfterSave(w, s, outcome))
  {
  }

  lemma TriedLocal(w: World, s: State, s': State)
    requires Local(w, s) && Order(s) && s.pc.Uploading? && Tried(w, s, s')
    ensures Order(s') && Local(w, s')
  {
    var rv := s.pc.rv;
    assert s'.saves == s.saves || s'.saves == s.saves + [rv];
    assert SpecAt(s', rv) == s.pc.obj.spec;
  }

  lemma SaveStored(w: World, s: State, s': State)
    requires Shape(w, s) && Local(w, s) && Stored(w, s) && Order(s) && Put(w, s, s')
    ensures Stored(w, s')
  {
    var rv := s.pc.rv;
    assert Owned(w, SpecAt(s, rv));
    forall v | v in s'.saves ensures Saved(w, s', v) {
      assert v in s.saves ==> Saved(w, s, v);
    }
    forall name | name in s'.stored ensures Holding(w, s', name) {
      PutHolds(w, s, s', name);
    }
  }

  lemma PutHolds(w: World, s: State, s': State, name: string)
    requires Local(w, s) && Order(s) && Put(w, s, s') && name in s'.stored && Owned(w, s.pc.obj.spec)
    requires Stored(w, s)
    ensures Holding(w, s', name)
  {
    if Key(w, s.pc.obj.spec) == Some(name) {
      PutHoldsNew(w, s, s', name);
    } else {
      assert name in s.stored && Holding(w, s, name);
      PutHoldsOld(w, s, s', name);
    }
  }

  lemma PutHoldsNew(w: World, s: State, s': State, name: string)
    requires Local(w, s) && Order(s) && Put(w, s, s') && Owned(w, s.pc.obj.spec) && Key(w, s.pc.obj.spec) == Some(name)
    ensures name in s'.stored && Holding(w, s', name)
  {
    var rv := s.pc.rv;
    assert rv in s'.saves && SavedAs(w, s', rv, name);
    assert forall u :: u in s'.saves ==> u <= rv;
  }

  lemma PutHoldsOld(w: World, s: State, s': State, name: string)
    requires Local(w, s) && Put(w, s, s') && Key(w, s.pc.obj.spec) != Some(name)
    requires name in s.stored && Holding(w, s, name)
    ensures name in s'.stored && Holding(w, s', name)
  {
    assert !SavedAs(w, s', s.pc.rv, name);
    assert forall u :: SavedAs(w, s', u, name) <==> SavedAs(w, s, u, name);
  }

  lemma SaveKept(w: World, s: State, s': State)
    requires Stored(w, s) && Kept(w, s) && Order(s) && Local(w, s) && Put(w, s, s')
    ensures Kept(w, s')
  {
    if Current(s').Some? && !Current(s').value.deleting {
      forall v | v in s'.saves && v >= s'.born && Saved(w, s', v) ensures StillThere(w, s', v) {
        PutKeeps(w, s, s', v);
      }
    }
  }

  lemma PutKeeps(w: World, s: State, s': State, v: nat)
    requires Put(w, s, s') && Local(w, s) && Order(s) && Saved(w, s', v) && v in s'.saves
    requires v in s.saves ==> Saved(w, s, v) && StillThere(w, s, v)
    ensures StillThere(w, s', v)
  {
    if v == s.pc.rv {
      PutThere(w, s, s');
    } else {
      PutStillThere(w, s, s', v);
    }
  }

  lemma PutThere(w: World, s: State, s': State)
    requires Local(w, s) && Put(w, s, s') && Saved(w, s', s.pc.rv)
    ensures StillThere(w, s', s.pc.rv)
  {
  }

  lemma PutStillThere(w: World, s: State, s': State, v: nat)
    requires Put(w, s, s') && Order(s) && v in s.saves && Saved(w, s, v) && StillThere(w, s, v)
    ensures StillThere(w, s', v)
  {
  }

  lemma PutStatusInv(w: World, s: State, outcome: Outcome)
    requires Inv(w, s)
    ensures Inv(w, Step(w, s, PutStatus(outcome)))
  {
    if s.pc.Reporting? {
      IdleInv(w, s, s.settled);
      assert s.(pc := Idle, settled := s.settled) == s.(pc := Idle);
      if Accepts(s, s.pc.rv, outcome) {
        ReportedInv(w, s, s.(pc := Idle));
        WrittenStatus(s, outcome);
      }
    }
  }

  lemma WrittenStatus(s: State, outcome: Outcome)
    requires s.pc.Reporting? && Accepts(s, s.pc.rv, outcome)
    ensures AfterPutStatus(s, outcome) == Append(s.(pc := Idle), Some(Reported(s)))
  {
  }

  lemma ReportedInv(w: World, s: State, t: State)
    requires Local(w, s) && Shape(w, s) && s.pc.Reporting? && s.pc.rv == Latest(s) && Current(s).Some?
    requires t == s.(pc := Idle) && Inv(w, t)
    ensures Inv(w, Append(t, Some(Reported(s))))
  {
    StatusVouched(w, s, Reported(s));
    StatusWriteInv(w, t, Reported(s));
  }

  /** Dropping the local copy is always safe. */
  lemma IdleInv(w: World, s: State, settled: Option<nat>)
    requires Inv(w, s)
    ensures Inv(w, s.(pc := Idle, settled := settled))
  {
    var s' := s.(pc := Idle, settled := settled);
    SameVersions(w, s, s');
    SameStored(w, s, s');
  }

  /** The version that a status write makes of the present one. */
  function Reported(s: State): Snapshot
    requires s.pc.Reporting? && Current(s).Some?
  {
    var status, c := s.pc.obj.status, Current(s).value;
    c.(status := status, vouched := if status.isUploaded then s.pc.rv else c.vouched)
  }

  lemma StatusWriteInv(w: World, s: State, o: Snapshot)
    requires Inv(w, s) && Current(s).Some?
    requires o == Current(s).value.(status := o.status, vouched := o.vouched)
    requires var s' := s.(hist := s.hist + [Some(o)], edits := s.edits);
      o.status.isUploaded ==> Alive(s', Latest(s')) && Vouched(w, s', Latest(s'))
    ensures Inv(w, Append(s, Some(o)))
  {
    assert s.(hist := s.hist + [Some(o)]) == s.(hist := s.hist + [Some(o)], edits := s.edits);
    assert Owned(w, SpecAt(s, Latest(s)));
    FollowsShape(w, s, o, s.edits);
    FollowsVouches(w, s, s.(hist := s.hist + [Some(o)], edits := s.edits));
    FollowsGoods(w, s, o, s.edits);
  }

  /** The status that the controller writes on the version it worked from is vouched for. */
  lemma StatusVouched(w: World, s: State, o: Snapshot)
    requires Local(w, s) && Shape(w, s) && s.pc.Reporting? && s.pc.rv == Latest(s)
    requires o.status == s.pc.obj.status && (o.status.isUploaded ==> o.vouched == s.pc.rv)
    ensures var s' := s.(pc := Idle).(hist := s.hist + [Some(o)], edits := s.edits);
      o.status.isUploaded ==> Alive(s', Latest(s')) && Vouched(w, s', Latest(s'))
  {
    var s' := s.(pc := Idle).(hist := s.hist + [Some(o)], edits := s.edits);
    assert forall v :: 0 <= v < |s.hist| ==> s'.hist[v] == s.hist[v];
  }

  lemma PutFinalizersInv(w: World, s: State, outcome: Outcome)
    requires Inv(w, s)
    ensures Inv(w, Step(w, s, PutFinalizers(outcome)))
  {
    if s.pc.Finalizing? {
      if Accepts(s, s.pc.rv, outcome) {
        var t := s.(pc := Idle, settled := Some(Current(s).value.edit));
        IdleInv(w, s, t.settled);
        MetadataInv(w, t, Current(s).value.(finalizers := s.pc.obj.finalizers));
        WrittenFinalizers(s, outcome, t);
      } else {
        IdleInv(w, s, s.settled);
      }
    }
  }

  lemma WrittenFinalizers(s: State, outcome: Outcome, t: State)
    requires s.pc.Finalizing? && Accepts(s, s.pc.rv, outcome)
    requires t == s.(pc := Idle, settled := Some(Current(s).value.edit))
    ensures AfterPutFinalizers(s, outcome)
         == Append(t, Settled(Current(s).value.(finalizers := s.pc.obj.finalizers)))
  {
  }

  /* ---------- Every step, every run ---------- */

  lemma StepInv(w: World, s: State, l: Label)
    requires Inv(w, s) && Allowed(w, s, l)
    ensures Inv(w, Step(w, s, l))
  {
    match l
    case Create(spec, finalizers) => CreateInv(w, s, spec, finalizers);
    case EditSpec(spec) => EditSpecInv(w, s, spec);
    case EditFinalizers(finalizers) => EditFinalizersInv(w, s, finalizers);
    case Delete => DeleteInv(w, s);
    case CacheTo(_) => QuietInv(w, s, l);
    case OtherWrite(_, _) => QuietInv(w, s, l);
    case Crash => QuietInv(w, s, l);
    case Begin(_) => QuietInv(w, s, l);
    case Get(found) => GetInv(w, s, found);
    case Remove(outcome) => RemoveInv(w, s, outcome);
    case Save(outcome) => SaveInv(w, s, outcome);
    case PutStatus(outcome) => PutStatusInv(w, s, outcome);
    case PutFinalizers(outcome) => PutFinalizersInv(w, s, outcome);
  }

  lemma {:induction false} RunInv(w: World, s: State, ls: seq<Label>)
    requires Inv(w, s) && AllowedRun(w, s, ls)
    ensures Inv(w, Exec(w, s, ls))
    decreases |ls|
  {
    if ls != [] {
      StepInv(w, s, ls[0]);
      RunInv(w, Step(w, s, ls[0]), ls[1..]);
    }
  }

  lemma ReachableInv(w: World, s: State)
    requires Reachable(w, s)
    ensures Inv(w, s)
  {
    var store, ls :| Clear(w, store) && AllowedRun(w, Init(store), ls) && Exec(w, Init(store), ls) == s;
    InitInv(w, store);
    RunInv(w, Init(store), ls);
  }
}
