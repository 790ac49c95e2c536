/** Two Snapshots, each with its history, cache and reconciler, over one object store. */
module Neighbours {
  import opened Controller
  import opened ControllerInvariant
  import opened ControllerTheorems
  import opened Wrappers

  /** Both see the same store. */
  datatype Pair = Pair(a: State, b: State)

  datatype Side = Left(l: Label) | Right(l: Label)

  function PairStep(wa: World, wb: World, p: Pair, x: Side): Pair {
    match x
    case Left(l) => var a := Step(wa, p.a, l); Pair(a, p.b.(store := a.store))
    case Right(l) => var b := Step(wb, p.b, l); Pair(p.a.(store := b.store), b)
  }

  /** Either keeps to its own assumptions; third parties write under neither's names. */
  predicate PairAllowed(wa: World, wb: World, p: Pair, x: Side) {
    match x
    case Left(l) => Allowed(wa, p.a, l) && (l.OtherWrite? ==> !wb.ours(l.name))
    case Right(l) => Allowed(wb, p.b, l) && (l.OtherWrite? ==> !wa.ours(l.name))
  }

  function PairExec(wa: World, wb: World, p: Pair, xs: seq<Side>): Pair
    decreases |xs|
  {
    if xs == [] then p else PairExec(wa, wb, PairStep(wa, wb, p, xs[0]), xs[1..])
  }

  predicate PairRun(wa: World, wb: World, p: Pair, xs: seq<Side>)
    decreases |xs|
  {
    xs == [] || (PairAllowed(wa, wb, p, xs[0]) && PairRun(wa, wb, PairStep(wa, wb, p, xs[0]), xs[1..]))
  }

  function Fresh(store: map<string, string>): Pair {
    Pair(Init(store), Init(store))
  }

  ghost predicate PairReachable(wa: World, wb: World, p: Pair) {
    exists store, xs ::
      && Clear(wa, store) && Clear(wb, store)
      && PairRun(wa, wb, Fresh(store), xs) && PairExec(wa, wb, Fresh(store), xs) == p
  }

  /** The two are never given the same name. */
  ghost predicate Apart(wa: World, wb: World) {
    forall name :: !(wa.ours(name) && wb.ours(name))
  }

  /* ---------- Apart, each is alone ---------- */

  function WrittenTo(store: map<string, string>, name: string, data: Option<string>): map<string, string> {
    if data.None? then store - {name} else store[name := data.value]
  }

  /** A step changes the store under one name at most: one of the Snapshot's own, or that of a third
      party's write. */
  ghost predicate Touches(w: World, l: Label, before: map<string, string>, after: map<string, string>) {
    after == before || exists name, data ::
      after == WrittenTo(before, name, data) && (if l.OtherWrite? then name == l.name else w.ours(name))
  }

  lemma StepTouches(w: World, s: State, l: Label)
    requires Inv(w, s)
    ensures Touches(w, l, s.store, Step(w, s, l).store)
  {
    if l.Save? && s.pc.Uploading? {
      assert Owned(w, SpecAt(s, s.pc.rv));
      SaveTouches(w, s, l.outcome);
    } else if l.Remove? && s.pc.Removing? {
      assert Owned(w, SpecAt(s, s.pc.rv));
      RemoveTouches(w, s, l.outcome);
    } else if l.OtherWrite? {
      assert Step(w, s, l).store == WrittenTo(s.store, l.name, l.data);
    } else {
      NothingTouched(w, s, l);
    }
  }

  lemma NothingTouched(w: World, s: State, l: Label)
    requires !l.OtherWrite? && !(l.Save? && s.pc.Uploading?) && !(l.Remove? && s.pc.Removing?)
    ensures Step(w, s, l).store == s.store
  {
  }

  lemma SaveTouches(w: World, s: State, outcome: Outcome)
    requires s.pc.Uploading? && Owned(w, s.pc.obj.spec)
    ensures Touches(w, Save(outcome), s.store, Step(w, s, Save(outcome)).store)
  {
    var spec := s.pc.obj.spec;
    if Uploads(w, spec) && !outcome.Fail? {
      assert Step(w, s, Save(outcome)).store == WrittenTo(s.store, Key(w, spec).value, w.decode(spec.base64Hashes));
    }
  }

  lemma RemoveTouches(w: World, s: State, outcome: Outcome)
    requires s.pc.Removing? && Owned(w, s.pc.obj.spec)
    ensures Touches(w, Remove(outcome), s.store, Step(w, s, Remove(outcome)).store)
  {
    var spec := s.pc.obj.spec;
    if Key(w, spec).Some? && !outcome.Fail? {
      assert Step(w, s, Remove(outcome)).store == WrittenTo(s.store, Key(w, spec).value, None);
    }
  }

  /** What one does is to the other a write by someone else, or nothing. */
  lemma SeenAsForeign(w: World, s: State, store: map<string, string>, name: string, data: Option<string>)
    requires Reachable(w, s) && !w.ours(name) && store == WrittenTo(s.store, name, data)
    ensures Reachable(w, s.(store := store))
  {
    StepReachable(w, s, OtherWrite(name, data));
    assert Step(w, s, OtherWrite(name, data)) == s.(store := store);
  }

  ghost predicate EachAlone(wa: World, wb: World, p: Pair) {
    Reachable(wa, p.a) && Reachable(wb, p.b) && p.a.store == p.b.store
  }

  lemma OtherSide(w: World, w': World, s: State, t: State, l: Label)
    requires Apart(w, w') && Reachable(w, s) && Reachable(w', t) && s.store == t.store
    requires Allowed(w, s, l) && (l.OtherWrite? ==> !w'.ours(l.name))
    ensures Reachable(w, Step(w, s, l)) && Reachable(w', t.(store := Step(w, s, l).store))
  {
    var after := Step(w, s, l).store;
    StepReachable(w, s, l);
    ReachableInv(w, s);
    StepTouches(w, s, l);
    if after == t.store {
      assert t.(store := after) == t;
    } else {
      var name, data :| after == WrittenTo(s.store, name, data) && (if l.OtherWrite? then name == l.name else w.ours(name));
      SeenAsForeign(w', t, after, name, data);
    }
  }

  lemma {:induction false} RunsAlone(wa: World, wb: World, p: Pair, xs: seq<Side>)
    requires Apart(wa, wb) && EachAlone(wa, wb, p) && PairRun(wa, wb, p, xs)
    ensures EachAlone(wa, wb, PairExec(wa, wb, p, xs))
    decreases |xs|
  {
    if xs != [] {
      match xs[0]
      case Left(l) =>
        OtherSide(wa, wb, p.a, p.b, l);
        RunsAlone(wa, wb, PairStep(wa, wb, p, xs[0]), xs[1..]);
      case Right(l) =>
        OtherSide(wb, wa, p.b, p.a, l);
        RunsAlone(wa, wb, PairStep(wa, wb, p, xs[0]), xs[1..]);
    }
  }

  lemma FreshAlone(w: World, store: map<string, string>)
    requires Clear(w, store)
    ensures Reachable(w, Init(store))
  {
    assert AllowedRun(w, Init(store), []) && Exec(w, Init(store), []) == Init(store);
  }

  /** Snapshots that are never given the same name do not disturb each other: everything that is shown of
      one Snapshot holds of each of two. */
  lemma ApartIsAlone(wa: World, wb: World, p: Pair)
    requires Apart(wa, wb) && PairReachable(wa, wb, p)
    ensures EachAlone(wa, wb, p)
  {
    var store, xs :| Clear(wa, store) && Clear(wb, store)
      && PairRun(wa, wb, Fresh(store), xs) && PairExec(wa, wb, Fresh(store), xs) == p;
    FreshAlone(wa, store);
    FreshAlone(wb, store);
    RunsAlone(wa, wb, Fresh(store), xs);
  }

  /* ---------- One name for both ---------- */

  lemma {:induction false} PairConcat(wa: World, wb: World, p: Pair, xs: seq<Side>, x: Side)
    requires PairRun(wa, wb, p, xs) && PairAllowed(wa, wb, PairExec(wa, wb, p, xs), x)
    ensures PairRun(wa, wb, p, xs + [x])
    ensures PairExec(wa, wb, p, xs + [x]) == PairStep(wa, wb, PairExec(wa, wb, p, xs), x)
    decreases |xs|
  {
    if xs == [] {
      assert [] + [x] == [x] && [x][1..] == [];
    } else {
      assert (xs + [x])[0] == xs[0] && (xs + [x])[1..] == xs[1..] + [x];
      PairConcat(wa, wb, PairStep(wa, wb, p, xs[0]), xs[1..], x);
    }
  }

  lemma PairGoesOn(wa: World, wb: World, p: Pair, x: Side)
    requires PairReachable(wa, wb, p) && PairAllowed(wa, wb, p, x)
    ensures PairReachable(wa, wb, PairStep(wa, wb, p, x))
  {
    var store, xs :| Clear(wa, store) && Clear(wb, store)
      && PairRun(wa, wb, Fresh(store), xs) && PairExec(wa, wb, Fresh(store), xs) == p;
    PairConcat(wa, wb, Fresh(store), xs, x);
  }

  /** The left one goes on alone, and the right one sees what it stores. */
  function LeftAt(p: Pair, a: State): Pair {
    Pair(a, p.b.(store := a.store))
  }

  function RightAt(p: Pair, b: State): Pair {
    Pair(p.a.(store := b.store), b)
  }

  lemma {:induction false} LeftFinishes(wa: World, wb: World, p: Pair)
    requires PairReachable(wa, wb, p) && p.a.store == p.b.store
    ensures PairReachable(wa, wb, LeftAt(p, Finish(wa, p.a)))
    decreases Rank(p.a.pc)
  {
    if p.a.pc.Idle? {
      assert LeftAt(p, p.a) == p;
    } else {
      NextRanks(wa, p.a);
      PairGoesOn(wa, wb, p, Left(NextCall(p.a.pc)));
      LeftFinishes(wa, wb, PairStep(wa, wb, p, Left(NextCall(p.a.pc))));
    }
  }

  lemma {:induction false} RightFinishes(wa: World, wb: World, p: Pair)
    requires PairReachable(wa, wb, p) && p.a.store == p.b.store
    ensures PairReachable(wa, wb, RightAt(p, Finish(wb, p.b)))
    decreases Rank(p.b.pc)
  {
    if p.b.pc.Idle? {
      assert RightAt(p, p.b) == p;
    } else {
      NextRanks(wb, p.b);
      PairGoesOn(wa, wb, p, Right(NextCall(p.b.pc)));
      RightFinishes(wa, wb, PairStep(wa, wb, p, Right(NextCall(p.b.pc))));
    }
  }

  /** Created, seen and uploaded by an undisturbed reconcile. */
  lemma LeftUploads(wa: World, wb: World, spec: Spec, finalizers: set<string>) returns (p: Pair)
    requires wa.created(finalizers) && Uploads(wa, spec) && Owned(wa, spec)
    ensures PairReachable(wa, wb, p) && p.a.edits == [spec] && ClaimsUpload(wa, p.a) && Current(p.a).value.spec == spec
    ensures p.b == Init(p.a.store)
  {
    p := Fresh(map[]);
    assert PairRun(wa, wb, p, []) && PairExec(wa, wb, p, []) == p && Clear(wa, map[]) && Clear(wb, map[]);
    PairGoesOn(wa, wb, p, Left(Create(spec, finalizers)));
    p := PairStep(wa, wb, p, Left(Create(spec, finalizers)));
    PairGoesOn(wa, wb, p, Left(CacheTo(1)));
    p := PairStep(wa, wb, p, Left(CacheTo(1)));
    assert Rested(p.a) && Current(p.a).value.spec == spec && p.a.edits == [spec] && p.b == Init(p.a.store);
    p := LeftReconciles(wa, wb, p, Key(wa, spec).value, wa.decode(spec.base64Hashes).value);
  }

  lemma LeftReconciles(wa: World, wb: World, p: Pair, name: string, data: string) returns (q: Pair)
    requires PairReachable(wa, wb, p) && p.a.store == p.b.store && Rested(p.a) && !p.a.storage.Broken?
    requires Current(p.a).Some? && !Current(p.a).value.deleting && NeedsUpload(wa, Current(p.a).value)
    requires Key(wa, Current(p.a).value.spec) == Some(name)
    requires wa.decode(Current(p.a).value.spec.base64Hashes) == Some(data)
    ensures PairReachable(wa, wb, q) && q.a.edits == p.a.edits && ClaimsUpload(wa, q.a)
    ensures Current(q.a).value.spec == Current(p.a).value.spec && q.b == p.b.(store := q.a.store)
  {
    PairGoesOn(wa, wb, p, Left(Begin(true)));
    LeftFinishes(wa, wb, PairStep(wa, wb, p, Left(Begin(true))));
    ReconcileUploads(wa, p.a, name, data);
    q := LeftAt(p, Reconcile(wa, p.a));
  }

  /** Created, deleted with the finalizer on, and removed by an undisturbed reconcile. */
  lemma RightRemoves(wa: World, wb: World, p: Pair, spec: Spec, finalizers: set<string>, name: string) returns (q: Pair)
    requires PairReachable(wa, wb, p) && p.b == Init(p.a.store)
    requires wb.created(finalizers) && Owned(wb, spec) && Key(wb, spec) == Some(name)
    ensures PairReachable(wa, wb, q) && q.a == p.a.(store := p.a.store - {name})
  {
    q := RightCreated(wa, wb, p, spec, finalizers);
    q := RightDeleted(wa, wb, q);
    q := RightReleases(wa, wb, q, name);
  }

  lemma RightCreated(wa: World, wb: World, p: Pair, spec: Spec, finalizers: set<string>) returns (q: Pair)
    requires PairReachable(wa, wb, p) && p.b == Init(p.a.store) && wb.created(finalizers) && Owned(wb, spec)
    ensures PairReachable(wa, wb, q) && q.a == p.a && RightRests(q)
    ensures Current(q.b).Some? && !Current(q.b).value.deleting && Current(q.b).value.spec == spec
    ensures FINALIZER in Current(q.b).value.finalizers
  {
    var all := finalizers + {FINALIZER};
    PairGoesOn(wa, wb, p, Right(Create(spec, finalizers)));
    q := PairStep(wa, wb, p, Right(Create(spec, finalizers)));
    PairGoesOn(wa, wb, q, Right(EditFinalizers(all)));
    q := PairStep(wa, wb, q, Right(EditFinalizers(all)));
  }

  /** Nothing under way on the right, and the cache behind. */
  predicate RightRests(p: Pair) {
    p.b.pc.Idle? && !p.b.storage.Broken? && p.a.store == p.b.store && p.b.cache < Latest(p.b)
  }

  lemma RightDeleted(wa: World, wb: World, p: Pair) returns (q: Pair)
    requires PairReachable(wa, wb, p) && RightRests(p) && Current(p.b).Some? && !Current(p.b).value.deleting
    requires FINALIZER in Current(p.b).value.finalizers
    ensures PairReachable(wa, wb, q) && RightRests(q) && q.a == p.a
    ensures Current(q.b) == Some(Current(p.b).value.(deleting := true))
  {
    PairGoesOn(wa, wb, p, Right(Delete));
    q := PairStep(wa, wb, p, Right(Delete));
  }

  lemma RightReleases(wa: World, wb: World, p: Pair, name: string) returns (q: Pair)
    requires PairReachable(wa, wb, p) && RightRests(p) && Current(p.b).Some? && Current(p.b).value.deleting
    requires Key(wb, Current(p.b).value.spec) == Some(name)
    ensures PairReachable(wa, wb, q) && q.a == p.a.(store := p.a.store - {name})
  {
    PairGoesOn(wa, wb, p, Right(CacheTo(Latest(p.b))));
    q := PairStep(wa, wb, p, Right(CacheTo(Latest(p.b))));
    assert Rested(q.b) && q.a == p.a && q.b == p.b.(cache := Latest(p.b));
    q := RightReconciles(wa, wb, q, name);
  }

  lemma RightReconciles(wa: World, wb: World, p: Pair, name: string) returns (q: Pair)
    requires PairReachable(wa, wb, p) && p.a.store == p.b.store && Rested(p.b) && !p.b.storage.Broken?
    requires Current(p.b).Some? && Current(p.b).value.deleting && Key(wb, Current(p.b).value.spec) == Some(name)
    ensures PairReachable(wa, wb, q) && q.a == p.a.(store := p.a.store - {name})
  {
    PairGoesOn(wa, wb, p, Right(Begin(true)));
    RightFinishes(wa, wb, PairStep(wa, wb, p, Right(Begin(true))));
    ReconcileRemoves(wb, p.b, name);
    q := RightAt(p, Reconcile(wb, p.b));
  }

  lemma OneEditIsSafe(w: World, spec: Spec)
    ensures !Unsafe(w, [spec])
  {
    forall i, j | 0 <= i <= j < 1 ensures !Confuses(w, [spec], i, j) {
      assert i == 0 && j == 0;
    }
  }

  /** With one name for both, deleting the right one takes away what the left one's status claims. */
  lemma SharedNameMisleads(wa: World, wb: World, one: Spec, fa: set<string>, other: Spec, fb: set<string>) returns (p: Pair)
    requires wa.created(fa) && wb.created(fb) && Uploads(wa, one) && Owned(wa, one) && Owned(wb, other)
    requires Key(wa, one) == Key(wb, other)
    ensures PairReachable(wa, wb, p) && !Unsafe(wa, p.a.edits) && !Coherent(wa, p.a)
  {
    p := LeftUploads(wa, wb, one, fa);
    OneEditIsSafe(wa, one);
    p := RightRemoves(wa, wb, p, other, fb, Key(wa, one).value);
  }

  /** Every name is that of a spec that can be uploaded. */
  ghost predicate NamesAreUsed(w: World) {
    forall name :: w.ours(name) ==> exists spec :: Uploads(w, spec) && Key(w, spec) == Some(name)
  }

  /** Of two Snapshots over one store, each with safe edits, both statuses can be trusted in every run, if
      and only if the two are never given the same name. */
  lemma TrustedExactlyWhenApart(wa: World, wb: World, fa: set<string>, fb: set<string>)
    requires wa.created(fa) && wb.created(fb) && NamesAreUsed(wa) && NamesAreUsed(wb)
    ensures (forall p :: PairReachable(wa, wb, p) ==> BothTrusted(wa, wb, p)) <==> Apart(wa, wb)
  {
    if Apart(wa, wb) {
      forall p | PairReachable(wa, wb, p) ensures BothTrusted(wa, wb, p) {
        ApartIsAlone(wa, wb, p);
        AloneIsTrusted(wa, p.a);
        AloneIsTrusted(wb, p.b);
      }
    } else {
      var name :| wa.ours(name) && wb.ours(name);
      var one :| Uploads(wa, one) && Key(wa, one) == Some(name);
      var other :| Uploads(wb, other) && Key(wb, other) == Some(name);
      var p := SharedNameMisleads(wa, wb, one, fa, other, fb);
    }
  }

  ghost predicate BothTrusted(wa: World, wb: World, p: Pair) {
    && (!Unsafe(wa, p.a.edits) ==> Coherent(wa, p.a))
    && (!Unsafe(wb, p.b.edits) ==> Coherent(wb, p.b))
  }

  lemma AloneIsTrusted(w: World, s: State)
    requires Reachable(w, s)
    ensures !Unsafe(w, s.edits) ==> Coherent(w, s)
  {
    ReachableInv(w, s);
    if !Unsafe(w, s.edits) {
      SafeIsCoherent(w, s);
    }
  }
}
