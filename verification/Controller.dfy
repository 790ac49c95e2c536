/** The snapshot controller as a protocol: one Snapshot, its history of API versions, the informer
    cache, the object store, and a reconciler that works on a local copy between remote calls. */
module Controller {
  import opened Wrappers
  import ObjectKey

  const FINALIZER := "controller.snapshot/finalizer"

  datatype Spec = Spec(image: string, base64Hashes: string, algorithm: string)

  datatype Status = Status(isUploaded: bool, controlHash: string)

  /** `edit` and `vouched` are history: the edit of the spec that this version carries, and the
      version whose upload the status was last written for. */
  datatype Snapshot = Snapshot(
    spec: Spec,
    status: Status,
    deleting: bool,
    finalizers: set<string>,
    edit: nat,
    vouched: nat)

  /** What does not change during a run: how objects are named, which names no one but this Snapshot's
      reconciler writes to, and the sets of finalizers it may be created with. Naming, md5 and base64
      decoding are any functions; a name that cannot be built is a panic. */
  datatype World = World(
    key: Spec -> Option<string>,
    ours: string -> bool,
    created: set<string> -> bool,
    md5: string -> string,
    decode: string -> Option<string>)

  function Key(w: World, spec: Spec): Option<string> {
    w.key(spec)
  }

  /** The controller's way of naming objects. */
  ghost predicate Named(w: World, namespace: string) {
    forall spec: Spec :: w.key(spec) == ObjectKey.BuildObjectName(namespace, spec.image, spec.algorithm)
  }

  /** A spec that an upload gets past the panic and the decoding with. */
  predicate Uploads(w: World, spec: Spec) {
    Key(w, spec).Some? && w.decode(spec.base64Hashes).Some?
  }

  datatype Storage = Untried | Ready | Broken

  /** Where the reconciler is: the next remote call, with the local copy and the version it came from. */
  datatype PC =
    | Idle
    | Fetching
    | Removing(rv: nat, obj: Snapshot)
    | Finalizing(rv: nat, obj: Snapshot)
    | Uploading(rv: nat, obj: Snapshot)
    | Reporting(rv: nat, obj: Snapshot)

  /** `hist[v]` is the object at resource version v, None where it does not exist. The fields from
      `born` on are history: when the present incarnation was created, the specs it was given edit by
      edit, the versions whose contents were saved, the version stored under each name, the names stored
      when the incarnation was created, and the edit at which the controller last took its finalizer off. */
  datatype RawState = RawState(
    hist: seq<Option<Snapshot>>,
    cache: nat,
    store: map<string, string>,
    storage: Storage,
    pc: PC,
    born: nat,
    edits: seq<Spec>,
    saves: seq<nat>,
    stored: map<string, nat>,
    former: set<string>,
    settled: Option<nat>)

  type State = s: RawState | s.cache < |s.hist| witness RawState([None], 0, map[], Untried, Idle, 1, [], [], map[], {}, None)

  function Init(store: map<string, string>): State {
    RawState([None], 0, store, Untried, Idle, 1, [], [], map[], {}, None)
  }

  function Latest(s: State): nat {
    |s.hist| - 1
  }

  function Current(s: State): Option<Snapshot> {
    s.hist[|s.hist| - 1]
  }

  /** Ok: the call did its work and said so. Lost: it did its work but reported an error. Fail: it
      did nothing and reported an error. */
  datatype Outcome = Ok | Lost | Fail

  datatype Label =
    // the world around the controller
    | Create(spec: Spec, finalizers: set<string>)
    | EditSpec(spec: Spec)
    | EditFinalizers(finalizers: set<string>)
    | Delete
    | CacheTo(rv: nat)
    | OtherWrite(name: string, data: Option<string>)
    | Crash
    // the reconciler's calls
    | Begin(found: bool)
    | Get(found: bool)
    | Remove(outcome: Outcome)
    | Save(outcome: Outcome)
    | PutStatus(outcome: Outcome)
    | PutFinalizers(outcome: Outcome)

  /** A write that changes nothing makes no new version. */
  function Append(s: State, v: Option<Snapshot>): State {
    if v == Current(s) then s else s.(hist := s.hist + [v])
  }

  /** A deleted object stays until its last finalizer is gone. */
  function Settled(o: Snapshot): Option<Snapshot> {
    if o.deleting && o.finalizers == {} then None else Some(o)
  }

  function EditOf(s: State, o: Snapshot, spec: Spec): State {
    if spec == o.spec then s
    else Append(s, Some(o.(spec := spec, edit := |s.edits|))).(edits := s.edits + [spec])
  }

  /** A panic takes the process down; what it knew is lost, what it did stays. */
  function Restarted(s: State): State {
    s.(pc := Idle, storage := Untried)
  }

  predicate NeedsUpload(w: World, o: Snapshot) {
    w.md5(o.spec.base64Hashes) != o.status.controlHash || !o.status.isUploaded
  }

  /** The branch Reconcile takes on the object it fetched. */
  function Dispatch(w: World, rv: nat, o: Snapshot): PC {
    if o.deleting then Removing(rv, o)
    else if NeedsUpload(w, o) then Uploading(rv, o)
    else Idle
  }

  function Fetched(w: World, s: State): PC {
    match s.hist[s.cache]
    case None => Idle
    case Some(o) => Dispatch(w, s.cache, o)
  }

  function AfterRemove(w: World, s: State, outcome: Outcome): State
    requires s.pc.Removing?
  {
    match Key(w, s.pc.obj.spec)
    case None => Restarted(s)
    case Some(k) =>
      var s' := if outcome.Fail? then s else s.(store := s.store - {k}, stored := s.stored - {k});
      s'.(pc := if outcome.Ok? then
                  Finalizing(s.pc.rv, s.pc.obj.(finalizers := s.pc.obj.finalizers - {FINALIZER}))
                else Idle)
  }

  function AfterSave(w: World, s: State, outcome: Outcome): State
    requires s.pc.Uploading?
  {
    var rv, obj := s.pc.rv, s.pc.obj;
    var failed := Reporting(rv, obj.(status := obj.status.(isUploaded := false)));
    match Key(w, obj.spec)
    case None => Restarted(s)
    case Some(k) =>
      match w.decode(obj.spec.base64Hashes)
      case None => s.(pc := failed)
      case Some(data) =>
        var s' := if outcome.Fail? then s
                  else s.(store := s.store[k := data], saves := s.saves + [rv], stored := s.stored[k := rv]);
        s'.(pc := if outcome.Ok? then
                    Reporting(rv, obj.(status := Status(true, w.md5(obj.spec.base64Hashes))))
                  else failed)
  }

  /** The API server takes a write only if it is based on the latest version. */
  function Accepts(s: State, rv: nat, outcome: Outcome): bool {
    !outcome.Fail? && rv == Latest(s) && Current(s).Some?
  }

  function AfterPutStatus(s: State, outcome: Outcome): State
    requires s.pc.Reporting?
  {
    var rv, status := s.pc.rv, s.pc.obj.status;
    var s' := if !Accepts(s, rv, outcome) then s
              else
                var o := Current(s).value;
                Append(s, Some(o.(status := status, vouched := if status.isUploaded then rv else o.vouched)));
    s'.(pc := Idle)
  }

  function AfterPutFinalizers(s: State, outcome: Outcome): State
    requires s.pc.Finalizing?
  {
    var s' := if !Accepts(s, s.pc.rv, outcome) then s
              else
                var c := Current(s).value;
                Append(s, Settled(c.(finalizers := s.pc.obj.finalizers)))
                .(settled := Some(c.edit));
    s'.(pc := Idle)
  }

  function StorageAfter(s: State, found: bool): Storage {
    if !s.storage.Untried? then s.storage else if found then Ready else Broken
  }

  /** One step. A label that has no meaning in a state leaves it alone. */
  function Step(w: World, s: State, l: Label): State {
    match l
    case Create(spec, finalizers) =>
      if Current(s).Some? then s
      else Append(s, Some(Snapshot(spec, Status(false, ""), false, finalizers, 0, 0)))
           .(born := |s.hist|, edits := [spec], former := s.stored.Keys, settled := None)
    case EditSpec(spec) =>
      if Current(s).None? then s else EditOf(s, Current(s).value, spec)
    case EditFinalizers(finalizers) =>
      if Current(s).None? || (Current(s).value.deleting && !(finalizers <= Current(s).value.finalizers)) then s
      else Append(s, Settled(Current(s).value.(finalizers := finalizers)))
    case Delete =>
      if Current(s).None? then s else Append(s, Settled(Current(s).value.(deleting := true)))
    case CacheTo(rv) =>
      if s.cache < rv <= Latest(s) then s.(cache := rv) else s
    case OtherWrite(name, data) =>
      s.(store := if data.None? then s.store - {name} else s.store[name := data.value])
    case Crash =>
      Restarted(s)
    case Begin(found) =>
      if !s.pc.Idle? then s
      else s.(storage := StorageAfter(s, found),
              pc := if StorageAfter(s, found).Ready? then Fetching else Idle)
    case Get(found) =>
      if !s.pc.Fetching? then s else s.(pc := if found then Fetched(w, s) else Idle)
    case Remove(outcome) =>
      if !s.pc.Removing? then s else AfterRemove(w, s, outcome)
    case Save(outcome) =>
      if !s.pc.Uploading? then s else AfterSave(w, s, outcome)
    case PutStatus(outcome) =>
      if !s.pc.Reporting? then s else AfterPutStatus(s, outcome)
    case PutFinalizers(outcome) =>
      if !s.pc.Finalizing? then s else AfterPutFinalizers(s, outcome)
  }

  function Exec(w: World, s: State, ls: seq<Label>): State
    decreases |ls|
  {
    if ls == [] then s else Exec(w, Step(w, s, ls[0]), ls[1..])
  }

  /* ---------- The assumptions on everyone else ---------- */

  /** The Snapshot is created with finalizers that it may be created with; only the controller takes
      its own finalizer off; nobody else writes under the names that the Snapshot is given. */
  predicate Allowed(w: World, s: State, l: Label) {
    match l
    case Create(spec, finalizers) => w.created(finalizers) && Owned(w, spec)
    case EditSpec(spec) => Owned(w, spec)
    case EditFinalizers(finalizers) =>
      Current(s).Some? && FINALIZER in Current(s).value.finalizers ==> FINALIZER in finalizers
    case OtherWrite(name, _) => !w.ours(name)
    case _ => true
  }

  predicate Owned(w: World, spec: Spec) {
    Key(w, spec).Some? ==> w.ours(Key(w, spec).value)
  }

  /** Every creation puts the controller's finalizer on. */
  ghost predicate Guarded(w: World) {
    forall finalizers :: w.created(finalizers) ==> FINALIZER in finalizers
  }

  predicate AllowedRun(w: World, s: State, ls: seq<Label>)
    decreases |ls|
  {
    ls == [] || (Allowed(w, s, ls[0]) && AllowedRun(w, Step(w, s, ls[0]), ls[1..]))
  }

  /** None of the Snapshot's own names is in use. */
  ghost predicate Clear(w: World, store: map<string, string>) {
    forall name :: name in store ==> !w.ours(name)
  }

  /** A state that some run under the assumptions ends in, from a store without the Snapshot's names. */
  ghost predicate Reachable(w: World, s: State) {
    exists store, ls :: Clear(w, store) && AllowedRun(w, Init(store), ls) && Exec(w, Init(store), ls) == s
  }

  lemma {:induction false} ExecConcat(w: World, s: State, a: seq<Label>, b: seq<Label>)
    ensures Exec(w, s, a + b) == Exec(w, Exec(w, s, a), b)
    ensures AllowedRun(w, s, a + b) <==> AllowedRun(w, s, a) && AllowedRun(w, Exec(w, s, a), b)
    decreases |a|
  {
    if a == [] {
      assert a + b == b;
    } else {
      assert (a + b)[1..] == a[1..] + b;
      ExecConcat(w, Step(w, s, a[0]), a[1..], b);
    }
  }

  /** Going on from a reachable state stays among the reachable ones. */
  lemma ReachableGoesOn(w: World, s: State, ls: seq<Label>)
    requires Reachable(w, s) && AllowedRun(w, s, ls)
    ensures Reachable(w, Exec(w, s, ls))
  {
    var store, before :| Clear(w, store) && AllowedRun(w, Init(store), before) && Exec(w, Init(store), before) == s;
    ExecConcat(w, Init(store), before, ls);
  }
}
