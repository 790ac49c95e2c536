/** Reconcile and its helpers as they are written, making remote calls one after the other while the
    world goes on around them. Whatever happens in between, a call of Reconcile takes the steps that
    the protocol allows it, and no others; undisturbed, it is the protocol's own reconcile. */
module Reconciler {
  import opened Controller
  import opened Wrappers
  import ControllerRuns
  import ControllerTheorems
  import ObjectKey

  /** What the world does before a remote call, and how the call then goes. */
  datatype Weather = Weather(moves: seq<Label>, outcome: Outcome)

  predicate IsMove(l: Label) {
    l.Create? || l.EditSpec? || l.EditFinalizers? || l.Delete? || l.CacheTo? || l.OtherWrite?
  }

  predicate Moves(ls: seq<Label>) {
    forall i :: 0 <= i < |ls| ==> IsMove(ls[i])
  }

  const CALM := Weather([], Ok)

  /** Requeue is a returned error: the request is tried again. */
  datatype Result = Done | Requeue | Panic

  /** What Reconcile returns if step `l` is its last, from the state it is taken in. */
  function Returns(w: World, s: State, l: Label): Option<Result> {
    match l
    case Begin(found) => if StorageAfter(s, found).Ready? then None else Some(Requeue)
    case Get(found) =>
      if !found then Some(Requeue) else if Fetched(w, s).Idle? then Some(Done) else None
    case Remove(outcome) =>
      if !s.pc.Removing? then None
      else if Key(w, s.pc.obj.spec).None? then Some(Panic)
      else if outcome.Ok? then None else Some(Requeue)
    case Save(outcome) =>
      if s.pc.Uploading? && Key(w, s.pc.obj.spec).None? then Some(Panic) else None
    case PutStatus(outcome) =>
      if !s.pc.Reporting? then None
      else if !s.pc.obj.status.isUploaded || (outcome.Ok? && Accepts(s, s.pc.rv, outcome)) then Some(Done)
      else Some(Requeue)
    case PutFinalizers(outcome) =>
      if !s.pc.Finalizing? then None
      else if outcome.Ok? && Accepts(s, s.pc.rv, outcome) then Some(Done) else Some(Requeue)
    case _ => None
  }

  /** The state as the world around the reconciler sees it. */
  function Shown(hist: seq<Option<Snapshot>>, cache: nat, store: map<string, string>, storage: Storage,
                 born: nat, edits: seq<Spec>): State
    requires cache < |hist|
  {
    RawState(hist, cache, store, storage, Idle, born, edits, [], map[], {}, None)
  }

  /** A move of the world depends on nothing that is the reconciler's, and leaves that alone. */
  lemma MovesAreForeign(w: World, s: State, l: Label)
    requires IsMove(l)
    ensures var t := Step(w, Shown(s.hist, s.cache, s.store, s.storage, s.born, s.edits), l); var s' := Step(w, s, l);
      s' == s.(hist := t.hist, cache := t.cache, store := t.store, born := t.born, edits := t.edits,
               former := s'.former, settled := s'.settled)
  {
    if l.EditFinalizers? || l.Delete? {
      MetadataIsForeign(w, s, l);
    } else {
      ContentIsForeign(w, s, l);
    }
  }

  lemma MetadataIsForeign(w: World, s: State, l: Label)
    requires l.EditFinalizers? || l.Delete?
    ensures var t := Step(w, Shown(s.hist, s.cache, s.store, s.storage, s.born, s.edits), l);
      Step(w, s, l) == s.(hist := t.hist) && t == Shown(t.hist, s.cache, s.store, s.storage, s.born, s.edits)
  {
  }

  lemma ContentIsForeign(w: World, s: State, l: Label)
    requires l.Create? || l.EditSpec? || l.CacheTo? || l.OtherWrite?
    ensures var t := Step(w, Shown(s.hist, s.cache, s.store, s.storage, s.born, s.edits), l); var s' := Step(w, s, l);
      s' == s.(hist := t.hist, cache := t.cache, store := t.store, born := t.born, edits := t.edits,
               former := s'.former, settled := s'.settled)
  {
  }

  /** The local copy whose status is written after an attempt to upload. */
  function Reported(w: World, o: Snapshot, uploaded: bool): Snapshot {
    o.(status := if uploaded then Status(true, w.md5(o.spec.base64Hashes)) else o.status.(isUploaded := false))
  }

  /* ---------- A call of Reconcile, as the protocol sees it ---------- */

  /** The reconciler's next call, going as it goes. */
  function Call(pc: PC, outcome: Outcome): Label {
    match pc
    case Idle => Begin(outcome.Ok?)
    case Fetching => Get(outcome.Ok?)
    case Removing(_, _) => Remove(outcome)
    case Uploading(_, _) => Save(outcome)
    case Finalizing(_, _) => PutFinalizers(outcome)
    case Reporting(_, _) => PutStatus(outcome)
  }

  datatype Played = Played(state: State, result: Option<Result>)

  /** The protocol's steps, a remote call in each weather, until Reconcile returns. */
  function Play(w: World, s: State, weathers: seq<Weather>): Played
    decreases |weathers|
  {
    if weathers == [] then Played(s, None)
    else
      var u, l := Exec(w, s, weathers[0].moves), Call(s.pc, weathers[0].outcome);
      if Returns(w, u, l).Some? then Played(Step(w, u, l), Returns(w, u, l))
      else Play(w, Step(w, u, l), weathers[1..])
  }

  lemma PlayTurn(w: World, s: State, weather: Weather, rest: seq<Weather>, u: State, l: Label, t: State)
    requires u == Exec(w, s, weather.moves) && l == Call(s.pc, weather.outcome) && t == Step(w, u, l)
    ensures Play(w, s, [weather] + rest)
         == if Returns(w, u, l).Some? then Played(t, Returns(w, u, l)) else Play(w, t, rest)
  {
    assert ([weather] + rest)[1..] == rest;
  }

  lemma {:induction false} PlayInTwo(w: World, s: State, a: seq<Weather>, b: seq<Weather>)
    ensures var first := Play(w, s, a);
      Play(w, s, a + b) == if first.result.Some? then first else Play(w, first.state, b)
    decreases |a|
  {
    if a == [] {
      assert a + b == b;
    } else {
      var u, l := Exec(w, s, a[0].moves), Call(s.pc, a[0].outcome);
      assert a == [a[0]] + a[1..] && a + b == [a[0]] + (a[1..] + b);
      PlayTurn(w, s, a[0], a[1..], u, l, Step(w, u, l));
      PlayTurn(w, s, a[0], a[1..] + b, u, l, Step(w, u, l));
      PlayInTwo(w, Step(w, u, l), a[1..], b);
    }
  }

  /** Reconcile returns exactly when the protocol is idle again. */
  lemma ReturnsWhenIdle(w: World, s: State, outcome: Outcome)
    ensures Returns(w, s, Call(s.pc, outcome)).Some? <==> Step(w, s, Call(s.pc, outcome)).pc.Idle?
  {
  }

  lemma CalmTurn(w: World, s: State, rest: seq<Weather>)
    ensures var t := Step(w, s, ControllerTheorems.NextCall(s.pc)); var p := Play(w, s, [CALM] + rest);
      if t.pc.Idle? then p.state == t && p.result.Some? else p == Play(w, t, rest)
  {
    var l := Call(s.pc, Ok);
    PlayTurn(w, s, CALM, rest, s, l, Step(w, s, l));
    ReturnsWhenIdle(w, s, Ok);
  }

  lemma {:induction false} CalmIsFinish(w: World, s: State, weathers: seq<Weather>)
    requires !s.pc.Idle? && ControllerTheorems.Rank(s.pc) <= |weathers|
    requires forall i :: 0 <= i < |weathers| ==> weathers[i] == CALM
    ensures Play(w, s, weathers).state == ControllerTheorems.Finish(w, s)
    decreases |weathers|
  {
    var t := Step(w, s, ControllerTheorems.NextCall(s.pc));
    assert weathers == [CALM] + weathers[1..];
    CalmTurn(w, s, weathers[1..]);
    ControllerTheorems.NextRanks(w, s);
    if !t.pc.Idle? {
      CalmIsFinish(w, t, weathers[1..]);
    }
  }

  /** In calm weather a call is the protocol's undisturbed reconcile. */
  lemma CalmIsReconcile(w: World, s: State)
    requires s.pc.Idle?
    ensures Play(w, s, [CALM, CALM, CALM, CALM]).state == ControllerTheorems.Reconcile(w, s)
  {
    var rest := [CALM, CALM, CALM];
    var t := Step(w, s, Begin(true));
    assert [CALM, CALM, CALM, CALM] == [CALM] + rest;
    CalmTurn(w, s, rest);
    if !t.pc.Idle? {
      CalmIsFinish(w, t, rest);
    }
  }

  /** The world keeps to the assumptions in between. */
  predicate Fair(w: World, s: State, weathers: seq<Weather>)
    decreases |weathers|
  {
    weathers == [] ||
    var u, l := Exec(w, s, weathers[0].moves), Call(s.pc, weathers[0].outcome);
    AllowedRun(w, s, weathers[0].moves) && (Returns(w, u, l).None? ==> Fair(w, Step(w, u, l), weathers[1..]))
  }

  /** What is proved of all reachable states holds after every call of Reconcile. */
  lemma {:induction false} PlayStaysReachable(w: World, s: State, weathers: seq<Weather>)
    requires Reachable(w, s) && Fair(w, s, weathers)
    ensures Reachable(w, Play(w, s, weathers).state)
    decreases |weathers|
  {
    if weathers != [] {
      var u, l := Exec(w, s, weathers[0].moves), Call(s.pc, weathers[0].outcome);
      ReachableGoesOn(w, s, weathers[0].moves);
      ControllerTheorems.StepReachable(w, u, l);
      if Returns(w, u, l).None? {
        PlayStaysReachable(w, Step(w, u, l), weathers[1..]);
      }
    }
  }

  /* ---------- Failed uploads ---------- */

  /** The contents are refused, or the save reports an error, whether or not it worked. */
  predicate UploadFails(w: World, o: Snapshot, outcome: Outcome) {
    w.decode(o.spec.base64Hashes).None? || !outcome.Ok?
  }

  /** There is a reason for another call: this one asked for it, or there is a newer version than the one
      it fetched. */
  predicate CalledAgain(p: Played, rv: nat) {
    p.result == Some(Requeue) || Latest(p.state) > rv
  }

  predicate Extends(s: State, u: State) {
    u.pc == s.pc && |u.hist| >= |s.hist| && forall v :: 0 <= v < |s.hist| ==> u.hist[v] == s.hist[v]
  }

  lemma {:induction false} MovesExtend(w: World, s: State, moves: seq<Label>)
    requires Moves(moves)
    ensures var u := Exec(w, s, moves); Extends(s, u)
    decreases |moves|
  {
    if moves != [] {
      MoveExtends(w, s, moves[0]);
      MovesExtend(w, Step(w, s, moves[0]), moves[1..]);
    }
  }

  lemma MoveExtends(w: World, s: State, l: Label)
    requires IsMove(l)
    ensures var u := Step(w, s, l); Extends(s, u)
  {
  }

  /** What is fetched to be uploaded. */
  predicate Fresh(w: World, s: State) {
    && s.pc.Uploading? && s.pc.rv < |s.hist| && s.hist[s.pc.rv] == Some(s.pc.obj)
    && !s.pc.obj.deleting && NeedsUpload(w, s.pc.obj) && Key(w, s.pc.obj.spec).Some?
  }

  /** The state in which the status is about to be written after an attempt to upload. */
  function Attempted(w: World, s: State, upload: Weather, report: Weather): State {
    Exec(w, Step(w, Exec(w, s, upload.moves), Save(upload.outcome)), report.moves)
  }

  lemma FailedAttempt(w: World, s: State, upload: Weather, report: Weather)
    requires Fresh(w, s) && Moves(upload.moves) && Moves(report.moves) && UploadFails(w, s.pc.obj, upload.outcome)
    ensures var u := Attempted(w, s, upload, report); var o := s.pc.obj;
      && u.pc == Reporting(s.pc.rv, o.(status := o.status.(isUploaded := false)))
      && Latest(u) >= s.pc.rv && u.hist[s.pc.rv] == Some(o)
      && Play(w, s, [upload, report]) == Played(AfterPutStatus(u, report.outcome), Some(Done))
  {
    var u1 := Exec(w, s, upload.moves);
    MovesExtend(w, s, upload.moves);
    FailedSave(w, u1, upload.outcome);
    var s1 := Step(w, u1, Save(upload.outcome));
    PlayTurn(w, s, upload, [report], u1, Save(upload.outcome), s1);
    assert [upload] + [report] == [upload, report];
    MovesExtend(w, s1, report.moves);
    ReportFailed(w, s1, report, s.pc.rv, s.pc.obj);
  }

  lemma ReportFailed(w: World, s: State, report: Weather, rv: nat, fetched: Snapshot)
    requires var o := fetched.(status := fetched.status.(isUploaded := false)); s.pc == Reporting(rv, o) && Moves(report.moves)
    ensures Exec(w, s, report.moves).pc == s.pc
    ensures Play(w, s, [report]) == Played(AfterPutStatus(Exec(w, s, report.moves), report.outcome), Some(Done))
  {
    MovesExtend(w, s, report.moves);
    var u := Exec(w, s, report.moves);
    PlayTurn(w, s, report, [], u, PutStatus(report.outcome), Step(w, u, PutStatus(report.outcome)));
    assert [report] + [] == [report];
    assert Step(w, u, PutStatus(report.outcome)) == AfterPutStatus(u, report.outcome);
  }

  lemma FailedSave(w: World, s: State, outcome: Outcome)
    requires s.pc.Uploading? && Key(w, s.pc.obj.spec).Some? && UploadFails(w, s.pc.obj, outcome)
    ensures Returns(w, s, Save(outcome)).None? && Step(w, s, Save(outcome)).hist == s.hist
    ensures var o := s.pc.obj;
      Step(w, s, Save(outcome)).pc == Reporting(s.pc.rv, o.(status := o.status.(isUploaded := false)))
  {
  }

  /** After an upload that failed, Reconcile never asks to be called again. It is called again if and only
      if the object was changed by others in the meantime, or the status write got through and had
      something to change: the fetched status still claimed an upload. Otherwise the Snapshot stays as it
      is, and still needs its upload. */
  lemma FailedUploadIsRetried(w: World, s: State, upload: Weather, report: Weather)
    requires Fresh(w, s) && Moves(upload.moves) && Moves(report.moves) && UploadFails(w, s.pc.obj, upload.outcome)
    ensures var p := Play(w, s, [upload, report]); var u := Attempted(w, s, upload, report);
      && p.result == Some(Done)
      && (CalledAgain(p, s.pc.rv) <==>
            Latest(u) != s.pc.rv || (!report.outcome.Fail? && s.pc.obj.status.isUploaded))
      && (!CalledAgain(p, s.pc.rv) ==>
            Current(p.state) == Some(s.pc.obj) && !ControllerTheorems.ClaimsUpload(w, p.state))
  {
    FailedAttempt(w, s, upload, report);
    AfterRefusal(w, Attempted(w, s, upload, report), s.pc.rv, s.pc.obj, report.outcome);
  }

  lemma AfterRefusal(w: World, u: State, rv: nat, o: Snapshot, outcome: Outcome)
    requires u.pc == Reporting(rv, o.(status := o.status.(isUploaded := false)))
    requires rv <= Latest(u) && u.hist[rv] == Some(o) && !o.deleting && NeedsUpload(w, o)
    ensures var t := AfterPutStatus(u, outcome);
      && (Latest(t) > rv <==> Latest(u) != rv || (!outcome.Fail? && o.status.isUploaded))
      && (Latest(t) <= rv ==> Current(t) == Some(o) && !ControllerTheorems.ClaimsUpload(w, t))
  {
    if Latest(u) == rv {
      RefusalWritten(u, rv, o, outcome);
    } else {
      assert AfterPutStatus(u, outcome).hist == u.hist;
    }
  }

  lemma RefusalWritten(u: State, rv: nat, o: Snapshot, outcome: Outcome)
    requires u.pc == Reporting(rv, o.(status := o.status.(isUploaded := false)))
    requires rv == Latest(u) && Current(u) == Some(o)
    ensures var t := AfterPutStatus(u, outcome);
      if outcome.Fail? || !o.status.isUploaded then t.hist == u.hist else |t.hist| == |u.hist| + 1
  {
  }

  /** The same of a whole call: what it fetched is fresh, and the upload failed. */
  lemma CallWithFailedUpload(w: World, s: State, client: Weather, fetch: Weather, upload: Weather, report: Weather)
    requires s.pc.Idle? && Moves(client.moves) && Moves(fetch.moves) && Moves(upload.moves) && Moves(report.moves)
    requires var first := Play(w, s, [client, fetch]);
      && first.result.None? && first.state.pc.Uploading? && Key(w, first.state.pc.obj.spec).Some?
      && UploadFails(w, first.state.pc.obj, upload.outcome)
    ensures var t := Play(w, s, [client, fetch]).state; var p := Play(w, s, [client, fetch, upload, report]);
      && Fresh(w, t) && p.result == Some(Done)
      && (CalledAgain(p, t.pc.rv) <==>
            Latest(Attempted(w, t, upload, report)) != t.pc.rv
            || (!report.outcome.Fail? && t.pc.obj.status.isUploaded))
  {
    var t := Play(w, s, [client, fetch]).state;
    FetchedIsFresh(w, s, client, fetch);
    PlayInTwo(w, s, [client, fetch], [upload, report]);
    assert [client, fetch] + [upload, report] == [client, fetch, upload, report];
    FailedUploadIsRetried(w, t, upload, report);
  }

  lemma FetchedIsFresh(w: World, s: State, client: Weather, fetch: Weather)
    requires s.pc.Idle? && Moves(client.moves) && Moves(fetch.moves)
    requires var first := Play(w, s, [client, fetch]);
      first.result.None? && first.state.pc.Uploading? && Key(w, first.state.pc.obj.spec).Some?
    ensures Fresh(w, Play(w, s, [client, fetch]).state)
  {
    var u := Exec(w, s, client.moves);
    MovesExtend(w, s, client.moves);
    var l := Begin(client.outcome.Ok?);
    var s1 := Step(w, u, l);
    PlayTurn(w, s, client, [fetch], u, l, s1);
    assert [client] + [fetch] == [client, fetch] && [fetch] + [] == [fetch];
    if Returns(w, u, l).None? {
      var v := Exec(w, s1, fetch.moves);
      MovesExtend(w, s1, fetch.moves);
      PlayTurn(w, s1, fetch, [], v, Get(fetch.outcome.Ok?), Step(w, v, Get(fetch.outcome.Ok?)));
      FetchFresh(w, v, fetch.outcome.Ok?);
    }
  }

  lemma FetchFresh(w: World, s: State, found: bool)
    requires s.pc.Fetching?
    ensures var t := Step(w, s, Get(found));
      t.pc.Uploading? && Key(w, t.pc.obj.spec).Some? ==> Fresh(w, t)
  {
  }

  /** So a save that fails once is enough: a new Snapshot whose first upload reports an error is not
      uploaded, and nothing calls for another attempt, although the status was written without error.
      If the save did work, the object is there and the status denies it. */
  lemma FailedUploadStays(w: World, spec: Spec, finalizers: set<string>, outcome: Outcome) returns (s: State)
    requires w.created(finalizers) && Uploads(w, spec) && Owned(w, spec) && !outcome.Ok?
    ensures Reachable(w, s) && Current(s).Some? && Current(s).value.spec == spec
    ensures var p := Play(w, s, [CALM, CALM, Weather([], outcome), CALM]);
      && p.result == Some(Done) && !CalledAgain(p, Latest(s)) && p.state.hist == s.hist
      && !ControllerTheorems.ClaimsUpload(w, p.state)
      && p.state.store == if outcome.Lost? then s.store[Key(w, spec).value := w.decode(spec.base64Hashes).value] else s.store
  {
    s := ControllerRuns.FirstEdit(w, [spec], finalizers);
    ControllerTheorems.ReconcileReachable(w, s);
    s := ControllerTheorems.CatchUp(s);
    FreshFails(w, s, outcome);
  }

  lemma FreshFails(w: World, s: State, outcome: Outcome)
    requires s.pc.Idle? && s.cache == Latest(s) && !s.storage.Broken? && !outcome.Ok?
    requires Current(s).Some? && !Current(s).value.deleting && !Current(s).value.status.isUploaded
    requires Uploads(w, Current(s).value.spec)
    ensures var p := Play(w, s, [CALM, CALM, Weather([], outcome), CALM]); var spec := Current(s).value.spec;
      && p.result == Some(Done) && !CalledAgain(p, Latest(s)) && p.state.hist == s.hist
      && !ControllerTheorems.ClaimsUpload(w, p.state)
      && p.state.store == if outcome.Lost? then s.store[Key(w, spec).value := w.decode(spec.base64Hashes).value] else s.store
  {
    var upload, o := Weather([], outcome), Current(s).value;
    var t := s.(storage := Ready, pc := Uploading(Latest(s), o));
    FetchedCalmly(w, s, t);
    PlayInTwo(w, s, [CALM, CALM], [upload, CALM]);
    assert [CALM, CALM] + [upload, CALM] == [CALM, CALM, upload, CALM];
    FailedUploadIsRetried(w, t, upload, CALM);
    FailedAttempt(w, t, upload, CALM);
    FailedCalmly(w, t, outcome);
  }

  lemma FailedCalmly(w: World, t: State, outcome: Outcome)
    requires Fresh(w, t) && t.pc.rv == Latest(t) && !t.pc.obj.status.isUploaded && Uploads(w, t.pc.obj.spec) && !outcome.Ok?
    ensures var u := Attempted(w, t, Weather([], outcome), CALM); var spec := t.pc.obj.spec;
      && Latest(u) == t.pc.rv && u.pc.Reporting?
      && AfterPutStatus(u, Ok).hist == t.hist
      && AfterPutStatus(u, Ok).store
      == if outcome.Lost? then t.store[Key(w, spec).value := w.decode(spec.base64Hashes).value] else t.store
  {
    var u, o := Step(w, t, Save(outcome)), t.pc.obj;
    assert Attempted(w, t, Weather([], outcome), CALM) == u;
    FailedSave(w, t, outcome);
    RefusalWritten(u, t.pc.rv, o, Ok);
    assert AfterPutStatus(u, Ok).store == u.store;
  }

  lemma FetchedCalmly(w: World, s: State, t: State)
    requires s.pc.Idle? && s.cache == Latest(s) && !s.storage.Broken?
    requires Current(s).Some? && !Current(s).value.deleting && NeedsUpload(w, Current(s).value)
    requires t == s.(storage := Ready, pc := Uploading(Latest(s), Current(s).value))
    ensures Play(w, s, [CALM, CALM]) == Played(t, None)
  {
    var s1 := s.(storage := Ready, pc := Fetching);
    assert [CALM] + [CALM] == [CALM, CALM] && [CALM] + [] == [CALM];
    assert Step(w, s, Begin(true)) == s1;
    PlayTurn(w, s, CALM, [CALM], s, Begin(true), s1);
    assert Step(w, s1, Get(true)) == t;
    PlayTurn(w, s1, CALM, [], s1, Get(true), t);
  }

  /* ---------- The code ---------- */

  lemma StatusWrite(w: World, s: State, rv: nat, obj: Snapshot, outcome: Outcome, hist: seq<Option<Snapshot>>)
    requires s.pc == Reporting(rv, obj)
    requires if !Accepts(s, rv, outcome) then hist == s.hist
      else
        var c := Current(s).value;
        var o := c.(status := obj.status, vouched := if obj.status.isUploaded then rv else c.vouched);
        hist == if o == c then s.hist else s.hist + [Some(o)]
    ensures Step(w, s, PutStatus(outcome)) == s.(pc := Idle, hist := hist)
  {
    assert Step(w, s, PutStatus(outcome)) == AfterPutStatus(s, outcome);
  }

  lemma OneMore(w: World, s: State, ls: seq<Label>, l: Label)
    ensures Exec(w, s, ls + [l]) == Step(w, Exec(w, s, ls), l)
  {
    ExecConcat(w, s, ls, [l]);
    assert [l][1..] == [];
  }

  lemma FinalizersWrite(w: World, s: State, rv: nat, obj: Snapshot, outcome: Outcome, hist: seq<Option<Snapshot>>)
    requires s.pc == Finalizing(rv, obj)
    requires if !Accepts(s, rv, outcome) then hist == s.hist
      else
        var o := Current(s).value.(finalizers := obj.finalizers);
        hist == if Settled(o) == Current(s) then s.hist else s.hist + [Settled(o)]
    ensures var t := Step(w, s, PutFinalizers(outcome)); t == s.(pc := Idle, hist := hist, settled := t.settled)
  {
    assert Step(w, s, PutFinalizers(outcome)) == AfterPutFinalizers(s, outcome);
  }

  class Cluster {
    const w: World
    const namespace: string
    // the API server, the informer cache, the object store, the once-initialised client
    var hist: seq<Option<Snapshot>>
    var cache: nat
    var store: map<string, string>
    var storage: Storage
    var born: nat
    var edits: seq<Spec>
    // the protocol state that all this amounts to
    ghost var s: State

    ghost predicate Valid()
      reads this
    {
      && s.hist == hist && s.cache == cache && s.store == store && s.storage == storage
      && s.born == born && s.edits == edits && Named(w, namespace)
    }

    constructor (w: World, namespace: string, initial: map<string, string>)
      requires Named(w, namespace)
      ensures Valid() && this.w == w && this.namespace == namespace && s == Init(initial)
    {
      this.w, this.namespace := w, namespace;
      hist, cache, store, storage, born, edits := [None], 0, initial, Untried, 1, [];
      s := Init(initial);
    }

    /** The world moves; the reconciler stays where it is. */
    method Interfere(moves: seq<Label>)
      requires Valid() && Moves(moves)
      modifies this
      ensures Valid() && s == Exec(w, old(s), moves) && s.pc == old(s.pc) && s.storage == old(s.storage)
    {
      for i := 0 to |moves|
        invariant Valid() && s == Exec(w, old(s), moves[..i]) && s.pc == old(s.pc) && s.storage == old(s.storage)
      {
        MovesAreForeign(w, s, moves[i]);
        OneMore(w, old(s), moves[..i], moves[i]);
        assert moves[..i] + [moves[i]] == moves[..i + 1];
        Move(moves[i]);
      }
      assert moves[..|moves|] == moves;
    }

    method Move(l: Label)
      requires Valid() && IsMove(l)
      modifies this
      ensures Valid() && s == Step(w, old(s), l)
    {
      MovesAreForeign(w, s, l);
      var t := Step(w, Shown(hist, cache, store, storage, born, edits), l);
      hist, cache, store, born, edits := t.hist, t.cache, t.store, t.born, t.edits;
      s := Step(w, s, l);
    }

    method MinIOStorage(found: bool) returns (ok: bool)
      requires Valid() && s.pc.Idle?
      modifies this
      ensures Valid()
      ensures ok == StorageAfter(old(s), found).Ready?
      ensures s == old(s).(storage := StorageAfter(old(s), found), pc := if ok then Fetching else Idle)
    {
      if storage.Untried? {
        storage := if found then Ready else Broken;
      }
      s := Step(w, s, Begin(found));
      return storage.Ready?;
    }

    method Fetch(found: bool) returns (err: bool, rv: nat, snapshot: Option<Snapshot>)
      requires Valid() && s.pc.Fetching?
      modifies this
      ensures Valid()
      ensures s == old(s).(pc := if found then Fetched(w, old(s)) else Idle)
      ensures err == !found && rv == cache && snapshot == old(s).hist[old(s).cache]
    {
      err, rv, snapshot := !found, cache, hist[cache];
      s := Step(w, s, Get(found));
    }

    method StatusUpdate(rv: nat, obj: Snapshot, outcome: Outcome) returns (ok: bool)
      requires Valid() && s.pc == Reporting(rv, obj)
      modifies this
      ensures Valid()
      ensures s == Step(w, old(s), PutStatus(outcome))
      ensures ok == (outcome.Ok? && Accepts(old(s), rv, outcome))
    {
      var current := hist[|hist| - 1];
      var accepted := !outcome.Fail? && rv == |hist| - 1 && current.Some?;
      assert accepted == Accepts(s, rv, outcome);
      if accepted {
        var c := current.value;
        var o := c.(status := obj.status, vouched := if obj.status.isUploaded then rv else c.vouched);
        if o != c { hist := hist + [Some(o)]; }
      }
      StatusWrite(w, s, rv, obj, outcome, hist);
      s := Step(w, s, PutStatus(outcome));
      return accepted && outcome.Ok?;
    }

    method Update(rv: nat, obj: Snapshot, outcome: Outcome) returns (ok: bool)
      requires Valid() && s.pc == Finalizing(rv, obj)
      modifies this
      ensures Valid()
      ensures s == Step(w, old(s), PutFinalizers(outcome))
      ensures ok == (outcome.Ok? && Accepts(old(s), rv, outcome))
    {
      var current := hist[|hist| - 1];
      var accepted := !outcome.Fail? && rv == |hist| - 1 && current.Some?;
      assert accepted == Accepts(s, rv, outcome);
      if accepted {
        var o := current.value.(finalizers := obj.finalizers);
        if o.deleting && o.finalizers == {} { hist := hist + [None]; }
        else if o != current.value { hist := hist + [Some(o)]; }
      }
      FinalizersWrite(w, s, rv, obj, outcome, hist);
      s := Step(w, s, PutFinalizers(outcome));
      return accepted && outcome.Ok?;
    }

    /** The closure that writes the status back. */
    method UpdateStatus(rv: nat, obj: Snapshot, report: Weather) returns (ok: bool)
      requires Valid() && s.pc == Reporting(rv, obj) && Moves(report.moves)
      modifies this
      ensures Valid()
      ensures Play(w, old(s), [report]) == Played(s, Some(if !obj.status.isUploaded || ok then Done else Requeue))
    {
      ghost var s0 := s;
      Interfere(report.moves);
      ghost var u := s;
      ok := StatusUpdate(rv, obj, report.outcome);
      PlayTurn(w, s0, report, [], u, PutStatus(report.outcome), s);
      assert [report] + [] == [report];
    }

    method FinalizerUpdate(rv: nat, obj: Snapshot, update: Weather) returns (ok: bool)
      requires Valid() && s.pc == Finalizing(rv, obj) && Moves(update.moves)
      modifies this
      ensures Valid()
      ensures Play(w, old(s), [update]) == Played(s, Some(if ok then Done else Requeue))
    {
      ghost var s0 := s;
      Interfere(update.moves);
      ghost var u := s;
      ok := Update(rv, obj, update.outcome);
      PlayTurn(w, s0, update, [], u, PutFinalizers(update.outcome), s);
      assert [update] + [] == [update];
    }

    method RemoveSnapshot(rv: nat, obj: Snapshot, outcome: Outcome) returns (ok: bool, panic: bool)
      requires Valid() && s.pc == Removing(rv, obj)
      modifies this
      ensures Valid()
      ensures s == Step(w, old(s), Remove(outcome))
      ensures panic == Key(w, obj.spec).None? && ok == (!panic && outcome.Ok?)
    {
      var objName := ObjectKey.BuildObjectName(namespace, obj.spec.image, obj.spec.algorithm);
      if objName.None? {
        storage := Untried;
        s := Step(w, s, Remove(outcome));
        return false, true;
      }
      if !outcome.Fail? { store := store - {objName.value}; }
      s := Step(w, s, Remove(outcome));
      return outcome.Ok?, false;
    }

    method UploadSnapshot(rv: nat, o: Snapshot, outcome: Outcome) returns (ok: bool, panic: bool)
      requires Valid() && s.pc == Uploading(rv, o)
      modifies this
      ensures Valid()
      ensures s == Step(w, old(s), Save(outcome))
      ensures panic == Key(w, o.spec).None?
      ensures ok == (!panic && outcome.Ok? && w.decode(o.spec.base64Hashes).Some?)
      ensures s.pc == if panic then Idle else Reporting(rv, Reported(w, o, ok))
    {
      var objectName := ObjectKey.BuildObjectName(namespace, o.spec.image, o.spec.algorithm);
      if objectName.None? {
        storage := Untried;
        s := Step(w, s, Save(outcome));
        return false, true;
      }
      var decodedHashes := w.decode(o.spec.base64Hashes);
      if decodedHashes.None? {
        s := Step(w, s, Save(outcome));
        return false, false;
      }
      if !outcome.Fail? { store := store[objectName.value := decodedHashes.value]; }
      s := Step(w, s, Save(outcome));
      return outcome.Ok?, false;
    }

    method DeleteSnapshot(rv: nat, obj: Snapshot, removal: Weather, update: Weather) returns (r: Result)
      requires Valid() && s.pc == Removing(rv, obj)
      requires Moves(removal.moves) && Moves(update.moves)
      modifies this
      ensures Valid() && Play(w, old(s), [removal, update]) == Played(s, Some(r))
    {
      ghost var s0 := s;
      Interfere(removal.moves);
      ghost var u := s;
      var ok, panic := RemoveSnapshot(rv, obj, removal.outcome);
      PlayTurn(w, s0, removal, [update], u, Remove(removal.outcome), s);
      assert [removal] + [update] == [removal, update];
      if panic { return Panic; }
      if !ok { return Requeue; }
      var released := obj.(finalizers := obj.finalizers - {FINALIZER});
      ok := FinalizerUpdate(rv, released, update);
      return if ok then Done else Requeue;
    }

    /** The part of Reconcile that uploads what is not yet uploaded and reports how that went. */
    method Publish(rv: nat, fetched: Snapshot, controlHash: string, upload: Weather, report: Weather)
      returns (r: Result)
      requires Valid() && s.pc == Uploading(rv, fetched) && controlHash == w.md5(fetched.spec.base64Hashes)
      requires Moves(upload.moves) && Moves(report.moves)
      modifies this
      ensures Valid() && Play(w, old(s), [upload, report]) == Played(s, Some(r))
    {
      ghost var s0 := s;
      Interfere(upload.moves);
      ghost var u := s;
      var uploaded, panic := UploadSnapshot(rv, fetched, upload.outcome);
      PlayTurn(w, s0, upload, [report], u, Save(upload.outcome), s);
      assert [upload] + [report] == [upload, report];
      if panic { return Panic; }
      var snapshot := if uploaded then fetched.(status := Status(true, controlHash))
                      else fetched.(status := fetched.status.(isUploaded := false));
      var ok := UpdateStatus(rv, snapshot, report);
      return if !uploaded || ok then Done else Requeue;
    }

    /** The part of Reconcile that gets hold of the object. It ends the call, or there is work to do. */
    method Obtain(client: Weather, fetch: Weather) returns (r: Option<Result>, rv: nat, snapshot: Option<Snapshot>)
      requires Valid() && s.pc.Idle? && Moves(client.moves) && Moves(fetch.moves)
      modifies this
      ensures Valid() && Play(w, old(s), [client, fetch]) == Played(s, r)
      ensures r.None? ==> snapshot.Some? && s.pc == Dispatch(w, rv, snapshot.value) && !s.pc.Idle?
    {
      rv, snapshot := 0, None;
      ghost var s0 := s;
      Interfere(client.moves);
      ghost var u := s;
      var ok := MinIOStorage(client.outcome.Ok?);
      PlayTurn(w, s0, client, [fetch], u, Begin(client.outcome.Ok?), s);
      assert [client] + [fetch] == [client, fetch];
      if !ok { return Some(Requeue), rv, snapshot; }
      r, rv, snapshot := Load(fetch);
    }

    /** The part of Reconcile that fetches the object and looks at it. */
    method Load(fetch: Weather) returns (r: Option<Result>, rv: nat, snapshot: Option<Snapshot>)
      requires Valid() && s.pc.Fetching? && Moves(fetch.moves)
      modifies this
      ensures Valid() && Play(w, old(s), [fetch]) == Played(s, r)
      ensures r.None? ==> snapshot.Some? && s.pc == Dispatch(w, rv, snapshot.value) && !s.pc.Idle?
    {
      ghost var s0 := s;
      Interfere(fetch.moves);
      ghost var u := s;
      var err;
      err, rv, snapshot := Fetch(fetch.outcome.Ok?);
      PlayTurn(w, s0, fetch, [], u, Get(fetch.outcome.Ok?), s);
      assert [fetch] + [] == [fetch];
      if err { return Some(Requeue), rv, snapshot; }
      if snapshot.None? { return Some(Done), rv, snapshot; }
      var controlHash := w.md5(snapshot.value.spec.base64Hashes);
      var status := snapshot.value.status;
      if snapshot.value.deleting || controlHash != status.controlHash || !status.isUploaded {
        r := None;
      } else {
        r := Some(Done);
      }
    }

    /** One call, with the weather before each of its remote calls: for the client, for the fetch, for
        the store, and for the write to the API. */
    method Reconcile(client: Weather, fetch: Weather, storing: Weather, write: Weather) returns (r: Result)
      requires Valid() && s.pc.Idle?
      requires Moves(client.moves) && Moves(fetch.moves) && Moves(storing.moves) && Moves(write.moves)
      modifies this
      ensures Valid() && Play(w, old(s), [client, fetch, storing, write]) == Played(s, Some(r))
    {
      PlayInTwo(w, s, [client, fetch], [storing, write]);
      assert [client, fetch] + [storing, write] == [client, fetch, storing, write];
      var ended, rv, snapshot := Obtain(client, fetch);
      if ended.Some? { return ended.value; }
      if snapshot.value.deleting {
        r := DeleteSnapshot(rv, snapshot.value, storing, write);
      } else {
        r := Publish(rv, snapshot.value, w.md5(snapshot.value.spec.base64Hashes), storing, write);
      }
    }
  }
}
