/** When Reconcile is called again: because it asked for it, because there is a version that it has not
    seen, or because the process was restarted. Without such a trigger there is nothing left to do, but for
    the cases in which the controller gives up. */
module Triggers {
  import opened Controller
  import opened ControllerInvariant
  import opened ControllerTheorems
  import opened Reconciler
  import opened Wrappers
  import opened CallResults

  /** Between calls: the version that the last call fetched, whether it is to be repeated, and whether an
      upload that it tried has failed. */
  datatype Sys = Sys(s: State, seen: nat, again: bool, failed: bool)

  datatype Event =
    | Happen(l: Label)
    | Restart
    | Called(client: Weather, fetch: Weather, storing: Weather, write: Weather)

  function Start(store: map<string, string>): Sys {
    Sys(Init(store), 0, false, false)
  }

  /** A call that comes to an upload, which then fails. */
  predicate Fails(w: World, s: State, client: Weather, fetch: Weather, storing: Weather) {
    var first := Play(w, s, [client, fetch]);
    first.result.None? && first.state.pc.Uploading? && UploadFails(w, first.state.pc.obj, storing.outcome)
  }

  function Next(w: World, y: Sys, e: Event): Sys {
    match e
    case Happen(l) => y.(s := Step(w, y.s, l))
    case Restart => y.(s := Step(w, y.s, Crash), again := true)
    case Called(client, fetch, storing, write) =>
      var p := Play(w, y.s, [client, fetch, storing, write]);
      Sys(p.state, SeenVersion(w, y.s, client, fetch), p.result != Some(Done), Fails(w, y.s, client, fetch, storing))
  }

  predicate Possible(w: World, y: Sys, e: Event) {
    match e
    case Happen(l) => IsMove(l) && Allowed(w, y.s, l)
    case Restart => true
    case Called(client, fetch, storing, write) =>
      && Moves(client.moves) && Moves(fetch.moves) && Moves(storing.moves) && Moves(write.moves)
      && Fair(w, y.s, [client, fetch, storing, write])
  }

  function Run(w: World, y: Sys, es: seq<Event>): Sys
    decreases |es|
  {
    if es == [] then y else Run(w, Next(w, y, es[0]), es[1..])
  }

  predicate PossibleRun(w: World, y: Sys, es: seq<Event>)
    decreases |es|
  {
    es == [] || (Possible(w, y, es[0]) && PossibleRun(w, Next(w, y, es[0]), es[1..]))
  }

  predicate Triggered(y: Sys) {
    y.again || Latest(y.s) > y.seen
  }

  /** Nothing to do, nothing that can be done, or an upload that was given up. */
  predicate Settles(w: World, s: State, failed: bool) {
    Resolved(w, s) || !CanWork(w, s) || failed
  }

  /* ---------- Moves of the world ---------- */

  /** Others change the history only by going on with it, and leave the Snapshot's names alone. */
  ghost predicate Foreign(w: World, s: State, u: State) {
    && Extends(s, u) && u.storage == s.storage
    && forall name :: w.ours(name) && name in u.store ==> name in s.store
  }

  lemma MoveIsForeign(w: World, s: State, l: Label)
    requires IsMove(l) && Allowed(w, s, l)
    ensures Foreign(w, s, Step(w, s, l))
  {
    MovesAreForeign(w, s, l);
    MoveExtends(w, s, l);
  }

  lemma {:induction false} AllMovesForeign(w: World, s: State, moves: seq<Label>)
    requires Moves(moves) && AllowedRun(w, s, moves)
    ensures Foreign(w, s, Exec(w, s, moves))
    decreases |moves|
  {
    if moves != [] {
      MoveIsForeign(w, s, moves[0]);
      AllMovesForeign(w, Step(w, s, moves[0]), moves[1..]);
    }
  }

  lemma ForeignSettles(w: World, s: State, u: State, failed: bool)
    requires Foreign(w, s, u) && Latest(u) == Latest(s) && Settles(w, s, failed)
    requires Current(s).Some? ==> Owned(w, Current(s).value.spec)
    ensures Settles(w, u, failed)
  {
    assert Current(u) == Current(s);
  }

  /* ---------- One call ---------- */

  lemma {:induction false} FairInTwo(w: World, s: State, a: seq<Weather>, b: seq<Weather>)
    requires Fair(w, s, a + b) && Play(w, s, a).result.None?
    ensures Fair(w, Play(w, s, a).state, b)
    decreases |a|
  {
    if a == [] {
      assert a + b == b;
    } else {
      assert (a + b)[0] == a[0] && (a + b)[1..] == a[1..] + b;
      var u, l := Exec(w, s, a[0].moves), Call(s.pc, a[0].outcome);
      FairInTwo(w, Step(w, u, l), a[1..], b);
    }
  }

  /** The second half of a call whose upload works: a new version, unless it fails. */
  lemma UploadedCall(w: World, t: State, storing: Weather, write: Weather)
    requires Fresh(w, t) && Moves(storing.moves) && Moves(write.moves) && !UploadFails(w, t.pc.obj, storing.outcome)
    requires Play(w, t, [storing, write]).result == Some(Done)
    ensures Latest(Play(w, t, [storing, write]).state) > t.pc.rv
  {
    var u := Exec(w, t, storing.moves);
    MovesExtend(w, t, storing.moves);
    var o, rv := t.pc.obj, t.pc.rv;
    var t1 := Step(w, u, Save(Ok));
    var up := o.(status := Status(true, w.md5(o.spec.base64Hashes)));
    SavedState(w, u, rv, o, Key(w, o.spec).value, w.decode(o.spec.base64Hashes).value);
    assert t1 == AfterSave(w, u, Ok) && t1.hist == u.hist && t1.pc == Reporting(rv, up);
    PlayTurn(w, t, storing, [write], u, Save(Ok), t1);
    assert [storing] + [write] == [storing, write];
    ReportedCall(w, t1, write, rv, o);
  }

  lemma ReportedCall(w: World, t: State, write: Weather, rv: nat, o: Snapshot)
    requires t.pc == Reporting(rv, o.(status := Status(true, w.md5(o.spec.base64Hashes)))) && Moves(write.moves)
    requires rv < |t.hist| && t.hist[rv] == Some(o) && NeedsUpload(w, o)
    requires Play(w, t, [write]).result == Some(Done)
    ensures Latest(Play(w, t, [write]).state) > rv
  {
    MovesExtend(w, t, write.moves);
    var u := Exec(w, t, write.moves);
    var v := Step(w, u, PutStatus(write.outcome));
    PlayTurn(w, t, write, [], u, PutStatus(write.outcome), v);
    assert [write] + [] == [write];
    assert v == AfterPutStatus(u, write.outcome) && Current(u) == Some(o);
  }

  /** The second half of a call that removes: a new version, or all was done before. */
  lemma RemovedCall(w: World, t: State, storing: Weather, write: Weather)
    requires t.pc.Removing? && t.pc.rv < |t.hist| && t.hist[t.pc.rv] == Some(t.pc.obj) && t.pc.obj.deleting
    requires Owned(w, t.pc.obj.spec) && Moves(storing.moves) && Moves(write.moves) && Fair(w, t, [storing, write])
    requires var p := Play(w, t, [storing, write]); p.result == Some(Done) && Latest(p.state) <= t.pc.rv
    ensures Resolved(w, Play(w, t, [storing, write]).state)
  {
    var u := Exec(w, t, storing.moves);
    MovesExtend(w, t, storing.moves);
    var o, rv, l := t.pc.obj, t.pc.rv, Remove(storing.outcome);
    var t1 := Step(w, u, l);
    PlayTurn(w, t, storing, [write], u, l, t1);
    assert [storing] + [write] == [storing, write] && [storing, write][1..] == [write];
    var k := Key(w, o.spec).value;
    RemovedState(w, u, rv, o, k);
    assert t1 == AfterRemove(w, u, Ok) && t1.hist == u.hist;
    ReleasedCall(w, t1, write, rv, o, k);
  }

  lemma ReleasedCall(w: World, t: State, write: Weather, rv: nat, o: Snapshot, k: string)
    requires t.pc == Finalizing(rv, o.(finalizers := o.finalizers - {FINALIZER})) && o.deleting
    requires rv < |t.hist| && t.hist[rv] == Some(o) && Key(w, o.spec) == Some(k) && w.ours(k) && k !in t.store
    requires Moves(write.moves) && AllowedRun(w, t, write.moves)
    requires var p := Play(w, t, [write]); p.result == Some(Done) && Latest(p.state) <= rv
    ensures Resolved(w, Play(w, t, [write]).state)
  {
    AllMovesForeign(w, t, write.moves);
    var u, l := Exec(w, t, write.moves), PutFinalizers(write.outcome);
    PlayTurn(w, t, write, [], u, l, Step(w, u, l));
    assert [write] + [] == [write];
    ReleasedResolves(w, u, rv, o, k, write.outcome);
  }

  lemma ReleasedResolves(w: World, u: State, rv: nat, o: Snapshot, k: string, outcome: Outcome)
    requires u.pc == Finalizing(rv, o.(finalizers := o.finalizers - {FINALIZER})) && o.deleting
    requires rv < |u.hist| && u.hist[rv] == Some(o) && Key(w, o.spec) == Some(k) && k !in u.store
    requires Returns(w, u, PutFinalizers(outcome)) == Some(Done)
    requires Latest(Step(w, u, PutFinalizers(outcome))) <= rv
    ensures Resolved(w, Step(w, u, PutFinalizers(outcome)))
  {
    assert Step(w, u, PutFinalizers(outcome)) == AfterPutFinalizers(u, outcome);
    assert rv == Latest(u) && Current(u) == Some(o) && !outcome.Fail?;
    FinalizersStay(u, o, outcome);
  }

  /** A write of the finalizers that makes no version has found nothing to take off. */
  lemma FinalizersStay(u: State, o: Snapshot, outcome: Outcome)
    requires u.pc == Finalizing(Latest(u), o.(finalizers := o.finalizers - {FINALIZER})) && Current(u) == Some(o)
    requires !outcome.Fail? && Latest(AfterPutFinalizers(u, outcome)) <= Latest(u)
    ensures FINALIZER !in o.finalizers && AfterPutFinalizers(u, outcome).hist == u.hist
    ensures AfterPutFinalizers(u, outcome).store == u.store
  {
    var released := o.(finalizers := o.finalizers - {FINALIZER});
    assert FINALIZER in o.finalizers ==> released.finalizers != o.finalizers;
  }

  /** What the first half of a call leads to. */
  ghost predicate Obtained(w: World, first: Played, seen: nat) {
    && seen <= Latest(first.state)
    && (first.result == Some(Done) && Latest(first.state) <= seen ==> Resolved(w, first.state))
    && (first.result.None? ==>
          && AtWork(first.state.pc, seen) && first.state.pc == Dispatch(w, seen, first.state.pc.obj)
          && first.state.hist[seen] == Some(first.state.pc.obj))
  }

  predicate AtWork(pc: PC, rv: nat) {
    (pc.Uploading? || pc.Removing?) && pc.rv == rv
  }

  lemma ObtainedByFetch(w: World, s: State, fetch: Weather)
    requires s.pc.Fetching? && Moves(fetch.moves)
    ensures Obtained(w, Play(w, s, [fetch]), Exec(w, s, fetch.moves).cache)
  {
    MovesExtend(w, s, fetch.moves);
    var u, l := Exec(w, s, fetch.moves), Get(fetch.outcome.Ok?);
    PlayTurn(w, s, fetch, [], u, l, Step(w, u, l));
    assert [fetch] + [] == [fetch];
    FetchObtains(w, u, fetch.outcome.Ok?);
  }

  lemma FetchObtains(w: World, u: State, found: bool)
    requires u.pc.Fetching?
    ensures var t := Step(w, u, Get(found)); var r := Returns(w, u, Get(found));
      Obtained(w, Played(t, r), u.cache)
  {
    var t := Step(w, u, Get(found));
    assert t.hist == u.hist && t.store == u.store;
  }

  lemma FirstHalf(w: World, s: State, client: Weather, fetch: Weather)
    requires s.pc.Idle? && Moves(client.moves) && Moves(fetch.moves)
    ensures var first := Play(w, s, [client, fetch]);
      first.result == Some(Requeue) || Obtained(w, first, SeenVersion(w, s, client, fetch))
  {
    MovesExtend(w, s, client.moves);
    var u, l := Exec(w, s, client.moves), Begin(client.outcome.Ok?);
    PlayTurn(w, s, client, [fetch], u, l, Step(w, u, l));
    assert [client] + [fetch] == [client, fetch];
    SeenIs(w, s, client, fetch);
    if Returns(w, u, l).None? {
      ObtainedByFetch(w, Step(w, u, l), fetch);
    }
  }

  /** The second half, from what was obtained. */
  lemma SecondHalf(w: World, t: State, seen: nat, storing: Weather, write: Weather)
    requires Obtained(w, Played(t, None), seen) && Owned(w, t.pc.obj.spec)
    requires Moves(storing.moves) && Moves(write.moves) && Fair(w, t, [storing, write])
    requires var p := Play(w, t, [storing, write]); p.result == Some(Done) && Latest(p.state) <= seen
    ensures Resolved(w, Play(w, t, [storing, write]).state) || (t.pc.Uploading? && UploadFails(w, t.pc.obj, storing.outcome))
  {
    if t.pc.Removing? {
      RemovedCall(w, t, storing, write);
    } else if Key(w, t.pc.obj.spec).None? {
      NoNamePanics(w, t, storing, write);
    } else if !UploadFails(w, t.pc.obj, storing.outcome) {
      UploadedCall(w, t, storing, write);
    }
  }

  lemma NoNamePanics(w: World, t: State, storing: Weather, write: Weather)
    requires t.pc.Uploading? && Key(w, t.pc.obj.spec).None? && Moves(storing.moves)
    ensures Play(w, t, [storing, write]).result == Some(Panic)
  {
    MovesExtend(w, t, storing.moves);
    var u, l := Exec(w, t, storing.moves), Save(storing.outcome);
    PlayTurn(w, t, storing, [write], u, l, Step(w, u, l));
    assert [storing] + [write] == [storing, write];
  }

  lemma CallSettles(w: World, s: State, client: Weather, fetch: Weather, storing: Weather, write: Weather)
    requires s.pc.Idle? && Reachable(w, s) && Possible(w, Sys(s, 0, false, false), Called(client, fetch, storing, write))
    ensures var p := Play(w, s, [client, fetch, storing, write]);
      && (p.result == Some(Done) ==> SeenVersion(w, s, client, fetch) <= Latest(p.state))
      && (p.result == Some(Done) && Latest(p.state) <= SeenVersion(w, s, client, fetch) ==>
            Settles(w, p.state, Fails(w, s, client, fetch, storing)))
  {
    var first, seen := Play(w, s, [client, fetch]), SeenVersion(w, s, client, fetch);
    FirstHalf(w, s, client, fetch);
    PlayInTwo(w, s, [client, fetch], [storing, write]);
    assert [client, fetch] + [storing, write] == [client, fetch, storing, write];
    if first.result.None? {
      FairInTwo(w, s, [client, fetch], [storing, write]);
      OwnedAfter(w, s, client, fetch, [storing, write], seen);
      var p := Play(w, first.state, [storing, write]);
      PlayGoesOn(w, first.state, [storing, write]);
      if p.result == Some(Done) && Latest(p.state) <= seen {
        SecondHalf(w, first.state, seen, storing, write);
      }
    }
  }

  lemma NeverLess(w: World, s: State, l: Label)
    ensures |Step(w, s, l).hist| >= |s.hist|
  {
    match l
    case Save(outcome) => assert Step(w, s, l).hist == s.hist;
    case Remove(outcome) => assert Step(w, s, l).hist == s.hist;
    case _ =>
  }

  lemma {:induction false} PlayGoesOn(w: World, s: State, weathers: seq<Weather>)
    requires forall i :: 0 <= i < |weathers| ==> Moves(weathers[i].moves)
    ensures |Play(w, s, weathers).state.hist| >= |s.hist|
    decreases |weathers|
  {
    if weathers != [] {
      var u, l := Exec(w, s, weathers[0].moves), Call(s.pc, weathers[0].outcome);
      MovesExtend(w, s, weathers[0].moves);
      NeverLess(w, u, l);
      PlayGoesOn(w, Step(w, u, l), weathers[1..]);
    }
  }

  lemma {:induction false} FairPrefix(w: World, s: State, a: seq<Weather>, b: seq<Weather>)
    requires Fair(w, s, a + b)
    ensures Fair(w, s, a)
    decreases |a|
  {
    if a != [] {
      assert (a + b)[0] == a[0] && (a + b)[1..] == a[1..] + b;
      var u, l := Exec(w, s, a[0].moves), Call(s.pc, a[0].outcome);
      if Returns(w, u, l).None? {
        FairPrefix(w, Step(w, u, l), a[1..], b);
      }
    }
  }

  lemma OwnedAfter(w: World, s: State, client: Weather, fetch: Weather, rest: seq<Weather>, seen: nat)
    requires Reachable(w, s) && Fair(w, s, [client, fetch] + rest)
    requires var first := Play(w, s, [client, fetch]); first.result.None? && Obtained(w, first, seen)
    ensures Owned(w, Play(w, s, [client, fetch]).state.pc.obj.spec)
  {
    FairPrefix(w, s, [client, fetch], rest);
    PlayStaysReachable(w, s, [client, fetch]);
    OwnedVersion(w, Play(w, s, [client, fetch]).state, seen);
  }

  lemma OwnedVersion(w: World, t: State, v: nat)
    requires Reachable(w, t) && v < |t.hist| && t.hist[v].Some?
    ensures Owned(w, SpecAt(t, v))
  {
    ReachableInv(w, t);
  }

  /* ---------- Every run ---------- */

  ghost predicate Quiet(w: World, y: Sys) {
    && y.s.pc.Idle? && Reachable(w, y.s) && (!y.again ==> y.seen <= Latest(y.s))
    && (!Triggered(y) ==> Settles(w, y.s, y.failed))
  }

  lemma CallStaysQuiet(w: World, y: Sys, e: Event)
    requires Quiet(w, y) && Possible(w, y, e) && e.Called?
    ensures Quiet(w, Next(w, y, e))
  {
    CallSettles(w, y.s, e.client, e.fetch, e.storing, e.write);
    PlayStaysReachable(w, y.s, [e.client, e.fetch, e.storing, e.write]);
    var weathers := [e.client, e.fetch, e.storing, e.write];
    assert forall i :: 0 <= i < 4 ==> Moves(weathers[i].moves);
    CallEnds(w, y.s, weathers);
  }

  /** Four remote calls are enough. */
  lemma CallEnds(w: World, s: State, weathers: seq<Weather>)
    requires s.pc.Idle? && |weathers| == 4 && forall i :: 0 <= i < 4 ==> Moves(weathers[i].moves)
    ensures Play(w, s, weathers).state.pc.Idle? && Play(w, s, weathers).result.Some?
  {
    assert weathers == [weathers[0]] + weathers[1..];
    var u, l := Exec(w, s, weathers[0].moves), Call(s.pc, weathers[0].outcome);
    MovesExtend(w, s, weathers[0].moves);
    ReturnsWhenIdle(w, u, weathers[0].outcome);
    if Returns(w, u, l).None? {
      TurnsEnd(w, Step(w, u, l), weathers[1..]);
    }
  }

  lemma {:induction false} TurnsEnd(w: World, s: State, weathers: seq<Weather>)
    requires !s.pc.Idle? && Rank(s.pc) <= |weathers| && forall i :: 0 <= i < |weathers| ==> Moves(weathers[i].moves)
    ensures Play(w, s, weathers).state.pc.Idle? && Play(w, s, weathers).result.Some?
    decreases |weathers|
  {
    var u, l := Exec(w, s, weathers[0].moves), Call(s.pc, weathers[0].outcome);
    MovesExtend(w, s, weathers[0].moves);
    ReturnsWhenIdle(w, u, weathers[0].outcome);
    if Returns(w, u, l).None? {
      TurnRanks(w, u, weathers[0].outcome);
      TurnsEnd(w, Step(w, u, l), weathers[1..]);
    }
  }

  lemma TurnRanks(w: World, s: State, outcome: Outcome)
    requires !s.pc.Idle?
    ensures var t := Step(w, s, Call(s.pc, outcome)); t.pc.Idle? || Rank(t.pc) < Rank(s.pc)
  {
    if s.pc.Uploading? || s.pc.Reporting? {
      UploadRanks(w, s, outcome);
    } else {
      RemovalRanks(w, s, outcome);
    }
  }

  lemma UploadRanks(w: World, s: State, outcome: Outcome)
    requires s.pc.Uploading? || s.pc.Reporting?
    ensures var t := Step(w, s, Call(s.pc, outcome)); t.pc.Idle? || Rank(t.pc) < Rank(s.pc)
  {
    if s.pc.Uploading? {
      assert Step(w, s, Save(outcome)) == AfterSave(w, s, outcome);
    } else {
      assert Step(w, s, PutStatus(outcome)) == AfterPutStatus(s, outcome);
    }
  }

  lemma RemovalRanks(w: World, s: State, outcome: Outcome)
    requires s.pc.Fetching? || s.pc.Removing? || s.pc.Finalizing?
    ensures var t := Step(w, s, Call(s.pc, outcome)); t.pc.Idle? || Rank(t.pc) < Rank(s.pc)
  {
    match s.pc
    case Fetching => assert Step(w, s, Get(outcome.Ok?)).pc == if outcome.Ok? then Fetched(w, s) else Idle;
    case Removing(_, _) => assert Step(w, s, Remove(outcome)) == AfterRemove(w, s, outcome);
    case Finalizing(_, _) => assert Step(w, s, PutFinalizers(outcome)) == AfterPutFinalizers(s, outcome);
  }

  lemma MoveStaysQuiet(w: World, y: Sys, l: Label)
    requires Quiet(w, y) && IsMove(l) && Allowed(w, y.s, l)
    ensures Quiet(w, Next(w, y, Happen(l)))
  {
    StepReachable(w, y.s, l);
    MoveIsForeign(w, y.s, l);
    var u := Step(w, y.s, l);
    if !Triggered(y) && Latest(u) <= y.seen {
      if Current(y.s).Some? {
        OwnedVersion(w, y.s, Latest(y.s));
      }
      ForeignSettles(w, y.s, u, y.failed);
    }
  }

  lemma NextStaysQuiet(w: World, y: Sys, e: Event)
    requires Quiet(w, y) && Possible(w, y, e)
    ensures Quiet(w, Next(w, y, e))
  {
    match e
    case Happen(l) => MoveStaysQuiet(w, y, l);
    case Restart => StepReachable(w, y.s, Crash);
    case Called(_, _, _, _) => CallStaysQuiet(w, y, e);
  }

  lemma {:induction false} RunStaysQuiet(w: World, y: Sys, es: seq<Event>)
    requires Quiet(w, y) && PossibleRun(w, y, es)
    ensures Quiet(w, Run(w, y, es))
    decreases |es|
  {
    if es != [] {
      NextStaysQuiet(w, y, es[0]);
      RunStaysQuiet(w, Next(w, y, es[0]), es[1..]);
    }
  }

  /** In every run of calls, moves of the world in between and restarts: if nothing calls for another
      reconcile, the Snapshot is resolved, unless the storage client is lost, the name cannot be built, or
      the last call tried an upload that failed. */
  lemma NothingIsForgotten(w: World, store: map<string, string>, es: seq<Event>)
    requires Clear(w, store) && PossibleRun(w, Start(store), es) && !Triggered(Run(w, Start(store), es))
    ensures var y := Run(w, Start(store), es);
      Resolved(w, y.s) || !CanWork(w, y.s) || y.failed
  {
    assert AllowedRun(w, Init(store), []) && Exec(w, Init(store), []) == Init(store);
    assert Reachable(w, Init(store));
    RunStaysQuiet(w, Start(store), es);
  }

  /* ---------- Coming to rest ---------- */

  const CALMLY := Called(CALM, CALM, CALM, CALM)

  /** The cache catches up, and the Snapshot is reconciled undisturbed. */
  function Round(y: Sys): seq<Event> {
    [Happen(CacheTo(Latest(y.s))), CALMLY]
  }

  lemma RoundIs(w: World, y: Sys)
    requires y.s.pc.Idle?
    ensures PossibleRun(w, y, Round(y))
    ensures var u := CatchUp(y.s); var p := Play(w, u, [CALM, CALM, CALM, CALM]);
      Run(w, y, Round(y)) == Sys(Reconcile(w, u), Latest(y.s), p.result != Some(Done), Fails(w, u, CALM, CALM, CALM))
  {
    var u := CatchUp(y.s);
    var y1 := Next(w, y, Happen(CacheTo(Latest(y.s))));
    assert y1 == y.(s := u);
    CalmIsReconcile(w, u);
    assert CALM.moves + CALM.moves == [] && Exec(w, u, []) == u;
    CalmIsFair(w, u, [CALM, CALM, CALM, CALM]);
    assert Round(y)[1..] == [CALMLY] && [CALMLY][1..] == [];
    assert Run(w, y, Round(y)) == Run(w, y1, [CALMLY]) == Next(w, y1, CALMLY);
  }

  lemma {:induction false} CalmIsFair(w: World, s: State, weathers: seq<Weather>)
    requires forall i :: 0 <= i < |weathers| ==> weathers[i] == CALM
    ensures Fair(w, s, weathers)
    decreases |weathers|
  {
    if weathers != [] {
      CalmIsFair(w, Step(w, s, Call(s.pc, Ok)), weathers[1..]);
    }
  }

  /** An undisturbed reconcile does not change whether one can succeed. */
  lemma CanSucceedStays(w: World, s: State)
    requires Rested(s)
    ensures CanSucceed(w, Reconcile(w, s)) <==> CanSucceed(w, s)
  {
    if s.storage == Broken {
      assert Step(w, s, Begin(true)) == s;
    } else if Current(s).None? || !HasWork(w, Current(s).value) {
      ReconcileRests(w, s);
    } else if Key(w, Current(s).value.spec).None? {
      ReconcilePanics(w, s);
    } else {
      WorkableStays(w, s, Current(s).value, Key(w, Current(s).value.spec).value);
    }
  }

  lemma WorkableStays(w: World, s: State, o: Snapshot, k: string)
    requires Rested(s) && !s.storage.Broken? && Current(s) == Some(o) && HasWork(w, o) && Key(w, o.spec) == Some(k)
    ensures CanSucceed(w, Reconcile(w, s))
  {
    if o.deleting {
      ReconcileRemoves(w, s, k);
    } else if w.decode(o.spec.base64Hashes).None? {
      ReconcileRefuses(w, s);
    } else {
      ReconcileUploads(w, s, k, w.decode(o.spec.base64Hashes).value);
    }
  }

  /** What keeps a Snapshot from rest is what happens to it: in every run, once the world and its failures
      stop for two calls, nothing calls for another reconcile if and only if the client is not lost and there
      was nothing to do or the name can be built; and then the Snapshot is resolved. */
  lemma ComesToRest(w: World, store: map<string, string>, es: seq<Event>)
    requires Clear(w, store) && PossibleRun(w, Start(store), es)
    ensures var y := Run(w, Start(store), es); var y1 := Run(w, y, Round(y)); var y2 := Run(w, y1, Round(y1));
      && PossibleRun(w, y, Round(y)) && PossibleRun(w, y1, Round(y1))
      && (!Triggered(y2) <==> CanSucceed(w, y.s))
      && (!Triggered(y2) ==> Resolved(w, y2.s))
  {
    assert AllowedRun(w, Init(store), []) && Exec(w, Init(store), []) == Init(store);
    assert Reachable(w, Init(store));
    RunStaysQuiet(w, Start(store), es);
    var y := Run(w, Start(store), es);
    RoundIs(w, y);
    var y1 := Run(w, y, Round(y));
    FirstRound(w, y.s);
    RoundIs(w, y1);
    SecondRound(w, y, y1);
  }

  lemma RoundRests(w: World, y: Sys)
    requires y.s.pc.Idle?
    ensures var z := Run(w, y, Round(y));
      z.s == Reconcile(w, CatchUp(y.s)) && z.seen == Latest(y.s) && z.again == !CanSucceed(w, y.s)
  {
    RoundIs(w, y);
    CalmSucceedsExactly(w, CatchUp(y.s));
    assert CanSucceed(w, CatchUp(y.s)) <==> CanSucceed(w, y.s);
  }

  /** Two undisturbed reconciles: the second writes nothing. */
  lemma TwoReconciles(w: World, s: State, t: State)
    requires Reachable(w, s) && s.pc.Idle? && t == Reconcile(w, CatchUp(s))
    ensures var u := Reconcile(w, CatchUp(t));
      u.hist == t.hist && (Resolved(w, u) <==> CanWork(w, s) || Resolved(w, s))
    ensures CanSucceed(w, t) <==> CanSucceed(w, s)
  {
    FirstRound(w, s);
    NextRound(w, t, Reconcile(w, CatchUp(t)));
    SameAsBefore(w, t, Reconcile(w, CatchUp(t)));
    CanSucceedStays(w, CatchUp(s));
  }

  lemma SecondRound(w: World, y: Sys, y1: Sys)
    requires Reachable(w, y.s) && y.s.pc.Idle? && y1.s == Reconcile(w, CatchUp(y.s)) && y1.s.pc.Idle?
    ensures var y2 := Run(w, y1, Round(y1));
      (!Triggered(y2) <==> CanSucceed(w, y.s)) && (!Triggered(y2) ==> Resolved(w, y2.s))
  {
    RoundRests(w, y1);
    TwoReconciles(w, y.s, y1.s);
    NothingToDo(w, y.s);
  }

  lemma NothingToDo(w: World, s: State)
    ensures CanSucceed(w, s) ==> CanWork(w, s) || Resolved(w, s)
  {
  }
}
