/** What a call of Reconcile returns, told by what it meets: whether the client is there, what the fetch
    shows, how the remote calls go, and whether others have changed the object by the time of the write. */
module CallResults {
  import opened Controller
  import opened Reconciler
  import opened Wrappers
  import ControllerTheorems

  /** The client was set up before, or this call is the first and finds what it needs. */
  predicate ClientThere(s: State, client: Weather) {
    s.storage == Ready || (s.storage == Untried && client.outcome == Ok)
  }

  /** The version that the fetch shows, if the client is there. */
  function SeenVersion(w: World, s: State, client: Weather, fetch: Weather): nat {
    Exec(w, s, client.moves + fetch.moves).cache
  }

  function Seen(w: World, s: State, client: Weather, fetch: Weather): Option<Snapshot> {
    Exec(w, s, client.moves + fetch.moves).hist[SeenVersion(w, s, client, fetch)]
  }

  predicate Obtains(s: State, client: Weather, fetch: Weather) {
    ClientThere(s, client) && fetch.outcome == Ok
  }

  /** The object is being deleted, or its status does not claim an upload of its hashes. */
  predicate HasWork(w: World, o: Snapshot) {
    o.deleting || !o.status.isUploaded || o.status.controlHash != w.md5(o.spec.base64Hashes)
  }

  /** The write to the API works: the version that was fetched is still the latest. */
  predicate WriteWorks(w: World, s: State, client: Weather, fetch: Weather, storing: Weather, write: Weather) {
    && write.outcome == Ok
    && Latest(Exec(w, s, client.moves + fetch.moves + storing.moves + write.moves)) == SeenVersion(w, s, client, fetch)
  }

  /** What ends with an error once there is work: a removal or the write after it, and the write that reports
      a good save. An upload that fails does not. */
  predicate WorkErrs(w: World, o: Snapshot, stored: bool, written: bool) {
    if o.deleting then !stored || !written
    else stored && w.decode(o.spec.base64Hashes).Some? && !written
  }

  predicate Errs(w: World, s: State, client: Weather, fetch: Weather, storing: Weather, write: Weather) {
    var written := WriteWorks(w, s, client, fetch, storing, write);
    !Obtains(s, client, fetch) || ErrsOn(w, Seen(w, s, client, fetch), storing.outcome == Ok, written)
  }

  predicate ErrsOn(w: World, seen: Option<Snapshot>, stored: bool, written: bool) {
    match seen
    case None => false
    case Some(o) => HasWork(w, o) && w.key(o.spec).Some? && WorkErrs(w, o, stored, written)
  }

  predicate Panics(w: World, s: State, client: Weather, fetch: Weather) {
    Obtains(s, client, fetch) && PanicsOn(w, Seen(w, s, client, fetch))
  }

  /** There is work on an object whose name cannot be built. */
  predicate PanicsOn(w: World, seen: Option<Snapshot>) {
    match seen
    case None => false
    case Some(o) => HasWork(w, o) && w.key(o.spec).None?
  }

  /* ---------- Others do not see the reconciler ---------- */

  predicate SameVersions(s: State, u: State) {
    s.hist == u.hist && s.cache == u.cache && s.edits == u.edits
  }

  lemma SameMove(w: World, s: State, u: State, l: Label)
    requires SameVersions(s, u) && IsMove(l)
    ensures SameVersions(Step(w, s, l), Step(w, u, l))
    ensures Step(w, s, l).pc == s.pc && Step(w, s, l).storage == s.storage
  {
    MovesAreForeign(w, s, l);
    MovesAreForeign(w, u, l);
    var s0 := Shown(s.hist, s.cache, s.store, s.storage, s.born, s.edits);
    var u0 := Shown(u.hist, u.cache, u.store, u.storage, u.born, u.edits);
    SameShown(w, s0, u0, l);
  }

  lemma SameShown(w: World, s: State, u: State, l: Label)
    requires SameVersions(s, u) && IsMove(l)
    ensures SameVersions(Step(w, s, l), Step(w, u, l))
  {
    if l.Create? || l.EditSpec? {
      assert Current(s) == Current(u);
    }
  }

  lemma {:induction false} SameMoves(w: World, s: State, u: State, moves: seq<Label>)
    requires SameVersions(s, u) && Moves(moves)
    ensures var t := Exec(w, s, moves); SameVersions(t, Exec(w, u, moves)) && t.pc == s.pc && t.storage == s.storage
    decreases |moves|
  {
    if moves != [] {
      SameMove(w, s, u, moves[0]);
      SameMoves(w, Step(w, s, moves[0]), Step(w, u, moves[0]), moves[1..]);
    }
  }

  /** One remote call, from a state that shows the versions of `u`. */
  lemma Turn(w: World, s: State, u: State, weather: Weather, rest: seq<Weather>) returns (v: State, l: Label, t: State)
    requires SameVersions(s, u) && Moves(weather.moves)
    ensures l == Call(s.pc, weather.outcome) && t == Step(w, v, l) && Extends(s, v) && v.storage == s.storage
    ensures SameVersions(v, Exec(w, u, weather.moves))
    ensures var r := Returns(w, v, l);
      Play(w, s, [weather] + rest) == if r.Some? then Played(t, r) else Play(w, t, rest)
  {
    v, l := Exec(w, s, weather.moves), Call(s.pc, weather.outcome);
    SameMoves(w, s, u, weather.moves);
    MovesExtend(w, s, weather.moves);
    t := Step(w, v, l);
    PlayTurn(w, s, weather, rest, v, l, t);
  }

  /* ---------- From the last call to the first ---------- */

  predicate Written(w: World, u: State, write: Weather, rv: nat) {
    write.outcome == Ok && Latest(Exec(w, u, write.moves)) == rv
  }

  lemma WriteReturns(w: World, s: State, u: State, write: Weather, o: Snapshot)
    requires SameVersions(s, u) && Moves(write.moves) && (s.pc.Reporting? || s.pc.Finalizing?)
    requires s.pc.rv < |s.hist| && s.hist[s.pc.rv] == Some(o)
    ensures var fine := Written(w, u, write, s.pc.rv) || (s.pc.Reporting? && !s.pc.obj.status.isUploaded);
      Play(w, s, [write]).result == Some(if fine then Done else Requeue)
  {
    var v, l, t := Turn(w, s, u, write, []);
    assert [write] + [] == [write];
    LastReturns(w, v, write.outcome, o);
  }

  lemma LastReturns(w: World, v: State, outcome: Outcome, o: Snapshot)
    requires (v.pc.Reporting? || v.pc.Finalizing?) && v.pc.rv < |v.hist| && v.hist[v.pc.rv] == Some(o)
    ensures var fine := (outcome == Ok && Latest(v) == v.pc.rv) || (v.pc.Reporting? && !v.pc.obj.status.isUploaded);
      Returns(w, v, Call(v.pc, outcome)) == Some(if fine then Done else Requeue)
  {
    assert Accepts(v, v.pc.rv, outcome) <==> !outcome.Fail? && v.pc.rv == Latest(v);
  }

  /** Where the first of the last two calls leads: to its own result, or to the write. */
  predicate LeadsTo(w: World, s: State, weathers: seq<Weather>, r: Option<Reconciler.Result>, t: State, rest: seq<Weather>) {
    Play(w, s, weathers).result == if r.Some? then r else Play(w, t, rest).result
  }

  lemma RemovalTurn(w: World, s: State, u: State, storing: Weather, write: Weather)
    returns (r: Option<Reconciler.Result>, t: State)
    requires SameVersions(s, u) && Moves(storing.moves) && s.pc.Removing?
    ensures Extends(s, t.(pc := s.pc)) && SameVersions(t, Exec(w, u, storing.moves))
    ensures if w.key(s.pc.obj.spec).None? then r == Some(Panic)
            else if storing.outcome == Ok then r.None? && t.pc.Finalizing? && t.pc.rv == s.pc.rv
            else r == Some(Requeue)
    ensures LeadsTo(w, s, [storing, write], r, t, [write])
  {
    var v, l;
    v, l, t := Turn(w, s, u, storing, [write]);
    assert [storing] + [write] == [storing, write];
    assert t == AfterRemove(w, v, storing.outcome);
    r := Returns(w, v, l);
  }

  lemma RemovalReturns(w: World, s: State, u: State, storing: Weather, write: Weather)
    requires SameVersions(s, u) && Moves(storing.moves) && Moves(write.moves)
    requires s.pc.Removing? && s.pc.rv < |s.hist| && s.hist[s.pc.rv] == Some(s.pc.obj)
    ensures var written := Written(w, Exec(w, u, storing.moves), write, s.pc.rv);
      Play(w, s, [storing, write]).result
      == Some(if w.key(s.pc.obj.spec).None? then Panic else if storing.outcome == Ok && written then Done else Requeue)
  {
    var r, t := RemovalTurn(w, s, u, storing, write);
    if r.None? {
      WriteReturns(w, t, Exec(w, u, storing.moves), write, s.pc.obj);
    }
  }

  lemma UploadTurn(w: World, s: State, u: State, storing: Weather, write: Weather)
    returns (r: Option<Reconciler.Result>, t: State)
    requires SameVersions(s, u) && Moves(storing.moves) && s.pc.Uploading?
    ensures Extends(s, t.(pc := s.pc)) && SameVersions(t, Exec(w, u, storing.moves))
    ensures var o := s.pc.obj;
      if w.key(o.spec).None? then r == Some(Panic)
      else
        && r.None? && t.pc.Reporting? && t.pc.rv == s.pc.rv
        && t.pc.obj.status.isUploaded == (storing.outcome == Ok && w.decode(o.spec.base64Hashes).Some?)
    ensures LeadsTo(w, s, [storing, write], r, t, [write])
  {
    var v, l;
    v, l, t := Turn(w, s, u, storing, [write]);
    assert [storing] + [write] == [storing, write];
    assert t == AfterSave(w, v, storing.outcome);
    r := Returns(w, v, l);
  }

  lemma UploadReturns(w: World, s: State, u: State, storing: Weather, write: Weather)
    requires SameVersions(s, u) && Moves(storing.moves) && Moves(write.moves)
    requires s.pc.Uploading? && s.pc.rv < |s.hist| && s.hist[s.pc.rv] == Some(s.pc.obj)
    ensures var o := s.pc.obj; var written := Written(w, Exec(w, u, storing.moves), write, s.pc.rv);
      Play(w, s, [storing, write]).result
      == Some(if w.key(o.spec).None? then Panic
              else if storing.outcome == Ok && w.decode(o.spec.base64Hashes).Some? && !written then Requeue else Done)
  {
    var r, t := UploadTurn(w, s, u, storing, write);
    if r.None? {
      WriteReturns(w, t, Exec(w, u, storing.moves), write, s.pc.obj);
    }
  }

  /** What is returned once the object is fetched. */
  function AfterFetch(w: World, seen: Option<Snapshot>, stored: bool, written: bool): Reconciler.Result {
    match seen
    case None => Done
    case Some(o) =>
      if !HasWork(w, o) then Done else if w.key(o.spec).None? then Panic
      else if WorkErrs(w, o, stored, written) then Requeue else Done
  }

  lemma FetchTurn(w: World, s: State, u: State, fetch: Weather, rest: seq<Weather>, o: Option<Snapshot>)
    returns (r: Option<Reconciler.Result>, t: State)
    requires SameVersions(s, u) && Moves(fetch.moves) && s.pc.Fetching?
    requires var f := Exec(w, u, fetch.moves); o == f.hist[f.cache]
    ensures SameVersions(t, Exec(w, u, fetch.moves))
    ensures if fetch.outcome != Ok then r == Some(Requeue)
            else if o.None? || !HasWork(w, o.value) then r == Some(Done)
            else r.None? && t.pc == if o.value.deleting then Removing(t.cache, o.value) else Uploading(t.cache, o.value)
    ensures LeadsTo(w, s, [fetch] + rest, r, t, rest)
  {
    var v, l;
    v, l, t := Turn(w, s, u, fetch, rest);
    r := Returns(w, v, l);
  }

  lemma FetchReturns(w: World, s: State, u: State, fetch: Weather, storing: Weather, write: Weather)
    requires SameVersions(s, u) && Moves(fetch.moves) && Moves(storing.moves) && Moves(write.moves) && s.pc.Fetching?
    ensures var f := Exec(w, u, fetch.moves); var written := Written(w, Exec(w, f, storing.moves), write, f.cache);
      Play(w, s, [fetch, storing, write]).result
      == Some(if fetch.outcome != Ok then Requeue else AfterFetch(w, f.hist[f.cache], storing.outcome == Ok, written))
  {
    var f := Exec(w, u, fetch.moves);
    var r, t := FetchTurn(w, s, u, fetch, [storing, write], f.hist[f.cache]);
    assert [fetch] + [storing, write] == [fetch, storing, write];
    if r.None? {
      if t.pc.Removing? {
        RemovalReturns(w, t, f, storing, write);
      } else {
        UploadReturns(w, t, f, storing, write);
      }
    }
  }

  lemma AllMoves(w: World, s: State, client: Weather, fetch: Weather, storing: Weather, write: Weather)
    ensures var f := Exec(w, Exec(w, s, client.moves), fetch.moves);
      && f == Exec(w, s, client.moves + fetch.moves)
      && Exec(w, Exec(w, f, storing.moves), write.moves)
      == Exec(w, s, client.moves + fetch.moves + storing.moves + write.moves)
  {
    ExecConcat(w, s, client.moves, fetch.moves);
    ExecConcat(w, s, client.moves + fetch.moves, storing.moves);
    ExecConcat(w, s, client.moves + fetch.moves + storing.moves, write.moves);
  }

  /** For every call, whatever happens in between: it returns an error exactly if the client is missing, the
      fetch fails, the removal or the write of the finalizers fails, or the write of the status fails after a
      good save. It panics exactly if there is work on an object without a name. Otherwise, for an object
      that is gone or has no work too, it returns none. */
  lemma ReturnsExactly(w: World, s: State, client: Weather, fetch: Weather, storing: Weather, write: Weather)
    requires s.pc.Idle?
    requires Moves(client.moves) && Moves(fetch.moves) && Moves(storing.moves) && Moves(write.moves)
    ensures var r := Play(w, s, [client, fetch, storing, write]).result;
      && (r == Some(Requeue) <==> Errs(w, s, client, fetch, storing, write))
      && (r == Some(Panic) <==> Panics(w, s, client, fetch))
      && (r == Some(Done) <==> !Errs(w, s, client, fetch, storing, write) && !Panics(w, s, client, fetch))
  {
    var v, l, t := Turn(w, s, s, client, [fetch, storing, write]);
    assert [client] + [fetch, storing, write] == [client, fetch, storing, write];
    assert Returns(w, v, l) == if ClientThere(s, client) then None else Some(Requeue);
    if ClientThere(s, client) {
      assert t == v.(storage := Ready, pc := Fetching);
      FetchReturns(w, t, Exec(w, s, client.moves), fetch, storing, write);
      FoundIs(w, s, client, fetch, storing, write);
    }
  }

  /** The fetch shows the same whether or not the client is there. */
  lemma SeenIs(w: World, s: State, client: Weather, fetch: Weather)
    requires Moves(client.moves) && Moves(fetch.moves)
    ensures Exec(w, Step(w, Exec(w, s, client.moves), Begin(client.outcome.Ok?)), fetch.moves).cache
         == SeenVersion(w, s, client, fetch)
  {
    var u := Exec(w, s, client.moves);
    SameMoves(w, Step(w, u, Begin(client.outcome.Ok?)), u, fetch.moves);
    ExecConcat(w, s, client.moves, fetch.moves);
  }

  /** The result after the fetch, in the words of the two conditions. */
  lemma FoundIs(w: World, s: State, client: Weather, fetch: Weather, storing: Weather, write: Weather)
    requires ClientThere(s, client)
    ensures var f := Exec(w, Exec(w, s, client.moves), fetch.moves);
      var written := Written(w, Exec(w, f, storing.moves), write, f.cache);
      var r := if fetch.outcome != Ok then Requeue else AfterFetch(w, f.hist[f.cache], storing.outcome == Ok, written);
      && (r == Requeue <==> Errs(w, s, client, fetch, storing, write))
      && (r == Panic <==> Panics(w, s, client, fetch))
  {
    AllMoves(w, s, client, fetch, storing, write);
    FoundOn(w, Seen(w, s, client, fetch), storing.outcome == Ok, WriteWorks(w, s, client, fetch, storing, write));
  }

  lemma FoundOn(w: World, seen: Option<Snapshot>, stored: bool, written: bool)
    ensures AfterFetch(w, seen, stored, written) == Requeue <==> ErrsOn(w, seen, stored, written)
    ensures AfterFetch(w, seen, stored, written) == Panic <==> PanicsOn(w, seen)
  {
  }

  /** The client is not lost, and there is nothing to do or the name can be built. */
  predicate CanSucceed(w: World, s: State) {
    s.storage != Broken && (Current(s).None? || !HasWork(w, Current(s).value) || w.key(Current(s).value.spec).Some?)
  }

  /** A call with a current cache that nothing disturbs succeeds if and only if the client is not lost and
      there is nothing to do or the name can be built. */
  lemma CalmSucceedsExactly(w: World, s: State)
    requires ControllerTheorems.Rested(s)
    ensures Play(w, s, [CALM, CALM, CALM, CALM]).result == Some(Done)
       <==> CanSucceed(w, s)
  {
    ReturnsExactly(w, s, CALM, CALM, CALM, CALM);
    assert CALM.moves + CALM.moves == [] && CALM.moves + CALM.moves + CALM.moves + CALM.moves == [];
    assert Exec(w, s, []) == s && CALM.outcome == Ok;
    assert Seen(w, s, CALM, CALM) == Current(s) && WriteWorks(w, s, CALM, CALM, CALM, CALM);
    assert Errs(w, s, CALM, CALM, CALM, CALM) <==> s.storage == Broken;
    assert Panics(w, s, CALM, CALM) <==> s.storage != Broken && PanicsOn(w, Current(s));
  }

  /* ---------- What a remote call changes ---------- */

  /** A call that did its work but reported an error has changed the API and the store as a good one does;
      one that failed has changed nothing. */
  lemma LostWorks(w: World, s: State)
    ensures var good, lost := Step(w, s, Call(s.pc, Ok)), Step(w, s, Call(s.pc, Lost));
      lost.hist == good.hist && lost.store == good.store
    ensures var failed := Step(w, s, Call(s.pc, Fail)); failed.hist == s.hist && failed.store == s.store
  {
    if s.pc.Removing? || s.pc.Uploading? {
      StoreCalls(w, s);
    } else if s.pc.Reporting? || s.pc.Finalizing? {
      ApiCalls(s);
    }
  }

  lemma StoreCalls(w: World, s: State)
    requires s.pc.Removing? || s.pc.Uploading?
    ensures var after := outcome => if s.pc.Removing? then AfterRemove(w, s, outcome) else AfterSave(w, s, outcome);
      && after(Lost).hist == after(Ok).hist && after(Lost).store == after(Ok).store
      && after(Fail).hist == s.hist && after(Fail).store == s.store
  {
  }

  lemma ApiCalls(s: State)
    requires s.pc.Reporting? || s.pc.Finalizing?
    ensures var after := outcome => if s.pc.Reporting? then AfterPutStatus(s, outcome) else AfterPutFinalizers(s, outcome);
      && after(Lost).hist == after(Ok).hist && after(Lost).store == after(Ok).store
      && after(Fail).hist == s.hist && after(Fail).store == s.store
  {
  }
}
