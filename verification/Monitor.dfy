/** The integrity check: the pool feeds a comparator, which strikes every file it sees off the map of
    expected hashes; CheckIntegrity waits for its verdict. */
module Monitor {
  import opened HashDir
  import opened Pipeline
  import opened SnapshotText
  import opened Wrappers

  datatype CheckError =
    | SetupFailed(message: string)
    | FileMismatch(path: string, hash: string)
    | NewFile(path: string, hash: string)
    | FileDeleted(path: string, hash: string)

  datatype Verdict = Passed(countHashes: nat) | Rejected(error: CheckError) | ContextDone

  /** `setup` is what finding, loading and parsing the stored snapshot comes to; `prefix` is the root
      of the watched process, which is taken off the paths. */
  datatype Check = Check(job: Job, roots: seq<seq<Entry>>, prefix: string, setup: Result<seq<FileHash>, string>)

  /** Failing and Succeeding are pending sends; doneC is closed exactly when the comparator has Ended. */
  datatype Comparator = Preparing | Comparing(left: map<string, string>) | Failing(error: CheckError) | Succeeding(count: nat) | Ended

  /** After CheckIntegrity has its verdict, its deferred calls close errC and cancel the context. */
  datatype Main = Selecting | Deciding(verdict: Verdict) | ErrClosed(verdict: Verdict) | Unwound(verdict: Verdict)

  /** `interrupted` tells a cancellation from outside from CheckIntegrity's own. */
  datatype Mon = Mon(pipe: Pipe, comparator: Comparator, main: Main, interrupted: bool, panicked: bool, errSends: nat, doneSends: nat)

  function Start(c: Check): Mon {
    Mon(Pipeline.Init(c.job, c.roots), Preparing, Selecting, false, false, 0, 0)
  }

  /** Converting the records to a map: the last record of a path stays. */
  function ToMap(records: seq<FileHash>): map<string, string> {
    if records == [] then map[]
    else
      var last := records[|records| - 1];
      ToMap(records[..|records| - 1])[last.path := last.hash]
  }

  datatype Label =
    | Work(act: Act)       // walker, workers, closer
    | Interrupt            // the caller's context is cancelled
    | Prepare
    | Take                 // the comparator receives a hash and compares it
    | Missing(path: string)// the hashes are closed, and some path was not seen
    | Complete             // the hashes are closed, and every path was seen
    | SendErr
    | SendDone
    | TakeZero             // CheckIntegrity receives from the closed doneC
    | TakeContext
    | CloseErr
    | Unwind

  predicate AllReceived(p: Pipe) {
    p.queue == [] && p.hashClosed
  }

  predicate CanDo(c: Check, m: Mon, l: Label) {
    match l
    case Work(act) => !act.Pop? && !act.Cancel? && Enabled(c.job, m.pipe, act)
    case Interrupt => !m.interrupted && !m.pipe.cancelled
    case Prepare => m.comparator.Preparing?
    case Take => m.comparator.Comparing? && m.pipe.queue != []
    case Missing(path) => m.comparator.Comparing? && AllReceived(m.pipe) && path in m.comparator.left
    case Complete => m.comparator.Comparing? && AllReceived(m.pipe) && m.comparator.left == map[]
    case SendErr => m.comparator.Failing? && (m.main.Selecting? || m.main.ErrClosed? || m.main.Unwound?)
    case SendDone => m.comparator.Succeeding? && m.main.Selecting?
    case TakeZero => m.comparator.Ended? && m.main.Selecting?
    case TakeContext => m.pipe.cancelled && m.main.Selecting?
    case CloseErr => m.main.Deciding?
    case Unwind => m.main.ErrClosed?
  }

  /** What the comparator makes of a hash. */
  function Compare(left: map<string, string>, v: FileHash): Comparator {
    if v.path in left then
      if left[v.path] != v.hash then Failing(FileMismatch(v.path, v.hash)) else Comparing(left - {v.path})
    else Failing(NewFile(v.path, v.hash))
  }

  function Prepared(c: Check): Comparator {
    if c.setup.Failure? then Failing(SetupFailed(c.setup.error)) else Comparing(ToMap(c.setup.value))
  }

  function Do(c: Check, m: Mon, l: Label): Mon
    requires CanDo(c, m, l)
  {
    match l
    case Work(act) => m.(pipe := Pipeline.Step(c.job, m.pipe, act))
    case Interrupt => m.(pipe := m.pipe.(cancelled := true), interrupted := true)
    case Prepare => m.(comparator := Prepared(c))
    case Take =>
      m.(pipe := Pipeline.Step(c.job, m.pipe, Pop),
         comparator := if m.pipe.cancelled then Ended
                       else Compare(m.comparator.left, Strip(c.prefix, m.pipe.queue[0])))
    case Missing(path) => m.(comparator := Failing(FileDeleted(path, m.comparator.left[path])))
    case Complete => m.(comparator := Succeeding(if c.setup.Success? then |c.setup.value| else 0))
    case SendErr =>
      if m.main.Selecting? then
        m.(main := Deciding(Rejected(m.comparator.error)), comparator := Ended, errSends := m.errSends + 1)
      else m.(panicked := true, comparator := Ended)
    case SendDone =>
      m.(main := Deciding(Passed(m.comparator.count)), comparator := Ended, doneSends := m.doneSends + 1)
    case TakeZero => m.(main := Deciding(Passed(0)))
    case TakeContext => m.(main := Deciding(ContextDone))
    case CloseErr => m.(main := ErrClosed(m.main.verdict))
    case Unwind => m.(main := Unwound(m.main.verdict), pipe := m.pipe.(cancelled := true))
  }

  predicate IsRun(c: Check, m: Mon, ls: seq<Label>)
    decreases |ls|
  {
    ls == [] || (CanDo(c, m, ls[0]) && IsRun(c, Do(c, m, ls[0]), ls[1..]))
  }

  function After(c: Check, m: Mon, ls: seq<Label>): Mon
    requires IsRun(c, m, ls)
    decreases |ls|
  {
    if ls == [] then m else After(c, Do(c, m, ls[0]), ls[1..])
  }

  /* ---------- Bags of path and hash ---------- */

  /** The entries of a map, each once. */
  function Entries(m: map<string, string>): multiset<FileHash> {
    multiset(set p | p in m :: FileHash(p, m[p]))
  }

  /** What a check of this tree observes when it runs to the end. */
  function Observed(c: Check): multiset<FileHash> {
    multiset(Stripped(c.prefix, Hashed(c.job.hash, Files(c.roots))))
  }

  function Seen(c: Check, m: Mon): multiset<FileHash> {
    multiset(Stripped(c.prefix, m.pipe.delivered))
  }

  lemma EntriesAt(m: map<string, string>, x: FileHash)
    ensures Entries(m)[x] == if x.path in m && m[x.path] == x.hash then 1 else 0
  {
    var s := set p | p in m :: FileHash(p, m[p]);
    assert x in s <==> x.path in m && m[x.path] == x.hash;
  }

  lemma EntriesWithout(m: map<string, string>, path: string)
    requires path in m
    ensures Entries(m - {path}) + multiset{FileHash(path, m[path])} == Entries(m)
  {
    forall x ensures (Entries(m - {path}) + multiset{FileHash(path, m[path])})[x] == Entries(m)[x] {
      EntriesAt(m, x);
      EntriesAt(m - {path}, x);
    }
  }

  /* ---------- What an error says ---------- */

  /** The tree was given this expected map: the error points at a difference that is there. A file
      that is reported as new is not expected, or was seen before. */
  ghost predicate Genuine(expected: map<string, string>, observed: multiset<FileHash>, e: CheckError) {
    match e
    case SetupFailed(_) => false
    case FileMismatch(path, hash) =>
      FileHash(path, hash) in observed && path in expected && expected[path] != hash
    case NewFile(path, hash) =>
      if path in expected then multiset{FileHash(path, expected[path]), FileHash(path, hash)} <= observed
      else FileHash(path, hash) in observed
    case FileDeleted(path, hash) =>
      path in expected && expected[path] == hash && forall h :: FileHash(path, h) !in observed
  }

  /** A genuine error means that the tree differs from the snapshot. */
  lemma GenuineMeansDifferent(expected: map<string, string>, observed: multiset<FileHash>, e: CheckError)
    requires Genuine(expected, observed, e)
    ensures observed != Entries(expected)
  {
    match e
    case FileMismatch(path, hash) => EntriesAt(expected, FileHash(path, hash));
    case NewFile(path, hash) =>
      EntriesAt(expected, FileHash(path, hash));
      if path in expected {
        EntriesAt(expected, FileHash(path, expected[path]));
        assert multiset{FileHash(path, expected[path]), FileHash(path, hash)}[FileHash(path, hash)]
            <= observed[FileHash(path, hash)];
      }
    case FileDeleted(path, hash) => EntriesAt(expected, FileHash(path, hash));
  }

  /** What a verdict promises about the tree and the snapshot. */
  ghost predicate Justified(c: Check, v: Verdict) {
    match v
    case ContextDone => false
    case Passed(n) => c.setup.Success? && n == |c.setup.value| && Observed(c) == Entries(ToMap(c.setup.value))
    case Rejected(e) =>
      match c.setup
      case Failure(message) => e == SetupFailed(message)
      case Success(records) => Genuine(ToMap(records), Observed(c), e)
  }

  /* ---------- The invariant of undisturbed runs ---------- */

  /** The comparator has struck off exactly what it has seen. */
  ghost predicate Struck(c: Check, m: Mon) {
    match m.comparator
    case Comparing(left) => c.setup.Success? && Seen(c, m) + Entries(left) == Entries(ToMap(c.setup.value))
    case Failing(e) => Justified(c, Rejected(e))
    case Succeeding(n) => Justified(c, Passed(n))
    case _ => true
  }

  /** CheckIntegrity selects until the comparator's one send reaches it; then errC is closed and the
      context cancelled, in that order. */
  ghost predicate Handshake(c: Check, m: Mon) {
    && !m.interrupted && !m.panicked
    && (m.pipe.cancelled ==> m.main.Unwound?)
    && (m.comparator.Preparing? ==> m.pipe.delivered == [])
    && (m.main.Selecting? ==> !m.comparator.Ended? && m.errSends == 0 && m.doneSends == 0)
    && (!m.main.Selecting? ==>
          && m.comparator.Ended? && Justified(c, m.main.verdict)
          && (if m.main.verdict.Rejected? then m.errSends == 1 && m.doneSends == 0
              else m.errSends == 0 && m.doneSends == 1))
  }

  ghost predicate Undisturbed(c: Check, m: Mon) {
    && c.job.countWorkers >= 1
    && Pipeline.Inv(c.job, c.roots, m.pipe)
    && Handshake(c, m)
    && Struck(c, m)
  }

  lemma StartUndisturbed(c: Check)
    requires c.job.countWorkers >= 1
    ensures Undisturbed(c, Start(c))
  {
    InitInv(c.job, c.roots);
  }

  /** What has been seen is part of what there is to observe. */
  lemma SeenIsObserved(c: Check, p: Pipe)
    requires Pipeline.Inv(c.job, c.roots, p)
    ensures multiset(Stripped(c.prefix, p.delivered)) <= Observed(c)
  {
    HashedBag(c.job.hash, p.handed, Files(c.roots));
    StrippedBag(c.prefix, p.delivered, Hashed(c.job.hash, Files(c.roots)));
  }
}
