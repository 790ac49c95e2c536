/** A snapshot is taken of one tree, published and stored; later another tree is checked against it. */
module EndToEnd {
  import opened GoStrings
  import opened HashDir
  import opened Monitor
  import opened MonitorTheorems
  import opened Pipeline
  import opened SnapshotText
  import opened Walk
  import opened Wrappers
  import Bee2
  import Controller
  import ControllerInvariant
  import ControllerTheorems
  import Hasher
  import ObjectKey

  /** What is found below a directory: by the names that lead there, none for the directory itself. */
  datatype Item = File(names: seq<string>) | Other(names: seq<string>) | Unreadable

  /** A watched directory, as it is configured, and what walking it yields. */
  datatype Dir = Dir(name: string, items: seq<Item>)

  /** The watched directories of a file system, and the hash of the file at a path relative to its root,
      None where it cannot be read. */
  datatype Tree = Tree(dirs: seq<Dir>, hash: string -> Option<string>)

  predicate ValidItems(items: seq<Item>) {
    forall i :: 0 <= i < |items| && items[i].File? ==> AreNames(items[i].names)
  }

  predicate ValidDirs(dirs: seq<Dir>) {
    forall i :: 0 <= i < |dirs| ==> Inside(dirs[i].name) && ValidItems(dirs[i].items)
  }

  /* ---------- A tree walked below a root ---------- */

  function EntryOf(root: string, dir: string, item: Item): Entry {
    match item
    case File(names) => Regular(Reported(root + "/" + dir, names))
    case Other(names) => Entry.Other(Reported(root + "/" + dir, names))
    case Unreadable => Broken
  }

  function EntriesOf(root: string, dir: string, items: seq<Item>): seq<Entry> {
    if items == [] then [] else [EntryOf(root, dir, items[0])] + EntriesOf(root, dir, items[1..])
  }

  function Walked(root: string, dirs: seq<Dir>): seq<seq<Entry>> {
    if dirs == [] then [] else [EntriesOf(root, dirs[0].name, dirs[0].items)] + Walked(root, dirs[1..])
  }

  function Listings(root: string, dirs: seq<Dir>): seq<Listing> {
    seq(|dirs|, i requires 0 <= i < |dirs| => Listed(EntriesOf(root, dirs[i].name, dirs[i].items)))
  }

  /** A file below a root is the file at the path relative to it. */
  function JobFor(t: Tree, root: string, countWorkers: nat): Job {
    Job(countWorkers, (path: string) => t.hash(TrimPrefix(path, root + "/")))
  }

  /** The relative paths of the regular files, up to an error. */
  function ItemPaths(dir: string, items: seq<Item>): seq<string> {
    if items == [] || items[0].Unreadable? then []
    else (if items[0].File? then [Relative(dir, items[0].names)] else []) + ItemPaths(dir, items[1..])
  }

  function Paths(dirs: seq<Dir>): seq<string> {
    if dirs == [] then [] else ItemPaths(dirs[0].name, dirs[0].items) + Paths(dirs[1..])
  }

  /** The paths and hashes that a snapshot of the tree is to record. */
  function Records(t: Tree): seq<FileHash> {
    Hashed(t.hash, Paths(t.dirs))
  }

  lemma StrippedPath(root: string, dir: string, names: seq<string>)
    requires GoodRoot(root) && Inside(dir) && AreNames(names)
    ensures TrimPrefix(Reported(root + "/" + dir, names), root + "/") == Relative(dir, names)
  {
    if names == [] {
      StrippedItself(root, dir);
    } else {
      StrippedExactly(root, dir, names);
    }
  }

  /** Walking a directory below a good root, hashing what is found and taking the root off again gives
      the records of the directory. */
  lemma {:induction false} DirRecords(t: Tree, root: string, n: nat, dir: string, items: seq<Item>)
    requires GoodRoot(root) && Inside(dir) && ValidItems(items)
    ensures Stripped(root + "/", Hashed(JobFor(t, root, n).hash, RootFiles(EntriesOf(root, dir, items))))
         == Hashed(t.hash, ItemPaths(dir, items))
  {
    if items != [] && !items[0].Unreadable? {
      var rest := EntriesOf(root, dir, items[1..]);
      assert EntriesOf(root, dir, items)[1..] == rest;
      DirRecords(t, root, n, dir, items[1..]);
      if items[0].File? {
        FileRecord(t, root, n, dir, items[0].names, RootFiles(rest), ItemPaths(dir, items[1..]));
      } else {
        assert [] + RootFiles(rest) == RootFiles(rest);
        assert [] + ItemPaths(dir, items[1..]) == ItemPaths(dir, items[1..]);
      }
    }
  }

  lemma FileRecord(t: Tree, root: string, n: nat, dir: string, names: seq<string>, files: seq<string>, paths: seq<string>)
    requires GoodRoot(root) && Inside(dir) && AreNames(names)
    requires Stripped(root + "/", Hashed(JobFor(t, root, n).hash, files)) == Hashed(t.hash, paths)
    ensures Stripped(root + "/", Hashed(JobFor(t, root, n).hash, [Reported(root + "/" + dir, names)] + files))
         == Hashed(t.hash, [Relative(dir, names)] + paths)
  {
    var hash, p, r := JobFor(t, root, n).hash, Reported(root + "/" + dir, names), Relative(dir, names);
    StrippedPath(root, dir, names);
    HashedConcat(hash, [p], files);
    HashedConcat(t.hash, [r], paths);
    StrippedConcat(root + "/", Hashed(hash, [p]), Hashed(hash, files));
    assert [p][1..] == [] && [r][1..] == [];
    assert Stripped(root + "/", Hashed(hash, [p])) == Hashed(t.hash, [r]);
  }

  lemma {:induction false} WalkedRecords(t: Tree, root: string, n: nat, dirs: seq<Dir>)
    requires GoodRoot(root) && ValidDirs(dirs)
    ensures Stripped(root + "/", Hashed(JobFor(t, root, n).hash, Files(Walked(root, dirs)))) == Hashed(t.hash, Paths(dirs))
  {
    if dirs != [] {
      var hash, rest := JobFor(t, root, n).hash, Walked(root, dirs[1..]);
      var first := EntriesOf(root, dirs[0].name, dirs[0].items);
      assert Walked(root, dirs)[1..] == rest && Walked(root, dirs)[0] == first;
      DirRecords(t, root, n, dirs[0].name, dirs[0].items);
      WalkedRecords(t, root, n, dirs[1..]);
      HashedConcat(hash, RootFiles(first), Files(rest));
      HashedConcat(t.hash, ItemPaths(dirs[0].name, dirs[0].items), Paths(dirs[1..]));
      StrippedConcat(root + "/", Hashed(hash, RootFiles(first)), Hashed(hash, Files(rest)));
    }
  }

  /** What an undisturbed check of the tree observes, below the root of any process. */
  lemma ObservedIsRecords(t: Tree, pid: nat, n: nat, setup: Result<seq<FileHash>, string>)
    requires ValidDirs(t.dirs)
    ensures Observed(CheckOf(t, pid, n, setup)) == multiset(Records(t))
  {
    ProcRootIsGood(pid);
    WalkedRecords(t, ProcRoot(pid), n, t.dirs);
  }

  lemma {:induction false} PathsConcat(a: seq<Dir>, b: seq<Dir>)
    ensures Paths(a + b) == Paths(a) + Paths(b)
  {
    if a == [] {
      assert a + b == b;
    } else {
      assert (a + b)[1..] == a[1..] + b;
      PathsConcat(a[1..], b);
    }
  }

  /** What the snapshot tool is to write of the first directories. */
  lemma {:induction false} SnapshotIsRecords(t: Tree, root: string, n: nat, dirs: seq<Dir>, k: nat)
    requires GoodRoot(root) && ValidDirs(dirs) && k <= |dirs|
    ensures AllHashes(JobFor(t, root, n), root + "/", Listings(root, dirs), k) == Hashed(t.hash, Paths(dirs[..k]))
  {
    if k > 0 {
      var d := dirs[k - 1];
      SnapshotIsRecords(t, root, n, dirs, k - 1);
      OneDirRecords(t, root, n, d);
      FirstPaths(t, dirs, k);
    }
  }

  lemma FirstPaths(t: Tree, dirs: seq<Dir>, k: nat)
    requires 0 < k <= |dirs|
    ensures Hashed(t.hash, Paths(dirs[..k])) == Hashed(t.hash, Paths(dirs[..k - 1])) + Hashed(t.hash, Paths([dirs[k - 1]]))
  {
    assert dirs[..k] == dirs[..k - 1] + [dirs[k - 1]];
    PathsConcat(dirs[..k - 1], [dirs[k - 1]]);
    HashedConcat(t.hash, Paths(dirs[..k - 1]), Paths([dirs[k - 1]]));
  }

  lemma OneDirRecords(t: Tree, root: string, n: nat, d: Dir)
    requires GoodRoot(root) && Inside(d.name) && ValidItems(d.items)
    ensures DirHashes(JobFor(t, root, n), root + "/", Listed(EntriesOf(root, d.name, d.items))) == Hashed(t.hash, Paths([d]))
  {
    var entries := EntriesOf(root, d.name, d.items);
    DirRecords(t, root, n, d.name, d.items);
    assert [entries][1..] == [] && [d][1..] == [];
    assert RootFiles(entries) + [] == RootFiles(entries);
    assert Files([entries]) == RootFiles(entries) + Files([entries][1..]) == RootFiles(entries);
    assert ItemPaths(d.name, d.items) + [] == ItemPaths(d.name, d.items);
    assert Paths([d]) == ItemPaths(d.name, d.items) + Paths([d][1..]);
  }

  /* ---------- Records and maps ---------- */

  ghost predicate NoRepeats(records: seq<FileHash>) {
    forall x :: multiset(records)[x] <= 1
  }

  /** No file that can be hashed is there twice, as it is when watched directories overlap. */
  predicate OnceIn(hash: string -> Option<string>, paths: seq<string>) {
    forall i, j :: 0 <= i < j < |paths| && paths[i] == paths[j] ==> hash(paths[i]).None?
  }

  predicate WalkedOnce(t: Tree) {
    OnceIn(t.hash, Paths(t.dirs))
  }

  lemma {:induction false} HashedPaths(hash: string -> Option<string>, paths: seq<string>)
    ensures forall r :: r in Hashed(hash, paths) <==> r.path in paths && hash(r.path) == Some(r.hash)
  {
    if paths != [] {
      HashedPaths(hash, paths[1..]);
      assert paths == [paths[0]] + paths[1..];
    }
  }

  lemma HashedFirst(hash: string -> Option<string>, paths: seq<string>, x: FileHash)
    requires paths != []
    ensures multiset(Hashed(hash, paths))[x] == multiset(Hashed(hash, paths[1..]))[x]
         + (if hash(paths[0]) == Some(x.hash) && x.path == paths[0] then 1 else 0)
  {
    var first := match hash(paths[0]) case None => [] case Some(h) => [FileHash(paths[0], h)];
    assert multiset(Hashed(hash, paths)) == multiset(first) + multiset(Hashed(hash, paths[1..]));
  }

  /** Records repeat exactly if files do. */
  lemma {:induction false} RepeatsExactly(hash: string -> Option<string>, paths: seq<string>)
    ensures NoRepeats(Hashed(hash, paths)) <==> OnceIn(hash, paths)
  {
    if paths != [] {
      RepeatsExactly(hash, paths[1..]);
      if OnceIn(hash, paths) {
        OnceGoesOn(hash, paths);
      } else {
        TwiceGoesOn(hash, paths);
      }
    }
  }

  lemma OnceGoesOn(hash: string -> Option<string>, paths: seq<string>)
    requires paths != [] && OnceIn(hash, paths) && (OnceIn(hash, paths[1..]) ==> NoRepeats(Hashed(hash, paths[1..])))
    ensures NoRepeats(Hashed(hash, paths))
  {
    var rest := paths[1..];
    assert forall i :: 0 <= i < |rest| ==> rest[i] == paths[i + 1];
    assert OnceIn(hash, rest);
    HashedPaths(hash, rest);
    forall x ensures multiset(Hashed(hash, paths))[x] <= 1 {
      HashedFirst(hash, paths, x);
      if hash(paths[0]) == Some(x.hash) && x.path == paths[0] {
        assert x.path !in rest;
        assert x !in Hashed(hash, rest);
      }
    }
  }

  lemma TwiceGoesOn(hash: string -> Option<string>, paths: seq<string>)
    requires paths != [] && !OnceIn(hash, paths) && (NoRepeats(Hashed(hash, paths[1..])) ==> OnceIn(hash, paths[1..]))
    ensures !NoRepeats(Hashed(hash, paths))
  {
    var rest := paths[1..];
    var i, j :| 0 <= i < j < |paths| && paths[i] == paths[j] && hash(paths[i]).Some?;
    HashedPaths(hash, rest);
    if i == 0 {
      var x := FileHash(paths[0], hash(paths[0]).value);
      assert rest[j - 1] == paths[j];
      assert x in Hashed(hash, rest) && multiset(Hashed(hash, rest))[x] >= 1;
      HashedFirst(hash, paths, x);
    } else {
      assert rest[i - 1] == paths[i] && rest[j - 1] == paths[j];
      var x :| multiset(Hashed(hash, rest))[x] > 1;
      HashedFirst(hash, paths, x);
    }
  }

  /** Of records with the same path, the last one counts. */
  lemma {:induction false} LastRecordCounts(records: seq<FileHash>, i: nat)
    requires i < |records| && forall j :: i < j < |records| ==> records[j].path != records[i].path
    ensures records[i].path in ToMap(records) && ToMap(records)[records[i].path] == records[i].hash
  {
    var n := |records| - 1;
    if i < n {
      LastRecordCounts(records[..n], i);
    }
  }

  lemma {:induction false} ToMapKeys(records: seq<FileHash>)
    ensures forall p :: p in ToMap(records) ==> FileHash(p, ToMap(records)[p]) in records
    ensures forall r :: r in records ==> r.path in ToMap(records)
  {
    if records != [] {
      var n := |records| - 1;
      ToMapKeys(records[..n]);
      assert records == records[..n] + [records[n]];
    }
  }

  /** Records that have one hash for each path make a map that holds each of them, once. */
  lemma EntriesOfRecords(records: seq<FileHash>)
    requires forall r, s :: r in records && s in records && r.path == s.path ==> r == s
    ensures forall x :: Entries(ToMap(records))[x] == if x in records then 1 else 0
  {
    ToMapKeys(records);
    forall x ensures Entries(ToMap(records))[x] == if x in records then 1 else 0 {
      EntriesAt(ToMap(records), x);
      if x in records {
        assert FileHash(x.path, ToMap(records)[x.path]) in records;
      }
    }
  }

  /** The hash a tree shows at a path, None where there is no readable file. */
  function HashAt(t: Tree, path: string): Option<string> {
    if path in Paths(t.dirs) then t.hash(path) else None
  }

  ghost predicate SameHashes(t: Tree, t': Tree) {
    forall p :: HashAt(t, p) == HashAt(t', p)
  }

  /** What a tree shows is what its records say. */
  lemma HashAtRecords(t: Tree, x: FileHash)
    ensures x in Records(t) <==> HashAt(t, x.path) == Some(x.hash)
  {
    HashedPaths(t.hash, Paths(t.dirs));
  }

  lemma SameRecordsSameHashes(t: Tree, t': Tree)
    ensures (forall x :: x in Records(t) <==> x in Records(t')) <==> SameHashes(t, t')
  {
    forall x ensures (x in Records(t) <==> HashAt(t, x.path) == Some(x.hash)) && (x in Records(t') <==> HashAt(t', x.path) == Some(x.hash)) {
      HashAtRecords(t, x);
      HashAtRecords(t', x);
    }
    if forall x :: x in Records(t) <==> x in Records(t') {
      forall p ensures HashAt(t, p) == HashAt(t', p) {
        if HashAt(t, p).Some? { assert FileHash(p, HashAt(t, p).value) in Records(t'); }
        if HashAt(t', p).Some? { assert FileHash(p, HashAt(t', p).value) in Records(t); }
      }
    }
  }

  /** Each record of one tree once is the bag of records of another, if and only if every path has the same
      hash in both and the other has no file twice. */
  lemma SameBagExactly(t: Tree, t': Tree, once: multiset<FileHash>)
    requires forall x :: once[x] == if x in Records(t) then 1 else 0
    ensures multiset(Records(t')) == once <==> SameHashes(t, t') && WalkedOnce(t')
  {
    SameRecordsSameHashes(t, t');
    RepeatsExactly(t'.hash, Paths(t'.dirs));
    if multiset(Records(t')) == once {
      assert forall x :: x in Records(t') <==> once[x] > 0;
    }
    if SameHashes(t, t') && WalkedOnce(t') {
      forall x ensures multiset(Records(t'))[x] == once[x] {
        assert x in Records(t) <==> x in Records(t');
        assert x in Records(t') <==> multiset(Records(t'))[x] > 0;
      }
    }
  }

  /* ---------- Snapshot, store, check ---------- */

  /** How the comparator comes by the expected records: its lines are read, if there is a text. */
  function SetupOf(text: string): Result<seq<FileHash>, string> {
    match Parse(text)
    case Failure(_) => Failure("failed get hash data")
    case Success(records) => Success(records)
  }

  /** The name, the stored object, its lines. */
  function SetupFrom(name: Result<string, ObjectKey.NameError>, store: map<string, string>)
    : Result<seq<FileHash>, string>
  {
    match name
    case Failure(_) => Failure("failed getting check sum file name")
    case Success(k) => if k !in store then Failure("cannot read hash data") else SetupOf(store[k])
  }

  /** The text is what the snapshot tool wrote of the tree below a root, no scan having timed out. */
  ghost predicate SnapshotOf(t: Tree, root: string, text: string) {
    exists n: nat :: IsSnapshot(JobFor(t, root, n), root + "/", Listings(root, t.dirs), text)
  }

  /** The check of a tree that is the file system of a process. */
  function CheckOf(t: Tree, pid: nat, countWorkers: nat, setup: Result<seq<FileHash>, string>): Check {
    Check(JobFor(t, ProcRoot(pid), countWorkers), Walked(ProcRoot(pid), t.dirs), ProcRoot(pid) + "/", setup)
  }

  /** The snapshot tool on a tree: what it writes, unless a scan times out, is a snapshot of the tree. */
  method TakeSnapshot(t: Tree, root: string, countWorkers: nat, created: bool, room: nat)
    returns (file: Result<string, SnapshotError>, timedOut: bool)
    requires countWorkers >= 1
    ensures file.Success? && !timedOut ==> SnapshotOf(t, root, file.value)
    ensures file.Failure? ==> !created || file.error == WriteFailed
  {
    file, timedOut := CalculateAndWriteHashes(JobFor(t, root, countWorkers), root, Listings(root, t.dirs), created, room);
    if file.Success? && !timedOut {
      WrittenIsSnapshot(JobFor(t, root, countWorkers), root + "/", Listings(root, t.dirs), file.value);
    }
  }

  /** The snapshot of a tree holds its records, in some order. */
  lemma SnapshotHolds(t: Tree, root: string, text: string) returns (written: seq<FileHash>)
    requires GoodRoot(root) && SnapshotOf(t, root, text) && ValidDirs(t.dirs)
    ensures text == Print(written) && multiset(written) == multiset(Records(t))
  {
    var n: nat :| IsSnapshot(JobFor(t, root, n), root + "/", Listings(root, t.dirs), text);
    written :| Covers(JobFor(t, root, n), root + "/", Listings(root, t.dirs), written) && text == Print(written);
    SnapshotIsRecords(t, root, n, t.dirs, |t.dirs|);
    assert t.dirs[..|t.dirs|] == t.dirs;
  }

  ghost predicate AllSurvive(records: seq<FileHash>) {
    forall r :: r in records ==> Survives(r)
  }

  lemma SameBagSurvives(a: seq<FileHash>, b: seq<FileHash>)
    requires multiset(a) == multiset(b) && AllSurvive(b)
    ensures AllSurvive(a)
  {
    forall r | r in a ensures Survives(r) {
      assert r in multiset(a) && r in multiset(b);
    }
  }

  /** A snapshot of a tree whose records are fit for the format is read back as just these, each once. */
  lemma SnapshotReadsBack(t: Tree, root: string, text: string)
    requires GoodRoot(root) && SnapshotOf(t, root, text) && ValidDirs(t.dirs) && AllSurvive(Records(t))
    ensures SetupOf(text).Success?
    ensures forall x :: Entries(ToMap(SetupOf(text).value))[x] == if x in Records(t) then 1 else 0
  {
    var written := SnapshotHolds(t, root, text);
    SameBagSurvives(written, Records(t));
    ReadsBack(written);
    WrittenEntries(t, written);
  }

  lemma ReadsBack(written: seq<FileHash>)
    requires AllSurvive(written)
    ensures SetupOf(Print(written)) == Success(written)
  {
    RoundTrip(written);
  }

  lemma WrittenEntries(t: Tree, written: seq<FileHash>)
    requires multiset(written) == multiset(Records(t))
    ensures forall x :: Entries(ToMap(written))[x] == if x in Records(t) then 1 else 0
  {
    assert forall x :: x in written <==> x in multiset(Records(t));
    HashedPaths(t.hash, Paths(t.dirs));
    EntriesOfRecords(written);
  }

  /** If the snapshot is read back as the tree's records, these were fit for the format. */
  lemma ReadBackSurvives(t: Tree, text: string)
    requires Parse(text).Success? && Entries(ToMap(Parse(text).value)) == multiset(Records(t))
    ensures AllSurvive(Records(t))
  {
    var records := Parse(text).value;
    ParsedSurvives(text);
    ToMapKeys(records);
    forall r | r in Records(t) ensures Survives(r) {
      assert r in multiset(Records(t));
      EntriesAt(ToMap(records), r);
      assert FileHash(r.path, r.hash) in records;
    }
  }

  /** A check until its verdict, without interruption. */
  ghost predicate HasVerdict(c: Check, ls: seq<Label>) {
    c.job.countWorkers >= 1 && IsRun(c, Start(c), ls) && Interrupt !in ls && !After(c, Start(c), ls).main.Selecting?
  }

  predicate Passes(c: Check, ls: seq<Label>)
    requires IsRun(c, Start(c), ls)
  {
    var m := After(c, Start(c), ls);
    !m.main.Selecting? && m.main.verdict.Passed?
  }

  /** Take a snapshot of one tree and check another against it, under any schedule: the check passes
      if and only if every path has the same hash in both, and no file of the second is watched twice. */
  lemma SnapshotThenCheck(t: Tree, root: string, text: string, t': Tree, pid: nat, countWorkers: nat, ls: seq<Label>)
    requires GoodRoot(root) && SnapshotOf(t, root, text) && ValidDirs(t.dirs) && AllSurvive(Records(t))
    requires ValidDirs(t'.dirs)
    requires HasVerdict(CheckOf(t', pid, countWorkers, SetupOf(text)), ls)
    ensures Passes(CheckOf(t', pid, countWorkers, SetupOf(text)), ls) <==> SameHashes(t, t') && WalkedOnce(t')
  {
    VerdictIsExact(CheckOf(t', pid, countWorkers, SetupOf(text)), ls);
    SnapshotReadsBack(t, root, text);
    ObservedIsRecords(t', pid, countWorkers, SetupOf(text));
    SameBagExactly(t, t', Entries(ToMap(SetupOf(text).value)));
  }

  /** A check of the very tree that the snapshot was taken of passes, under any schedule, if and only if
      its records are fit for the format (no newline, double space or outer space in a path, no line too
      long) and no file is watched twice. */
  lemma UnchangedTreePasses(t: Tree, root: string, text: string, pid: nat, countWorkers: nat, ls: seq<Label>)
    requires GoodRoot(root) && SnapshotOf(t, root, text) && ValidDirs(t.dirs)
    requires HasVerdict(CheckOf(t, pid, countWorkers, SetupOf(text)), ls)
    ensures Passes(CheckOf(t, pid, countWorkers, SetupOf(text)), ls) <==> AllSurvive(Records(t)) && WalkedOnce(t)
  {
    var c := CheckOf(t, pid, countWorkers, SetupOf(text));
    VerdictIsExact(c, ls);
    ObservedIsRecords(t, pid, countWorkers, SetupOf(text));
    if AllSurvive(Records(t)) {
      SnapshotThenCheck(t, root, text, t, pid, countWorkers, ls);
    } else if Agrees(c) {
      ReadBackSurvives(t, text);
    }
  }

  /** A check whose snapshot cannot be loaded never passes, under any schedule: it says which of the three
      things went wrong (there is no name for the object, there is no object of that name, or one of its
      lines is empty or has no double space), and it says so only then. */
  lemma LoadingFailsExactly(name: Result<string, ObjectKey.NameError>, store: map<string, string>, t: Tree, pid: nat,
                            countWorkers: nat, ls: seq<Label>)
    requires HasVerdict(CheckOf(t, pid, countWorkers, SetupFrom(name, store)), ls)
    ensures var c := CheckOf(t, pid, countWorkers, SetupFrom(name, store)); var v := After(c, Start(c), ls).main.verdict;
      if name.Failure? then v == Rejected(SetupFailed("failed getting check sum file name"))
      else if name.value !in store then v == Rejected(SetupFailed("cannot read hash data"))
      else if HasBadLine(ScanLines(store[name.value])) then v == Rejected(SetupFailed("failed get hash data"))
      else v.Passed? || (v.Rejected? && !v.error.SetupFailed?)
  {
    VerdictIsExact(CheckOf(t, pid, countWorkers, SetupFrom(name, store)), ls);
    if name.Success? && name.value in store {
      NormalForm(store[name.value]);
    }
  }

  /** Namespace and image make a name that writer and reader agree on. */
  predicate AgreedName(namespace: string, image: string) {
    |Split(image, ":")| >= 2 && namespace != "" && ObjectKey.IsClean(ObjectKey.SnapshotPath(namespace, image))
  }

  /** The present edit of a Snapshot decodes to a text, and its status claims that it is uploaded. */
  ghost predicate Published(w: Controller.World, s: Controller.State, text: string) {
    && Controller.Reachable(w, s) && !ControllerTheorems.Unsafe(w, s.edits)
    && ControllerTheorems.ClaimsUpload(w, s)
    && w.decode(Controller.Current(s).value.spec.base64Hashes) == Some(text)
  }

  /** A monitor is configured for the image and algorithm of a Snapshot. */
  predicate ConfiguredFor(processImage: map<string, string>, procName: string, alg: string, spec: Controller.Spec) {
    procName in processImage && processImage[procName] == spec.image && SameUpToCase(alg, spec.algorithm)
  }

  /** The monitor finds what the controller stored. */
  lemma StoredIsFound(w: Controller.World, namespace: string, s: Controller.State, text: string,
                      processImage: map<string, string>, procName: string, alg: string)
    requires Controller.Named(w, namespace) && Published(w, s, text)
    requires ConfiguredFor(processImage, procName, alg, Controller.Current(s).value.spec)
    requires AgreedName(namespace, Controller.Current(s).value.spec.image)
    ensures SetupFrom(ObjectKey.CheckSumFile(processImage, namespace, procName, alg), s.store) == SetupOf(text)
  {
    var spec := Controller.Current(s).value.spec;
    CaseExactly(alg, spec.algorithm);
    ControllerInvariant.ReachableInv(w, s);
    ControllerTheorems.SafeIsCoherent(w, s);
    ObjectKey.NamesAgree(namespace, spec.image, spec.algorithm);
    assert ObjectKey.CheckSumFile(processImage, namespace, procName, alg)
        == ObjectKey.ReaderName(namespace, spec.image, spec.algorithm);
  }

  /** The whole story. The snapshot text of one tree is what the present edit of a Snapshot decodes to;
      in any reachable state in which its status claims an upload, after safe edits of image, algorithm
      and hashes, a monitor that is configured for the same image and algorithm finds that text and,
      under any schedule, passes another tree if and only if every path has the same hash in both and no
      file is watched twice. */
  lemma PublishedThenChecked(w: Controller.World, namespace: string, s: Controller.State, t: Tree, root: string,
                             text: string, processImage: map<string, string>, procName: string, alg: string,
                             t': Tree, pid: nat, countWorkers: nat, ls: seq<Label>)
    requires GoodRoot(root) && SnapshotOf(t, root, text) && ValidDirs(t.dirs) && AllSurvive(Records(t))
    requires ValidDirs(t'.dirs)
    requires Controller.Named(w, namespace) && Published(w, s, text)
    requires ConfiguredFor(processImage, procName, alg, Controller.Current(s).value.spec)
    requires AgreedName(namespace, Controller.Current(s).value.spec.image)
    requires var setup := SetupFrom(ObjectKey.CheckSumFile(processImage, namespace, procName, alg), s.store);
      HasVerdict(CheckOf(t', pid, countWorkers, setup), ls)
    ensures var setup := SetupFrom(ObjectKey.CheckSumFile(processImage, namespace, procName, alg), s.store);
      Passes(CheckOf(t', pid, countWorkers, setup), ls) <==> SameHashes(t, t') && WalkedOnce(t')
  {
    StoredIsFound(w, namespace, s, text, processImage, procName, alg);
    SnapshotThenCheck(t, root, text, t', pid, countWorkers, ls);
  }

  /* ---------- From hashes to contents ---------- */

  /** Files as they are read at some time: the pieces that come, and what the stack happens to hold. */
  datatype Disk = Disk(file: string -> Hasher.File, stack: string -> Bee2.Bytes)

  ghost predicate StacksFit(disk: Disk) {
    forall path :: |disk.stack(path)| == Bee2.BLOCKSIZE
  }

  /** A tree whose hashes are what HashFile returns. */
  function TreeOf(alg: Hasher.Algorithm, dirs: seq<Dir>, disk: Disk): Tree {
    Tree(dirs, (path: string) => Hasher.FileHashOf(alg, disk.file(path), disk.stack(path)))
  }

  function ContentAt(dirs: seq<Dir>, disk: Disk, path: string): Option<Bee2.Bytes> {
    if path in Paths(dirs) then Hasher.Content(disk.file(path)) else None
  }

  /** The digest tells all contents of two trees apart. */
  ghost predicate CollisionFree(alg: Hasher.Algorithm, dirs: seq<Dir>, disk: Disk, dirs': seq<Dir>, disk': Disk)
    requires Hasher.Lawful(alg)
  {
    forall p, q :: ContentAt(dirs, disk, p).Some? && ContentAt(dirs', disk', q).Some? ==>
      var a, b := ContentAt(dirs, disk, p).value, ContentAt(dirs', disk', q).value;
      Hasher.DigestOf(alg, a) == Hasher.DigestOf(alg, b) ==> a == b
  }

  lemma HashedContent(alg: Hasher.Algorithm, dirs: seq<Dir>, disk: Disk, path: string)
    requires Hasher.Lawful(alg) && StacksFit(disk)
    ensures HashAt(TreeOf(alg, dirs, disk), path)
         == match ContentAt(dirs, disk, path)
            case None => None
            case Some(content) => Some(Hasher.Hex(Hasher.DigestOf(alg, content)))
  {
    Hasher.HashIsOfContent(alg, disk.file(path), disk.stack(path));
  }

  /** Without collisions, the same hashes are the same files with the same contents, however they were
      read. */
  lemma SameHashesSameContents(alg: Hasher.Algorithm, dirs: seq<Dir>, disk: Disk, dirs': seq<Dir>, disk': Disk)
    requires Hasher.Lawful(alg) && StacksFit(disk) && StacksFit(disk') && CollisionFree(alg, dirs, disk, dirs', disk')
    ensures SameHashes(TreeOf(alg, dirs, disk), TreeOf(alg, dirs', disk'))
       <==> forall p :: ContentAt(dirs, disk, p) == ContentAt(dirs', disk', p)
  {
    var t, t' := TreeOf(alg, dirs, disk), TreeOf(alg, dirs', disk');
    forall p ensures HashAt(t, p) == HashAt(t', p) <==> ContentAt(dirs, disk, p) == ContentAt(dirs', disk', p) {
      HashedContent(alg, dirs, disk, p);
      HashedContent(alg, dirs', disk', p);
      var a, b := ContentAt(dirs, disk, p), ContentAt(dirs', disk', p);
      if a.Some? && b.Some? {
        Hasher.HexIsInjective(Hasher.DigestOf(alg, a.value), Hasher.DigestOf(alg, b.value));
      }
    }
    if SameHashes(t, t') {
      forall p ensures ContentAt(dirs, disk, p) == ContentAt(dirs', disk', p) {
        assert HashAt(t, p) == HashAt(t', p);
      }
    }
  }

  /** A digest in hexadecimal is always fit for the snapshot format. */
  lemma DigestIsClean(bytes: Bee2.Bytes)
    ensures Clean(Hasher.Hex(bytes))
  {
    var s := Hasher.Hex(bytes);
    Hasher.HexHasNoSpace(bytes);
    forall i ensures !OccursAt(s, SEPARATOR, i) {
      if 0 <= i <= |s| - 2 {
        assert s[i..i + 2][0] == s[i] && s[i] in s;
      }
    }
    assert s != "" ==> s[0] in s && s[|s| - 1] in s;
    assert IsSpace('\n');
  }

  /** A record of a hashed file survives if its path is clean and its line fits. */
  lemma HashedSurvive(alg: Hasher.Algorithm, dirs: seq<Dir>, disk: Disk)
    requires Hasher.Lawful(alg) && StacksFit(disk)
    requires forall r :: r in Records(TreeOf(alg, dirs, disk)) ==> Clean(r.path) && Fits(r)
    ensures AllSurvive(Records(TreeOf(alg, dirs, disk)))
  {
    var t := TreeOf(alg, dirs, disk);
    HashedPaths(t.hash, Paths(dirs));
    forall r | r in Records(t) ensures Survives(r) {
      HashedContent(alg, dirs, disk, r.path);
      DigestIsClean(Hasher.DigestOf(alg, ContentAt(dirs, disk, r.path).value));
    }
  }

  /** With the hash that the program computes, bee2's own loop over the file or Go's over its contents, and
      no collisions among the files of the two trees: a check against the snapshot passes, under any
      schedule and however the files were read either time, if and only if the trees have the same
      readable files with the same contents, and none of them is watched twice. */
  lemma EveryChangeIsDetected(alg: Hasher.Algorithm, dirs: seq<Dir>, disk: Disk, dirs': seq<Dir>, disk': Disk,
                              root: string, text: string, pid: nat, countWorkers: nat, ls: seq<Label>)
    requires Hasher.Lawful(alg) && StacksFit(disk) && StacksFit(disk') && CollisionFree(alg, dirs, disk, dirs', disk')
    requires GoodRoot(root) && SnapshotOf(TreeOf(alg, dirs, disk), root, text) && ValidDirs(dirs) && ValidDirs(dirs')
    requires forall r :: r in Records(TreeOf(alg, dirs, disk)) ==> Clean(r.path) && Fits(r)
    requires HasVerdict(CheckOf(TreeOf(alg, dirs', disk'), pid, countWorkers, SetupOf(text)), ls)
    ensures Passes(CheckOf(TreeOf(alg, dirs', disk'), pid, countWorkers, SetupOf(text)), ls)
       <==> (forall p :: ContentAt(dirs, disk, p) == ContentAt(dirs', disk', p)) && WalkedOnce(TreeOf(alg, dirs', disk'))
  {
    HashedSurvive(alg, dirs, disk);
    SnapshotThenCheck(TreeOf(alg, dirs, disk), root, text, TreeOf(alg, dirs', disk'), pid, countWorkers, ls);
    SameHashesSameContents(alg, dirs, disk, dirs', disk');
  }
}
