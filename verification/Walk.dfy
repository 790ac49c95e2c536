/** The paths that walking a directory reports, and what is left of them when the root is taken off:
    the snapshot tool below an image's file system, the monitor below /proc. */
module Walk {
  import opened GoStrings
  import opened ObjectKey

  /** The name of a directory entry. */
  predicate IsName(s: string) {
    s != "" && s != "." && s != ".." && '/' !in s
  }

  predicate AreNames(names: seq<string>) {
    forall i :: 0 <= i < |names| ==> IsName(names[i])
  }

  /** What filepath.WalkDir calls back with, for what is found under these names below a root: the root as
      it was given, or its children's paths, joined one by one and cleaned each time. */
  function Reported(root: string, names: seq<string>): string {
    if names == [] then root
    else FilepathJoin([Reported(root, names[..|names| - 1]), names[|names| - 1]])
  }

  predicate IsRooted(root: string) {
    root == "" || root[0] == '/'
  }

  /** The segments that cleaning leaves of a root, with a slash and more to follow. */
  function Base(root: string): seq<string> {
    Resolve(IsRooted(root), [], Split(root, "/"))
  }

  /** The segments that cleaning leaves of a directory below a root. */
  function Below(dir: string): seq<string> {
    Resolve(false, [], Split(dir, "/"))
  }

  /** The directory does not lead out of the root. */
  predicate Inside(dir: string) {
    ".." !in Below(dir)
  }

  /** What is to be recorded for the entry under these names below a directory. */
  function Relative(dir: string, names: seq<string>): string {
    if names == [] then dir else Join(Below(dir) + names, "/")
  }

  /** Joined segments, from the root or not. */
  function PathOf(rooted: bool, segments: seq<string>): string {
    (if rooted then "/" else "") + Join(segments, "/")
  }

  /* ---------- Cleaning ---------- */

  lemma {:induction false} ResolveConcat(rooted: bool, kept: seq<string>, a: seq<string>, b: seq<string>)
    ensures Resolve(rooted, kept, a + b) == Resolve(rooted, Resolve(rooted, kept, a), b)
    decreases |a|
  {
    if a == [] {
      assert a + b == b;
    } else {
      assert (a + b)[1..] == a[1..] + b;
      assert Resolve(rooted, kept, a + b) == Resolve(rooted, Resolve(rooted, kept, [a[0]]), a[1..] + b) by {
        assert [a[0]][1..] == [];
      }
      assert Resolve(rooted, kept, a) == Resolve(rooted, Resolve(rooted, kept, [a[0]]), a[1..]);
      ResolveConcat(rooted, Resolve(rooted, kept, [a[0]]), a[1..], b);
    }
  }

  /** Once a relative path leads up, it does so for good. */
  lemma {:induction false} UpStaysUp(kept: seq<string>, segments: seq<string>)
    requires kept != [] && kept[0] == ".."
    ensures ".." in Resolve(false, kept, segments)
    decreases |segments|
  {
    if segments != [] {
      var seg := segments[0];
      if seg == "" || seg == "." {
        UpStaysUp(kept, segments[1..]);
      } else if seg == ".." && kept[|kept| - 1] != ".." {
        UpStaysUp(kept[..|kept| - 1], segments[1..]);
      } else {
        UpStaysUp(kept + [seg], segments[1..]);
      }
    }
  }

  /** Segments that do not lead out are resolved on top of a base as they are on their own. */
  lemma {:induction false} ResolveOnTop(rooted: bool, base: seq<string>, top: seq<string>, segments: seq<string>)
    requires ".." !in top && ".." !in Resolve(false, top, segments)
    ensures Resolve(rooted, base + top, segments) == base + Resolve(false, top, segments)
    decreases |segments|
  {
    if segments != [] {
      var seg, rest := segments[0], segments[1..];
      if seg == "" || seg == "." {
        ResolveOnTop(rooted, base, top, rest);
      } else if seg != ".." {
        assert base + top + [seg] == base + (top + [seg]);
        ResolveOnTop(rooted, base, top + [seg], rest);
      } else if top != [] {
        assert top[|top| - 1] in top;
        assert (base + top)[..|base + top| - 1] == base + top[..|top| - 1];
        ResolveOnTop(rooted, base, top[..|top| - 1], rest);
      } else {
        assert top + [seg] == [".."];
        UpStaysUp([".."], rest);
      }
    }
  }

  /** A path of resolved segments has just these segments. */
  lemma KeptOfPath(rooted: bool, segments: seq<string>)
    requires Resolved(rooted, segments) && SlashFree(segments) && segments != []
    ensures var p := PathOf(rooted, segments); p != "" && (p[0] == '/' <==> rooted) && Kept(p) == segments
  {
    assert "/" == ['/'];
    var body := Join(segments, "/");
    assert segments[0] in segments && segments[0] != "";
    JoinStart(segments);
    SplitJoin(segments, '/');
    assert [] + segments == segments;
    ResolvedStays(rooted, [], segments);
    var p := PathOf(rooted, segments);
    if rooted {
      assert p[1..] == body;
      SplitRooted(p);
      assert ([""] + segments)[1..] == segments;
    } else {
      assert p == body;
    }
  }

  lemma CleanIsPath(path: string)
    requires path != "" && Kept(path) != []
    ensures Clean(path) == PathOf(path[0] == '/', Kept(path))
  {
    KeptIsResolved(path);
    assert Kept(path)[0] in Kept(path);
    JoinStart(Kept(path));
  }

  lemma ResolvedNext(rooted: bool, segments: seq<string>, name: string)
    requires Resolved(rooted, segments) && SlashFree(segments) && IsName(name)
    ensures Resolved(rooted, segments + [name]) && SlashFree(segments + [name])
    ensures Resolve(rooted, segments, [name]) == segments + [name]
  {
    assert [name][1..] == [];
  }

  /** One step down from a path. */
  lemma StepDown(path: string, name: string)
    requires path != "" && IsName(name)
    ensures FilepathJoin([path, name]) == PathOf(path[0] == '/', Kept(path) + [name])
  {
    assert "/" == ['/'];
    var rooted, joined := path[0] == '/', path + "/" + name;
    assert [path, name][1..] == [name] && [name][1..] == [];
    assert Join([path, name], "/") == joined;
    SplitConcat(path, '/', name);
    SplitNone(name, '/');
    ResolveConcat(rooted, [], Split(path, "/"), [name]);
    KeptIsResolved(path);
    ResolvedNext(rooted, Kept(path), name);
    assert Kept(joined) == Kept(path) + [name];
    CleanIsPath(joined);
  }

  /** The paths of what is below a root: its own segments, cleaned, and the names. */
  lemma {:induction false} ReportedIs(root: string, names: seq<string>)
    requires root != "" && AreNames(names) && names != []
    ensures Reported(root, names) == PathOf(root[0] == '/', Kept(root) + names)
    ensures Resolved(root[0] == '/', Kept(root) + names) && SlashFree(Kept(root) + names)
    decreases |names|
  {
    var init, name := names[..|names| - 1], names[|names| - 1];
    assert names == init + [name];
    var rooted, before := root[0] == '/', Kept(root) + init;
    assert before + [name] == Kept(root) + names;
    if init == [] {
      KeptIsResolved(root);
      assert before == Kept(root);
      StepDown(root, name);
    } else {
      ReportedIs(root, init);
      KeptOfPath(rooted, before);
      StepDown(Reported(root, init), name);
    }
    ResolvedNext(rooted, before, name);
  }

  /* ---------- Taking the root off again ---------- */

  /** A root that is taken off cleanly: the present directory, however it is written, or a clean path
      other than "/" itself. */
  predicate GoodRoot(root: string) {
    Clean(root) == "." || (Clean(root) == root && root != "/")
  }

  lemma KeptBelow(root: string, dir: string)
    requires Inside(dir)
    ensures (root + "/" + dir)[0] == '/' <==> IsRooted(root)
    ensures Kept(root + "/" + dir) == Base(root) + Below(dir)
  {
    assert "/" == ['/'];
    SplitConcat(root, '/', dir);
    ResolveConcat(IsRooted(root), [], Split(root, "/"), Split(dir, "/"));
    assert Base(root) + [] == Base(root);
    ResolveOnTop(IsRooted(root), Base(root), [], Split(dir, "/"));
  }

  lemma BaseIsResolved(root: string)
    ensures Resolved(IsRooted(root), Base(root)) && SlashFree(Base(root))
    ensures root != "" ==> Base(root) == Kept(root)
  {
    assert "/" == ['/'];
    JoinSplit(root, '/');
    ResolveResolves(IsRooted(root), [], Split(root, "/"));
  }

  lemma ReportedPath(root: string, dir: string, names: seq<string>)
    requires Inside(dir) && AreNames(names) && names != []
    ensures Reported(root + "/" + dir, names) == PathOf(IsRooted(root), Base(root) + (Below(dir) + names))
  {
    KeptBelow(root, dir);
    ReportedIs(root + "/" + dir, names);
    assert Base(root) + Below(dir) + names == Base(root) + (Below(dir) + names);
  }

  /** The path that is reported, as what is left of the root and what is relative to it. */
  lemma ReportedBelow(root: string, dir: string, names: seq<string>)
    requires Inside(dir) && AreNames(names) && names != []
    ensures var j := Relative(dir, names);
      Reported(root + "/" + dir, names)
      == if Base(root) == [] then (if IsRooted(root) then "/" else "") + j
         else PathOf(IsRooted(root), Base(root)) + "/" + j
  {
    ReportedPath(root, dir, names);
    PathOnTop(IsRooted(root), Base(root), Below(dir) + names);
  }

  lemma PathOnTop(rooted: bool, base: seq<string>, down: seq<string>)
    requires down != []
    ensures PathOf(rooted, base + down)
         == if base == [] then (if rooted then "/" else "") + Join(down, "/")
            else PathOf(rooted, base) + "/" + Join(down, "/")
  {
    if base == [] {
      assert base + down == down;
    } else {
      JoinConcat(base, down, "/");
    }
  }

  lemma BelowIsResolved(dir: string, names: seq<string>)
    requires Inside(dir) && AreNames(names)
    ensures Resolved(false, Below(dir) + names) && SlashFree(Below(dir) + names)
    ensures ".." !in Below(dir) + names
  {
    assert "/" == ['/'];
    JoinSplit(dir, '/');
    ResolveResolves(false, [], Split(dir, "/"));
    forall i | 0 <= i < |Below(dir) + names|
      ensures (Below(dir) + names)[i] != "" && (Below(dir) + names)[i] != "." && (Below(dir) + names)[i] != ".."
    {
      if i < |Below(dir)| {
        assert Below(dir)[i] in Below(dir);
      } else {
        assert IsName(names[i - |Below(dir)|]);
      }
    }
  }

  /** Of a root that comes to nothing, no clean path has a prefix. */
  lemma EmptyRootIsNoPrefix(root: string, segments: seq<string>)
    requires root != "" && root[0] != '/' && Base(root) == []
    requires Resolved(false, segments) && SlashFree(segments) && segments != []
    ensures !(root + "/" <= Join(segments, "/"))
  {
    assert "/" == ['/'];
    var j := Join(segments, "/");
    if root + "/" <= j {
      var rest := j[|root| + 1..];
      assert j == root + "/" + rest;
      SplitConcat(root, '/', rest);
      SplitJoin(segments, '/');
      var front := Split(root, "/");
      assert segments[..|front|] == front;
      assert Resolved(false, front);
      assert [] + front == front;
      ResolvedStays(false, [], front);
    }
  }

  lemma CleanRoot(root: string)
    ensures Base(root) == [] && !IsRooted(root) ==> Clean(root) == "."
    ensures Base(root) == [] && IsRooted(root) && root != "" ==> Clean(root) == "/"
    ensures Base(root) != [] ==> root != "" && Clean(root) == PathOf(IsRooted(root), Base(root)) && Clean(root) != "." && root != "/"
  {
    BaseIsResolved(root);
    if root != "" && Base(root) != [] {
      CleanIsPath(root);
      KeptOfPath(IsRooted(root), Base(root));
      assert "/" == ['/'];
      SplitNone(".", '/');
      assert ["."][1..] == [] && Kept(".") == [];
      RootIsEmpty();
    } else if root == "" {
      assert Split("", "/") == [""] && [""][1..] == [];
    } else {
      assert Join([], "/") == "";
    }
  }

  lemma RootIsEmpty()
    ensures Base("/") == []
  {
    assert "/" == ['/'];
    assert "" + ['/'] + "" == "/";
    SplitAtChar("", '/', "");
    SplitNone("", '/');
    assert [""] + [""] == ["", ""] && ["", ""][1..] == [""] && [""][1..] == [];
  }

  /** Taking the root off what was reported leaves the path relative to it, if and only if the root is a
      good one; whatever the directory, with or without a leading slash, as long as it stays inside. */
  lemma StrippedExactly(root: string, dir: string, names: seq<string>)
    requires Inside(dir) && AreNames(names) && names != []
    ensures TrimPrefix(Reported(root + "/" + dir, names), root + "/") == Relative(dir, names) <==> GoodRoot(root)
  {
    var j, p := Relative(dir, names), Reported(root + "/" + dir, names);
    ReportedBelow(root, dir, names);
    CleanRoot(root);
    if Base(root) != [] {
      StrippedNonEmpty(root, p, j);
    } else if root == "" {
      assert p == "/" + j && root + "/" == "/";
      assert p[..1] == "/" && p[1..] == j;
    } else if IsRooted(root) {
      assert |p| == |j| + 1;
    } else {
      BelowIsResolved(dir, names);
      EmptyRootIsNoPrefix(root, Below(dir) + names);
      assert p == j;
    }
  }

  lemma StrippedNonEmpty(root: string, p: string, j: string)
    requires p == Clean(root) + "/" + j
    ensures TrimPrefix(p, root + "/") == j <==> Clean(root) == root
  {
    var prefix := root + "/";
    assert p[..|Clean(root)|] == Clean(root);
    if Clean(root) == root {
      assert p == prefix + j && p[|prefix|..] == j;
    } else if prefix <= p {
      assert p[..|root|] == root;
    }
  }

  /** A root directory that is itself a file is recorded as it was given. */
  lemma StrippedItself(root: string, dir: string)
    ensures TrimPrefix(Reported(root + "/" + dir, []), root + "/") == Relative(dir, [])
  {
    assert root + "/" + dir == (root + "/") + dir;
  }

  /* ---------- Up and down ---------- */

  lemma KeptThen(path: string, b: string)
    requires path != ""
    ensures Kept(path + "/" + b) == Resolve(path[0] == '/', Kept(path), Split(b, "/"))
  {
    assert "/" == ['/'];
    SplitConcat(path, '/', b);
    ResolveConcat(path[0] == '/', [], Split(path, "/"), Split(b, "/"));
  }

  lemma KeptThenOne(path: string, b: string)
    requires path != "" && '/' !in b
    ensures Kept(path + "/" + b) == Resolve(path[0] == '/', Kept(path), [b])
  {
    assert "/" == ['/'];
    KeptThen(path, b);
    SplitNone(b, '/');
  }

  lemma SameKept(p: string, q: string)
    requires p != "" && q != "" && p[0] == q[0] && Kept(p) == Kept(q)
    ensures Clean(p) == Clean(q)
  {
  }

  lemma ResolveStays(rooted: bool, kept: seq<string>)
    ensures Resolve(rooted, kept, ["."]) == kept && Resolve(rooted, kept, [""]) == kept
  {
    assert ["."][1..] == [] && [""][1..] == [];
  }

  lemma ResolveUp(rooted: bool, kept: seq<string>, name: string)
    requires IsName(name)
    ensures Resolve(rooted, kept + [name], [".."]) == kept
  {
    assert [".."][1..] == [] && (kept + [name])[..|kept|] == kept;
  }

  /** Staying is nowhere, however often the slash is written. */
  lemma Staying(path: string)
    requires path != ""
    ensures Clean(path + "/.") == Clean(path) == Clean(path + "/")
  {
    KeptThenOne(path, ".");
    KeptThenOne(path, "");
    ResolveStays(path[0] == '/', Kept(path));
    assert path + "/" + "." == path + "/." && path + "/" + "" == path + "/";
    SameKept(path + "/.", path);
    SameKept(path + "/", path);
  }

  /** Down and up again is nowhere, too. */
  lemma DownAndUp(path: string, name: string)
    requires path != "" && IsName(name)
    ensures Clean(path + "/" + name + "/..") == Clean(path)
  {
    var down := path + "/" + name;
    KeptThenOne(path, name);
    KeptIsResolved(path);
    ResolvedNext(path[0] == '/', Kept(path), name);
    KeptThenOne(down, "..");
    ResolveUp(path[0] == '/', Kept(path), name);
    assert down + "/" + ".." == path + "/" + name + "/..";
    SameKept(path + "/" + name + "/..", path);
  }

  /** From the top there is no way up, and from the present directory every step up counts. */
  lemma UpFromTheTop()
    ensures Clean("/..") == "/" && Clean("..") == ".." && Clean("../..") == "../.."
  {
    UpFromRoot();
    UpFromHere();
  }

  lemma UpFromRoot()
    ensures Clean("/..") == "/"
  {
    RootIsEmpty();
    assert "/" == ['/'];
    assert "" + ['/'] + ".." == "/..";
    SplitAtChar("", '/', "..");
    SplitNone("..", '/');
    assert [""] + [".."] == ["", ".."] && ["", ".."][1..] == [".."] && [".."][1..] == [];
    assert Kept("/..") == [];
  }

  lemma UpFromHere()
    ensures Clean("..") == ".." && Clean("../..") == "../.."
  {
    UpOnce();
    UpAgain("..");
    assert ".." + "/.." == "../..";
  }

  lemma UpAgain(path: string)
    requires path != "" && path[0] != '/' && Kept(path) == [".."]
    ensures Clean(path + "/..") == "../.."
  {
    KeptThenOne(path, "..");
    assert path + "/" + ".." == path + "/..";
    ResolveTwoUp();
    assert ["..", ".."][1..] == [".."] && Join(["..", ".."], "/") == ".." + "/" + "..";
  }

  lemma ResolveTwoUp()
    ensures Resolve(false, [".."], [".."]) == ["..", ".."]
  {
    assert [".."][1..] == [] && [".."] + [".."] == ["..", ".."];
  }

  lemma UpOnce()
    ensures Kept("..") == [".."] && Clean("..") == ".."
  {
    assert "/" == ['/'];
    SplitNone("..", '/');
    assert [".."][1..] == [] && [] + [".."] == [".."];
  }

  /* ---------- The monitor's root ---------- */

  function Decimal(n: nat): string {
    (if n < 10 then "" else Decimal(n / 10)) + ['0' + (n % 10) as char]
  }

  lemma {:induction false} DecimalIsName(n: nat)
    ensures Decimal(n) != "" && forall c :: c in Decimal(n) ==> '0' <= c <= '9'
  {
    if n >= 10 {
      DecimalIsName(n / 10);
    }
  }

  /** Reading digits. */
  function Number(digits: string): int {
    if digits == "" then 0 else 10 * Number(digits[..|digits| - 1]) + (digits[|digits| - 1] as int - 48)
  }

  /** Decimal digits read as the number, and none of them is a leading zero. */
  lemma {:induction false} DecimalReadsBack(n: nat)
    ensures Number(Decimal(n)) == n
    ensures Decimal(n) != "" && (Decimal(n)[0] == '0' <==> n == 0)
  {
    var d := Decimal(n);
    if n >= 10 {
      DecimalReadsBack(n / 10);
      assert d[..|d| - 1] == Decimal(n / 10);
    } else {
      assert d[..|d| - 1] == "" && Number("") == 0;
    }
    assert d[|d| - 1] as int == 48 + n % 10;
  }

  /** Where the file system of a process is. */
  function ProcRoot(pid: nat): string {
    "/proc/" + Decimal(pid) + "/root"
  }

  /** Each process has a root of its own. */
  lemma ProcRootIsOwn(pid: nat, pid': nat)
    ensures ProcRoot(pid) == ProcRoot(pid') <==> pid == pid'
    ensures ProcRoot(pid) == "/proc/" + Decimal(pid) + "/root"
  {
    DecimalReadsBack(pid);
    DecimalReadsBack(pid');
    var a, b := Decimal(pid), Decimal(pid');
    if ProcRoot(pid) == ProcRoot(pid') {
      var p, q := "/proc/" + a, "/proc/" + b;
      SuffixEqual(p, q, "/root");
      assert p[6..] == a && q[6..] == b;
    }
  }

  lemma ProcRootIsGood(pid: nat)
    ensures GoodRoot(ProcRoot(pid))
  {
    assert "/" == ['/'];
    var n, root := Decimal(pid), ProcRoot(pid);
    DecimalIsName(pid);
    assert n[0] in n && IsName(n);
    ThreeSegments(n);
    KeptOfPath(true, ["proc", n, "root"]);
    CleanIsPath(root);
  }

  lemma ThreeSegments(n: string)
    requires IsName(n)
    ensures PathOf(true, ["proc", n, "root"]) == "/proc/" + n + "/root"
    ensures Resolved(true, ["proc", n, "root"]) && SlashFree(["proc", n, "root"])
  {
    var segments := ["proc", n, "root"];
    assert segments[1..] == [n, "root"] && segments[1..][1..] == ["root"];
    assert Join([n, "root"], "/") == n + "/" + "root";
    assert "proc"[0] == 'p' && "root"[0] == 'r' && segments[0] == "proc" && segments[1] == n && segments[2] == "root";
    assert '/' !in "proc" && '/' !in "root";
    assert "/" + ("proc" + "/" + (n + "/" + "root")) == "/proc/" + n + "/root";
  }
}
