/** The name a snapshot is stored under, as the controller builds it for writing and as the
    monitor builds it for reading: two implementations that have to agree. */
module ObjectKey {
  import opened GoStrings
  import opened Wrappers

  /* ---------- filepath.Clean and filepath.Join on Unix ---------- */

  /** One pass over the segments of a path, keeping a stack of the resolved ones. */
  function Resolve(rooted: bool, kept: seq<string>, segments: seq<string>): seq<string>
    decreases |segments|
  {
    if segments == [] then kept
    else
      var seg := segments[0];
      var next :=
        if seg == "" || seg == "." then kept
        else if seg != ".." then kept + [seg]
        else if kept != [] && kept[|kept| - 1] != ".." then kept[..|kept| - 1]
        else if rooted then kept
        else kept + [seg];
      Resolve(rooted, next, segments[1..])
  }

  function Clean(path: string): string {
    if path == "" then "."
    else
      var rooted := path[0] == '/';
      var kept := Resolve(rooted, [], Split(path, "/"));
      var out := (if rooted then "/" else "") + Join(kept, "/");
      if out == "" then "." else out
  }

  function FilepathJoin(elems: seq<string>): string {
    if elems == [] then ""
    else if elems[0] != "" then Clean(Join(elems, "/"))
    else FilepathJoin(elems[1..])
  }

  /* ---------- The two names ---------- */

  /** The writer's name. An image without a colon makes it index out of range, which is a
      run-time panic: None. */
  function BuildObjectName(namespace: string, image: string, alg: string): Option<string> {
    var imageInfo := Split(image, ":");
    if |imageInfo| < 2 then None
    else Some(FilepathJoin([namespace, imageInfo[0], imageInfo[1]]) + "." + ToLower(alg))
  }

  datatype NameError = IncorrectImageName

  /** The reader's name, from its configuration. A process that is not configured has the empty
      string for an image. */
  function CheckSumFile(processImage: map<string, string>, podNamespace: string, procName: string, alg: string)
    : Result<string, NameError>
  {
    var image := if procName in processImage then processImage[procName] else "";
    var parts := Split(image, ":");
    if |parts| < 2 then Failure(IncorrectImageName)
    else Success(podNamespace + "/" + parts[0] + "/" + parts[1] + "." + ToLower(alg))
  }

  /** The reader's name as a function of the image alone. */
  function ReaderName(namespace: string, image: string, alg: string): Result<string, NameError> {
    CheckSumFile(map["p" := image], namespace, "p", alg)
  }

  /* ---------- Paths that cleaning leaves alone ---------- */

  /** Resolved segments: none empty or ".", and ".." only as a leading run of a relative path. */
  predicate Resolved(rooted: bool, segments: seq<string>) {
    forall i :: 0 <= i < |segments| ==>
      && segments[i] != "" && segments[i] != "."
      && (segments[i] == ".." ==> !rooted && forall j :: 0 <= j < i ==> segments[j] == "..")
  }

  /** A path in its shortest form, judged by looking at its segments. */
  predicate IsClean(path: string) {
    if path == "" then false
    else if path[0] == '/' then path == "/" || Resolved(true, Split(path[1..], "/"))
    else path == "." || Resolved(false, Split(path, "/"))
  }

  ghost predicate SlashFree(segments: seq<string>) {
    forall s :: s in segments ==> '/' !in s
  }

  lemma {:induction false} ResolveResolves(rooted: bool, kept: seq<string>, segments: seq<string>)
    requires Resolved(rooted, kept) && SlashFree(kept) && SlashFree(segments)
    ensures Resolved(rooted, Resolve(rooted, kept, segments))
    ensures SlashFree(Resolve(rooted, kept, segments))
    decreases |segments|
  {
    if segments != [] {
      var seg := segments[0];
      assert seg in segments;
      assert SlashFree(segments[1..]) by { assert forall s :: s in segments[1..] ==> s in segments; }
      if seg == "" || seg == "." {
        ResolveResolves(rooted, kept, segments[1..]);
      } else if seg != ".." {
        ResolveResolves(rooted, kept + [seg], segments[1..]);
      } else if kept != [] && kept[|kept| - 1] != ".." {
        assert forall s :: s in kept[..|kept| - 1] ==> s in kept;
        ResolveResolves(rooted, kept[..|kept| - 1], segments[1..]);
      } else if rooted {
        ResolveResolves(rooted, kept, segments[1..]);
      } else {
        ResolveResolves(rooted, kept + [seg], segments[1..]);
      }
    }
  }

  lemma {:induction false} ResolvedStays(rooted: bool, kept: seq<string>, segments: seq<string>)
    requires Resolved(rooted, kept + segments)
    ensures Resolve(rooted, kept, segments) == kept + segments
    decreases |segments|
  {
    if segments != [] {
      var all := kept + segments;
      assert all[|kept|] == segments[0];
      assert kept != [] ==> all[|kept| - 1] == kept[|kept| - 1];
      assert all == (kept + [segments[0]]) + segments[1..];
      ResolvedStays(rooted, kept + [segments[0]], segments[1..]);
    } else {
      assert kept + segments == kept;
    }
  }

  lemma {:induction false} JoinConcat(xs: seq<string>, ys: seq<string>, sep: string)
    requires xs != [] && ys != []
    ensures Join(xs + ys, sep) == Join(xs, sep) + sep + Join(ys, sep)
  {
    assert (xs + ys)[1..] == xs[1..] + ys;
    if |xs| > 1 {
      JoinConcat(xs[1..], ys, sep);
    } else {
      assert xs[1..] + ys == ys;
    }
  }

  lemma SplitConcat(a: string, c: char, b: string)
    ensures Split(a + [c] + b, [c]) == Split(a, [c]) + Split(b, [c])
  {
    var parts := Split(a, [c]) + Split(b, [c]);
    JoinSplit(a, c);
    JoinSplit(b, c);
    JoinConcat(Split(a, [c]), Split(b, [c]), [c]);
    SplitJoin(parts, c);
  }

  lemma SplitRooted(path: string)
    requires path != "" && path[0] == '/'
    ensures Split(path, "/") == [""] + Split(path[1..], "/")
  {
    assert "/" == ['/'];
    assert path == "" + ['/'] + path[1..];
    SplitAtChar("", '/', path[1..]);
  }

  /** The stack that cleaning a path ends with. */
  function Kept(path: string): seq<string>
    requires path != ""
  {
    Resolve(path[0] == '/', [], Split(path, "/"))
  }

  lemma KeptIsResolved(path: string)
    requires path != ""
    ensures Resolved(path[0] == '/', Kept(path)) && SlashFree(Kept(path))
  {
    assert "/" == ['/'];
    JoinSplit(path, '/');
    ResolveResolves(path[0] == '/', [], Split(path, "/"));
  }

  lemma ResolvedPathKept(path: string)
    requires path != "" && IsClean(path) && path != "/" && path != "."
    ensures Clean(path) == path
  {
    assert "/" == ['/'];
    if path[0] == '/' {
      SplitRooted(path);
      var segs := Split(path[1..], "/");
      assert ([""] + segs)[1..] == segs && [] + segs == segs;
      ResolvedStays(true, [], segs);
      JoinSplit(path[1..], '/');
      assert path == "/" + path[1..];
    } else {
      var segs := Split(path, "/");
      assert [] + segs == segs;
      ResolvedStays(false, [], segs);
      JoinSplit(path, '/');
      assert "" + path == path;
    }
  }

  /** A nonempty run of resolved, slash-free segments, joined, has those segments. */
  lemma JoinedIsClean(rooted: bool, kept: seq<string>)
    requires Resolved(rooted, kept) && SlashFree(kept) && kept != []
    ensures IsClean((if rooted then "/" else "") + Join(kept, "/"))
  {
    assert "/" == ['/'];
    SplitJoin(kept, '/');
    var body := Join(kept, "/");
    assert kept[0] != "" && kept[0][0] == body[0] && kept[0][0] in kept[0];
    assert kept[0] in kept;
    var path := (if rooted then "/" else "") + body;
    if rooted {
      assert path[1..] == body;
    } else {
      assert path == body;
    }
  }

  /** Cleaning always ends in a clean path, and leaves alone exactly the clean ones. */
  lemma CleanFixes(path: string)
    ensures IsClean(Clean(path))
    ensures Clean(path) == path <==> IsClean(path)
  {
    if path != "" {
      KeptIsResolved(path);
      if Kept(path) != [] {
        JoinedIsClean(path[0] == '/', Kept(path));
      }
      if IsClean(path) {
        if path == "/" {
          SplitRooted(path);
          assert Split("", "/") == [""];
          assert Resolve(true, [], ["", ""]) == Resolve(true, [], ["", ""][1..]) == Resolve(true, [], [""]);
        } else if path == "." {
          CharContains(".", '/');
          assert Split(".", "/") == ["."];
        } else {
          ResolvedPathKept(path);
        }
      }
    }
  }

  /** The path the two names are about: namespace, image name, tag. */
  function SnapshotPath(namespace: string, image: string): string
    requires |Split(image, ":")| >= 2
  {
    namespace + "/" + Split(image, ":")[0] + "/" + Split(image, ":")[1]
  }

  lemma SplitSnapshotPath(ns: string, name: string, tag: string)
    ensures Split(ns + "/" + name + "/" + tag, "/") == Split(ns, "/") + Split(name, "/") + Split(tag, "/")
  {
    assert "/" == ['/'];
    SplitConcat(ns + "/" + name, '/', tag);
    SplitConcat(ns, '/', name);
  }

  lemma JoinSnapshotPath(ns: string, name: string, tag: string)
    ensures ns + "/" + name + "/" + tag == Join([ns, name, tag], "/")
  {
    JoinConcat([ns, name], [tag], "/");
    JoinConcat([ns], [name], "/");
    assert [ns] + [name] == [ns, name] && [ns, name] + [tag] == [ns, name, tag];
  }

  /** A clean path never starts with two slashes. */
  lemma NoDoubleSlash(path: string)
    requires |path| >= 2 && path[0] == '/' && path[1] == '/'
    ensures !IsClean(path)
  {
    SplitRooted(path[1..]);
    assert Split(path[1..], "/")[0] == "";
  }

  lemma CleanKeepsRelative(path: string)
    requires path != "" && path[0] != '/'
    ensures Clean(path)[0] != '/'
  {
    KeptIsResolved(path);
    assert "" + Join(Kept(path), "/") == Join(Kept(path), "/");
    if Kept(path) != [] {
      assert Kept(path)[0] in Kept(path);
      JoinStart(Kept(path));
    }
  }

  /** With an empty namespace the writer drops a slash that the reader keeps. */
  lemma NoNamespaceDiffers(name: string, tag: string)
    ensures FilepathJoin(["", name, tag]) != "/" + name + "/" + tag
  {
    assert ["", name, tag][1..] == [name, tag] && [name, tag][1..] == [tag] && [tag][1..] == [];
    assert FilepathJoin(["", name, tag]) == FilepathJoin([name, tag]);
    var s := "/" + name + "/" + tag;
    if name == "" {
      assert FilepathJoin([name, tag]) == FilepathJoin([tag]) == if tag == "" then "" else Clean(tag);
      NoDoubleSlash(s);
      CleanFixes(tag);
    } else {
      var rest := Join([name, tag], "/");
      JoinConcat([name], [tag], "/");
      assert [name] + [tag] == [name, tag];
      assert rest == name + "/" + tag;
      CleanFixes(rest);
      if name[0] == '/' {
        NoDoubleSlash(s);
      } else {
        CleanKeepsRelative(rest);
      }
    }
  }

  lemma JoinStart(kept: seq<string>)
    requires kept != [] && kept[0] != "" && '/' !in kept[0]
    ensures Join(kept, "/") != "" && Join(kept, "/")[0] != '/'
  {
    assert kept[0][0] in kept[0];
  }

  /** The writer's and the reader's names are the same if and only if the namespace is not empty
      and namespace/name/tag is already a clean path; and one panics exactly when the other
      reports an error. */
  lemma NamesAgree(namespace: string, image: string, alg: string)
    ensures BuildObjectName(namespace, image, alg).None? <==> ReaderName(namespace, image, alg).Failure?
    ensures BuildObjectName(namespace, image, alg).None? <==> ':' !in image
    ensures ':' in image ==>
      && |Split(image, ":")| >= 2
      && (BuildObjectName(namespace, image, alg).value == ReaderName(namespace, image, alg).value
          <==> namespace != "" && IsClean(SnapshotPath(namespace, image)))
  {
    CharContains(image, ':');
    assert ":" == [':'];
    if ':' in image {
      var name, tag := Split(image, ":")[0], Split(image, ":")[1];
      var s := SnapshotPath(namespace, image);
      SplitSnapshotPath(namespace, name, tag);
      JoinSnapshotPath(namespace, name, tag);
      var j := FilepathJoin([namespace, name, tag]);
      SuffixEqual(j, s, "." + ToLower(alg));
      assert j + ("." + ToLower(alg)) == j + "." + ToLower(alg);
      assert s + ("." + ToLower(alg)) == s + "." + ToLower(alg);
      if namespace == "" {
        assert s == "/" + name + "/" + tag;
        NoNamespaceDiffers(name, tag);
      } else {
        CleanFixes(s);
      }
    }
  }

  lemma SuffixEqual(a: string, b: string, suffix: string)
    ensures a + suffix == b + suffix <==> a == b
  {
    if a + suffix == b + suffix {
      assert |a + suffix| == |b + suffix|;
      assert (a + suffix)[..|a|] == a && (b + suffix)[..|b|] == b;
    }
  }

  /* ---------- Different snapshots, different names ---------- */

  lemma LastIsUnique(a: string, c: char, b: string, a': string, b': string)
    requires c !in b && c !in b'
    ensures a + [c] + b == a' + [c] + b' <==> a == a' && b == b'
  {
    var s, s' := a + [c] + b, a' + [c] + b';
    if s == s' {
      assert s[|a|] == c && s'[|a'|] == c;
      assert forall i :: |a| < i < |s| ==> s[i] == b[i - |a| - 1];
      assert forall i :: |a'| < i < |s'| ==> s'[i] == b'[i - |a'| - 1];
      assert |a| == |a'|;
      assert s[..|a|] == a && s'[..|a'|] == a' && s[|a| + 1..] == b && s'[|a'| + 1..] == b';
    }
  }

  lemma FirstIsUnique(a: string, c: char, b: string, a': string, b': string)
    requires c !in a && c !in a'
    ensures a + [c] + b == a' + [c] + b' <==> a == a' && b == b'
  {
    var s, s' := a + [c] + b, a' + [c] + b';
    if s == s' {
      assert s[|a|] == c && s'[|a'|] == c;
      assert forall i :: 0 <= i < |a| ==> s[i] == a[i];
      assert forall i :: 0 <= i < |a'| ==> s'[i] == a'[i];
      assert |a| == |a'|;
      assert s[..|a|] == a && s'[..|a'|] == a' && s[|a| + 1..] == b && s'[|a'| + 1..] == b';
    }
  }

  /** An image reference with one colon and a tag without a slash. */
  predicate SimpleImage(image: string) {
    |Split(image, ":")| == 2 && '/' !in Split(image, ":")[1]
  }

  lemma SimpleImageParts(image: string)
    requires SimpleImage(image)
    ensures image == Split(image, ":")[0] + ":" + Split(image, ":")[1]
    ensures ':' !in Split(image, ":")[0]
  {
    assert ":" == [':'];
    JoinSplit(image, ':');
    var parts := Split(image, ":");
    assert parts[1..] == [parts[1]];
  }

  lemma LowerKeepsDots(s: string)
    ensures '.' in ToLower(s) <==> '.' in s
  {
    if '.' in s {
      var i :| 0 <= i < |s| && s[i] == '.';
      assert ToLower(s)[i] == '.';
    }
  }

  /** Two snapshots share a name exactly when they agree on namespace, image and algorithm, the last
      up to case, for slash-free namespaces, simple images and dot-free algorithms. */
  lemma NameIsInjective(ns: string, image: string, alg: string, ns': string, image': string, alg': string)
    requires '/' !in ns && '/' !in ns' && SimpleImage(image) && SimpleImage(image') && '.' !in alg && '.' !in alg'
    ensures ReaderName(ns, image, alg) == ReaderName(ns', image', alg')
       <==> ns == ns' && image == image' && SameUpToCase(alg, alg')
  {
    CaseExactly(alg, alg');
    SimpleImageParts(image);
    SimpleImageParts(image');
    var name, tag := Split(image, ":")[0], Split(image, ":")[1];
    var name', tag' := Split(image', ":")[0], Split(image', ":")[1];
    LowerKeepsDots(alg);
    LowerKeepsDots(alg');
    LastIsUnique(ns + "/" + name + "/" + tag, '.', ToLower(alg), ns' + "/" + name' + "/" + tag', ToLower(alg'));
    LastIsUnique(ns + "/" + name, '/', tag, ns' + "/" + name', tag');
    FirstIsUnique(ns, '/', name, ns', name');
  }

  /** What the names are made of: namespace, image name, tag, and the algorithm in lower case. */
  lemma NameIs(ns: string, name: string, tag: string, more: string, alg: string, lower: string)
    requires ':' !in name && ':' !in tag && (more == "" || more[0] == ':')
    requires SameUpToCase(alg, lower) && forall c :: c in lower ==> !('A' <= c <= 'Z')
    ensures ReaderName(ns, name + ":" + tag + more, alg) == Success(ns + "/" + name + "/" + tag + "." + lower)
    ensures BuildObjectName(ns, name + ":" + tag + more, alg)
         == Some(FilepathJoin([ns, name, tag]) + "." + lower)
  {
    ImageParts(name, tag, more);
    LoweredAlready(alg, lower);
  }

  lemma ImageParts(name: string, tag: string, more: string)
    requires ':' !in name && ':' !in tag && (more == "" || more[0] == ':')
    ensures var parts := Split(name + ":" + tag + more, ":"); |parts| >= 2 && parts[0] == name && parts[1] == tag
  {
    assert ":" == [':'];
    assert name + ":" + tag + more == name + [':'] + (tag + more);
    SplitAtChar(name, ':', tag + more);
    if more == "" {
      SplitNone(tag, ':');
      assert tag + more == tag;
    } else {
      assert tag + more == tag + [':'] + more[1..];
      SplitAtChar(tag, ':', more[1..]);
    }
  }

  lemma LoweredAlready(alg: string, lower: string)
    requires SameUpToCase(alg, lower) && forall c :: c in lower ==> !('A' <= c <= 'Z')
    ensures ToLower(alg) == lower
  {
    forall i | 0 <= i < |alg| ensures ToLower(alg)[i] == lower[i] {
      assert SameLetter(alg[i], lower[i]) && lower[i] in lower;
    }
  }

  /** Joining a namespace, a name and a tag that make a clean path is putting slashes between them; an
      empty namespace is left out. */
  lemma JoinedName(ns: string, name: string, tag: string)
    ensures ns != "" && IsClean(ns + "/" + name + "/" + tag) ==>
      FilepathJoin([ns, name, tag]) == ns + "/" + name + "/" + tag
    ensures name != "" && IsClean(name + "/" + tag) ==> FilepathJoin(["", name, tag]) == name + "/" + tag
  {
    JoinSnapshotPath(ns, name, tag);
    CleanFixes(ns + "/" + name + "/" + tag);
    CleanFixes(name + "/" + tag);
    JoinConcat([name], [tag], "/");
    assert [name] + [tag] == [name, tag] && ["", name, tag][1..] == [name, tag];
  }

  /** The reader looks up the process; without an image for it, the name is an error. */
  lemma ImageIsLookedUp(processImage: map<string, string>, ns: string, procName: string, alg: string)
    ensures procName !in processImage ==> CheckSumFile(processImage, ns, procName, alg) == Failure(IncorrectImageName)
    ensures procName in processImage ==>
      CheckSumFile(processImage, ns, procName, alg) == ReaderName(ns, processImage[procName], alg)
  {
    CharContains("", ':');
    assert ":" == [':'];
  }

  /** A registry with a port has a second colon, and then the tag plays no part in either name:
      all tags of one image share one stored object. */
  lemma RegistryPortLosesTag(ns: string, host: string, repository: string, tag: string, tag': string, alg: string)
    requires ':' !in host && ':' !in repository
    ensures var image, image' := host + ":" + repository + ":" + tag, host + ":" + repository + ":" + tag';
            && BuildObjectName(ns, image, alg).Some?
            && BuildObjectName(ns, image, alg) == BuildObjectName(ns, image', alg)
            && ReaderName(ns, image, alg) == ReaderName(ns, image', alg)
  {
    forall t ensures Split(host + ":" + repository + ":" + t, ":") == [host, repository] + Split(t, ":") {
      assert ":" == [':'];
      assert host + ":" + repository + ":" + t == host + ":" + (repository + ":" + t);
      SplitAtChar(host, ':', repository + ":" + t);
      SplitAtChar(repository, ':', t);
    }
  }
}
