/** The `--monitoring-options` flag: which paths to watch in which process. */
module MonitoringOptions {
  import opened GoStrings
  import opened Wrappers

  datatype OptionsError = OptionsEmpty | NotKeyValue | PathRequired

  datatype Entry = Entry(name: string, paths: seq<string>)

  predicate IsComma(c: char) {
    c == ','
  }

  function TrimAll(paths: seq<string>): seq<string> {
    seq(|paths|, i requires 0 <= i < |paths| => TrimSpace(paths[i]))
  }

  function ParsePaths(value: string): seq<string> {
    TrimAll(Split(TrimFunc(value, IsComma), ","))
  }

  function ParseToken(token: string): Result<Entry, OptionsError> {
    var procPaths := Split(token, "=");
    if |procPaths| < 2 then Failure(NotKeyValue)
    else if procPaths[1] == "" then Failure(PathRequired)
    else Success(Entry(procPaths[0], ParsePaths(procPaths[1])))
  }

  function ParseTokens(tokens: seq<string>, done: map<string, seq<string>>)
    : Result<map<string, seq<string>>, OptionsError>
  {
    if tokens == [] then Success(done)
    else
      match ParseToken(tokens[0])
      case Failure(e) => Failure(e)
      case Success(entry) => ParseTokens(tokens[1..], done[entry.name := entry.paths])
  }

  function ParseText(text: string): Result<map<string, seq<string>>, OptionsError> {
    ParseTokens(Split(text, " "), map[])
  }

  /** The loop that rewrites the list of paths in place. */
  method TrimEach(parts: seq<string>) returns (paths: seq<string>)
    ensures paths == TrimAll(parts)
  {
    paths := parts;
    for i := 0 to |paths|
      invariant |paths| == |parts|
      invariant forall j :: 0 <= j < i ==> paths[j] == TrimSpace(parts[j])
      invariant forall j :: i <= j < |parts| ==> paths[j] == parts[j]
    {
      paths := paths[i := TrimSpace(paths[i])];
    }
  }

  lemma ParseNext(tokens: seq<string>, n: nat, done: map<string, seq<string>>)
    requires n < |tokens|
    ensures ParseTokens(tokens[n..], done)
         == match ParseToken(tokens[n])
            case Failure(e) => Failure(e)
            case Success(entry) => ParseTokens(tokens[n + 1..], done[entry.name := entry.paths])
  {
    assert tokens[n..][1..] == tokens[n + 1..];
  }

  /** `unquoted` is what strconv.Unquote makes of `opts`, None where it reports an error. */
  method ParseMonitoringOpts(opts: string, unquoted: Option<string>)
    returns (r: Result<map<string, seq<string>>, OptionsError>)
    ensures opts == "" ==> r == Failure(OptionsEmpty)
    ensures opts != "" ==> r == ParseText(if unquoted.Some? then unquoted.value else opts)
  {
    if opts == "" { return Failure(OptionsEmpty); }
    var unOpts := if unquoted.Some? then unquoted.value else opts;
    var processes := Split(unOpts, " ");
    var optsMap: map<string, seq<string>> := map[];
    var n := 0;
    assert processes[0..] == processes;
    while n < |processes|
      invariant 0 <= n <= |processes|
      invariant ParseText(unOpts) == ParseTokens(processes[n..], optsMap)
    {
      ParseNext(processes, n, optsMap);
      var procPaths := Split(processes[n], "=");
      if |procPaths| < 2 { return Failure(NotKeyValue); }
      if procPaths[1] == "" { return Failure(PathRequired); }
      var paths := TrimEach(Split(TrimFunc(procPaths[1], IsComma), ","));
      optsMap := optsMap[procPaths[0] := paths];
      n := n + 1;
    }
    return Success(optsMap);
  }

  /* ---------- When parsing succeeds, and what it returns ---------- */

  /** `=` occurs, and its first occurrence is followed by a character other than `=`. */
  ghost predicate GoodToken(token: string) {
    exists i :: 0 <= i < |token| - 1 && token[i] == '=' && '=' !in token[..i] && token[i + 1] != '='
  }

  lemma FirstPartEmpty(s: string, c: char)
    ensures Split(s, [c])[0] == "" <==> s == "" || s[0] == c
  {
    CharContains(s, c);
    if c in s {
      var i := IndexOfChar(s, c);
    }
  }

  lemma TokenSucceeds(token: string)
    ensures ParseToken(token).Success? <==> GoodToken(token)
  {
    CharContains(token, '=');
    assert "=" == ['='];
    if '=' in token {
      var i := IndexOfChar(token, '=');
      FirstPartEmpty(token[i + 1..], '=');
      assert Split(token, "=") == [token[..i]] + Split(token[i + 1..], "=");
      forall j | 0 <= j < |token| && token[j] == '=' && '=' !in token[..j] ensures j == i {
        SameFirst(token, '=', i, j);
      }
    }
  }

  lemma SameFirst(s: string, c: char, i: nat, j: nat)
    requires i < |s| && j < |s| && s[i] == c && s[j] == c && c !in s[..i] && c !in s[..j]
    ensures i == j
  {
    assert forall k :: 0 <= k < i ==> s[k] == s[..i][k];
    assert forall k :: 0 <= k < j ==> s[k] == s[..j][k];
  }

  /** Which error a bad token is. */
  lemma TokenErrors(token: string)
    ensures ParseToken(token) == Failure(NotKeyValue) <==> '=' !in token
    ensures ParseToken(token) == Failure(PathRequired) <==> '=' in token && !GoodToken(token)
  {
    CharContains(token, '=');
    assert "=" == ['='];
    TokenSucceeds(token);
    if '=' in token {
      var i := IndexOfChar(token, '=');
    }
  }

  /* ---------- What a value is split into ---------- */

  predicate Commas(s: string) {
    forall c :: c in s ==> c == ','
  }

  /** Name, value, and what comes from a second `=` on, which is ignored. */
  function Token(name: string, value: string, tail: string): string {
    name + "=" + value + tail
  }

  lemma TokenParts(name: string, value: string, tail: string)
    requires '=' !in name && '=' !in value && (tail == "" || tail[0] == '=')
    ensures var parts := Split(Token(name, value, tail), "="); |parts| >= 2 && parts[0] == name && parts[1] == value
  {
    assert "=" == ['='];
    assert Token(name, value, tail) == name + ['='] + (value + tail);
    SplitAtChar(name, '=', value + tail);
    if tail == "" {
      assert value + tail == value;
      SplitNone(value, '=');
    } else {
      assert value + tail == value + ['='] + tail[1..];
      SplitAtChar(value, '=', tail[1..]);
    }
  }

  /** Paths between commas. */
  ghost predicate Listed(paths: seq<string>) {
    && paths != [] && paths[0] != "" && paths[|paths| - 1] != ""
    && forall p :: p in paths ==> ',' !in p && '=' !in p
  }

  /** Commas around a list of paths make no difference; each path is trimmed, none is lost or moved. */
  lemma ParsesTo(name: string, a: string, paths: seq<string>, b: string, tail: string) returns (trimmed: seq<string>)
    requires '=' !in name && Commas(a) && Commas(b) && Listed(paths) && (tail == "" || tail[0] == '=')
    ensures ParseToken(Token(name, a + Join(paths, ",") + b, tail)) == Success(Entry(name, trimmed))
    ensures |trimmed| == |paths| && forall i :: 0 <= i < |paths| ==> trimmed[i] == TrimSpace(paths[i])
  {
    var list := Join(paths, ",");
    assert "," == [','];
    trimmed := TrimAll(paths);
    JoinChars(paths, ',', '=');
    JoinEnds(paths, ",");
    assert paths[0] in paths && paths[|paths| - 1] in paths && paths[0][0] in paths[0];
    assert '=' !in a && '=' !in b;
    TrimSides(a, list, b, IsComma);
    SplitJoin(paths, ',');
    TokenParts(name, a + list + b, tail);
    assert a + list + b != "";
  }

  /** A value of nothing but commas is one empty path. */
  lemma CommasAlone(name: string, a: string, tail: string)
    requires '=' !in name && Commas(a) && a != "" && (tail == "" || tail[0] == '=')
    ensures ParseToken(Token(name, a, tail)) == Success(Entry(name, [""]))
  {
    assert '=' !in a;
    TokenParts(name, a, tail);
    assert a + "" + "" == a;
    TrimSides(a, "", "", IsComma);
    assert "," == [','];
    SplitNone("", ',');
    assert TrimAll([""]) == [TrimSpace("")] == [""];
  }

  lemma {:induction false} LastPartEmpty(s: string, c: char)
    requires s != "" && s[|s| - 1] != c
    ensures var parts := Split(s, [c]); parts[|parts| - 1] != ""
    decreases |s|
  {
    CharContains(s, c);
    if c in s {
      var i := IndexOfChar(s, c);
      var rest := s[i + 1..];
      assert rest != "" && rest[|rest| - 1] == s[|s| - 1];
      LastPartEmpty(rest, c);
      assert Split(s, [c]) == [s[..i]] + Split(rest, [c]);
    }
  }

  /** Every other value is a list of paths with commas around it. */
  lemma EveryValue(value: string) returns (a: string, paths: seq<string>, b: string)
    requires '=' !in value && !Commas(value)
    ensures Commas(a) && Commas(b) && Listed(paths) && value == a + Join(paths, ",") + b
  {
    var list;
    a, list, b := BetweenCommas(value);
    paths := Split(list, ",");
    ListIsListed(list);
  }

  lemma BetweenCommas(value: string) returns (a: string, list: string, b: string)
    requires '=' !in value && !Commas(value)
    ensures Commas(a) && Commas(b) && value == a + list + b && '=' !in list
    ensures list != "" && list[0] != ',' && list[|list| - 1] != ','
  {
    var i, j := TrimSlice(value, IsComma);
    a, list, b := value[..i], value[i..j], value[j..];
    assert forall k :: 0 <= k < i ==> value[k] == ',';
    assert forall k :: j <= k < |value| ==> value[k] == ',';
    var k :| 0 <= k < |value| && value[k] != ',';
    assert i <= k < j;
  }

  lemma ListIsListed(list: string)
    requires list != "" && list[0] != ',' && list[|list| - 1] != ',' && '=' !in list
    ensures Listed(Split(list, ",")) && Join(Split(list, ","), ",") == list
  {
    var paths := Split(list, ",");
    assert "," == [','];
    JoinSplit(list, ',');
    FirstPartEmpty(list, ',');
    LastPartEmpty(list, ',');
    NoEquals(list, paths);
  }

  lemma {:induction false} NoEquals(list: string, paths: seq<string>)
    requires '=' !in list && list == Join(paths, ",")
    ensures forall p :: p in paths ==> '=' !in p
    decreases |paths|
  {
    if |paths| > 1 {
      var rest := Join(paths[1..], ",");
      assert list == paths[0] + "," + rest;
      assert forall k :: 0 <= k < |paths[0]| ==> list[k] == paths[0][k];
      assert forall k :: 0 <= k < |rest| ==> list[|paths[0]| + 1 + k] == rest[k];
      NoEquals(rest, paths[1..]);
      assert paths == [paths[0]] + paths[1..];
    }
  }

  ghost predicate AllGood(tokens: seq<string>) {
    forall i :: 0 <= i < |tokens| ==> GoodToken(tokens[i])
  }

  lemma {:induction false} TokensSucceed(tokens: seq<string>, done: map<string, seq<string>>)
    ensures ParseTokens(tokens, done).Success? <==> AllGood(tokens)
    decreases |tokens|
  {
    if tokens != [] {
      TokenSucceeds(tokens[0]);
      if ParseToken(tokens[0]).Success? {
        var entry := ParseToken(tokens[0]).value;
        TokensSucceed(tokens[1..], done[entry.name := entry.paths]);
        assert forall i :: 1 <= i < |tokens| ==> tokens[i] == tokens[1..][i - 1];
        assert forall i :: 0 <= i < |tokens| - 1 ==> tokens[1..][i] == tokens[i + 1];
      }
    }
  }

  /** The first bad token makes the error. */
  lemma {:induction false} FirstErrorCounts(tokens: seq<string>, done: map<string, seq<string>>, k: nat)
    requires k < |tokens| && !GoodToken(tokens[k]) && forall i :: 0 <= i < k ==> GoodToken(tokens[i])
    ensures ParseToken(tokens[k]).Failure? && ParseTokens(tokens, done) == Failure(ParseToken(tokens[k]).error)
    decreases |tokens|
  {
    TokenSucceeds(tokens[k]);
    TokenSucceeds(tokens[0]);
    if k > 0 {
      var entry := ParseToken(tokens[0]).value;
      assert forall i :: 0 <= i < |tokens| - 1 ==> tokens[1..][i] == tokens[i + 1];
      FirstErrorCounts(tokens[1..], done[entry.name := entry.paths], k - 1);
    }
  }

  ghost function NameOf(token: string): string
    requires GoodToken(token)
  {
    TokenSucceeds(token);
    ParseToken(token).value.name
  }

  ghost function PathsOf(token: string): seq<string>
    requires GoodToken(token)
  {
    TokenSucceeds(token);
    ParseToken(token).value.paths
  }

  /** The last token with a name, or -1. */
  ghost function LastWith(tokens: seq<string>, name: string): (r: int)
    requires AllGood(tokens)
    ensures -1 <= r < |tokens|
    ensures r != -1 ==> NameOf(tokens[r]) == name
    ensures forall j :: r < j < |tokens| ==> NameOf(tokens[j]) != name
  {
    if tokens == [] then -1
    else
      assert forall i :: 0 <= i < |tokens[1..]| ==> tokens[1..][i] == tokens[i + 1];
      var r := LastWith(tokens[1..], name);
      if r != -1 then r + 1
      else if NameOf(tokens[0]) == name then
        assert forall j :: 0 < j < |tokens| ==> tokens[j] == tokens[1..][j - 1];
        0
      else
        assert forall j :: 0 < j < |tokens| ==> tokens[j] == tokens[1..][j - 1];
        -1
  }

  /** What a list of good tokens says on top of a map: the last token with a name decides. */
  ghost predicate Describes(tokens: seq<string>, done: map<string, seq<string>>, m: map<string, seq<string>>)
    requires AllGood(tokens)
  {
    forall name {:trigger LastWith(tokens, name)} :: var i := LastWith(tokens, name);
      && (name in m <==> i != -1 || name in done)
      && (i != -1 ==> m[name] == PathsOf(tokens[i]))
      && (i == -1 && name in done ==> m[name] == done[name])
  }

  lemma {:induction false} TokensDescribe(tokens: seq<string>, done: map<string, seq<string>>)
    requires AllGood(tokens)
    ensures ParseTokens(tokens, done).Success?
    ensures Describes(tokens, done, ParseTokens(tokens, done).value)
    decreases |tokens|
  {
    TokensSucceed(tokens, done);
    if tokens != [] {
      var t, rest := tokens[0], tokens[1..];
      TokenSucceeds(t);
      assert AllGood(rest) by { assert forall i :: 0 <= i < |rest| ==> rest[i] == tokens[i + 1]; }
      TokensDescribe(rest, done[NameOf(t) := PathsOf(t)]);
      var m := ParseTokens(tokens, done).value;
      forall name ensures var i := LastWith(tokens, name);
          && (name in m <==> i != -1 || name in done)
          && (i != -1 ==> m[name] == PathsOf(tokens[i]))
          && (i == -1 && name in done ==> m[name] == done[name])
      {
        var r := LastWith(rest, name);
      }
    }
  }

  /** Parsing succeeds exactly when every space-separated token is name, `=` and a nonempty
      second component; then the last token with a name decides. */
  lemma ParsingIsTotal(text: string)
    ensures ParseText(text).Success? <==> AllGood(Split(text, " "))
    ensures ParseText(text).Success? ==> Describes(Split(text, " "), map[], ParseText(text).value)
  {
    TokensSucceed(Split(text, " "), map[]);
    if AllGood(Split(text, " ")) {
      TokensDescribe(Split(text, " "), map[]);
    }
  }

  /* ---------- Round trip ---------- */

  function PrintEntry(name: string, paths: seq<string>): string {
    name + "=" + Join(paths, ",")
  }

  function PrintEntries(m: map<string, seq<string>>, names: seq<string>): seq<string>
    requires forall n :: n in names ==> n in m
  {
    if names == [] then [] else [PrintEntry(names[0], m[names[0]])] + PrintEntries(m, names[1..])
  }

  function Print(m: map<string, seq<string>>, names: seq<string>): string
    requires forall n :: n in names ==> n in m
  {
    Join(PrintEntries(m, names), " ")
  }

  ghost predicate PrintablePath(p: string) {
    ' ' !in p && '=' !in p && ',' !in p && Trimmed(p, IsSpace)
  }

  ghost predicate Printable(name: string, paths: seq<string>) {
    && ' ' !in name && '=' !in name
    && paths != [] && paths[0] != "" && paths[|paths| - 1] != ""
    && forall p :: p in paths ==> PrintablePath(p)
  }

  lemma {:induction false} JoinChars(parts: seq<string>, sep: char, c: char)
    requires c != sep && forall p :: p in parts ==> c !in p
    ensures c !in Join(parts, [sep])
  {
    if |parts| > 1 {
      JoinChars(parts[1..], sep, c);
    }
  }

  lemma {:induction false} JoinEnds(parts: seq<string>, sep: string)
    requires parts != [] && parts[0] != "" && parts[|parts| - 1] != ""
    ensures var s := Join(parts, sep);
            && s != "" && s[0] == parts[0][0]
            && s[|s| - 1] == parts[|parts| - 1][|parts[|parts| - 1]| - 1]
    decreases |parts|
  {
    if |parts| > 1 {
      JoinLast(parts[1..], sep);
    }
  }

  lemma {:induction false} JoinLast(parts: seq<string>, sep: string)
    requires parts != [] && parts[|parts| - 1] != ""
    ensures var s := Join(parts, sep);
            s != "" && s[|s| - 1] == parts[|parts| - 1][|parts[|parts| - 1]| - 1]
  {
    if |parts| > 1 {
      JoinLast(parts[1..], sep);
    }
  }

  lemma EntryReadsBack(name: string, paths: seq<string>)
    requires Printable(name, paths)
    ensures ParseToken(PrintEntry(name, paths)) == Success(Entry(name, paths))
    ensures ' ' !in PrintEntry(name, paths)
  {
    var value := Join(paths, ",");
    assert "," == [','] && "=" == ['='];
    JoinChars(paths, ',', '=');
    JoinChars(paths, ',', ' ');
    SplitAtChar(name, '=', value);
    SplitNone(value, '=');
    JoinEnds(paths, ",");
    assert paths[0] in paths && paths[|paths| - 1] in paths;
    assert paths[0][0] in paths[0];
    TrimIdentity(value, IsComma);
    SplitJoin(paths, ',');
    forall i | 0 <= i < |paths| ensures TrimAll(paths)[i] == paths[i] {
      assert paths[i] in paths;
      TrimIdentity(paths[i], IsSpace);
    }
    assert TrimAll(paths) == paths;
  }

  lemma {:induction false} EntriesReadBack(m: map<string, seq<string>>, names: seq<string>)
    requires forall n :: n in names ==> n in m && Printable(n, m[n])
    ensures var tokens := PrintEntries(m, names);
            && |tokens| == |names|
            && forall i :: 0 <= i < |names| ==>
                 ParseToken(tokens[i]) == Success(Entry(names[i], m[names[i]])) && ' ' !in tokens[i]
  {
    if names != [] {
      EntryReadsBack(names[0], m[names[0]]);
      EntriesReadBack(m, names[1..]);
    }
  }

  lemma PrintedTokens(m: map<string, seq<string>>, names: seq<string>)
    requires names != [] && forall n :: n in names ==> n in m && Printable(n, m[n])
    ensures var tokens := PrintEntries(m, names);
            && Split(Print(m, names), " ") == tokens && |tokens| == |names| && AllGood(tokens)
            && forall i :: 0 <= i < |names| ==> NameOf(tokens[i]) == names[i] && PathsOf(tokens[i]) == m[names[i]]
  {
    var tokens := PrintEntries(m, names);
    EntriesReadBack(m, names);
    assert " " == [' '];
    SplitJoin(tokens, ' ');
    forall i | 0 <= i < |tokens| ensures GoodToken(tokens[i]) {
      TokenSucceeds(tokens[i]);
    }
  }

  lemma DescribedMap(m: map<string, seq<string>>, names: seq<string>, tokens: seq<string>, m': map<string, seq<string>>)
    requires |tokens| == |names| && AllGood(tokens) && Describes(tokens, map[], m')
    requires forall n :: n in names <==> n in m
    requires forall i :: 0 <= i < |names| ==> NameOf(tokens[i]) == names[i] && PathsOf(tokens[i]) == m[names[i]]
    ensures m' == m
  {
    forall n ensures (n in m' <==> n in m) && (n in m ==> m'[n] == m[n]) {
      DescribedAt(m, names, tokens, m', n);
    }
  }

  lemma DescribedAt(m: map<string, seq<string>>, names: seq<string>, tokens: seq<string>,
                    m': map<string, seq<string>>, n: string)
    requires |tokens| == |names| && AllGood(tokens) && Describes(tokens, map[], m')
    requires n in names <==> n in m
    requires forall i :: 0 <= i < |names| ==> NameOf(tokens[i]) == names[i]
    requires forall i :: 0 <= i < |names| && names[i] == n && n in m ==> PathsOf(tokens[i]) == m[n]
    ensures (n in m' <==> n in m) && (n in m ==> m'[n] == m[n])
  {
    var i := LastWith(tokens, n);
    if n in m {
      var j :| 0 <= j < |names| && names[j] == n;
      assert NameOf(tokens[j]) == n;
    }
    if i != -1 {
      assert names[i] == n;
    }
  }

  /** Printing a map in any order of its names and parsing the result gives the map back. */
  lemma RoundTrip(m: map<string, seq<string>>, names: seq<string>)
    requires names != []
    requires forall n :: n in names <==> n in m
    requires forall n :: n in m ==> Printable(n, m[n])
    ensures ParseText(Print(m, names)) == Success(m)
  {
    var tokens := PrintEntries(m, names);
    PrintedTokens(m, names);
    TokensDescribe(tokens, map[]);
    DescribedMap(m, names, tokens, ParseTokens(tokens, map[]).value);
  }

  /** An entry with commas before and after its paths. */
  lemma DressedReadsBack(name: string, a: string, paths: seq<string>, b: string)
    requires Printable(name, paths) && Commas(a) && Commas(b)
    ensures ParseToken(name + "=" + a + Join(paths, ",") + b) == Success(Entry(name, paths))
    ensures ' ' !in name + "=" + a + Join(paths, ",") + b
  {
    var list := Join(paths, ",");
    assert "," == [','];
    var trimmed := ParsesTo(name, a, paths, b, "");
    assert Token(name, a + list + b, "") == name + "=" + a + list + b;
    forall i | 0 <= i < |paths| ensures trimmed[i] == paths[i] {
      assert paths[i] in paths;
      TrimIdentity(paths[i], IsSpace);
    }
    assert trimmed == paths;
    JoinChars(paths, ',', ' ');
  }

  /** Entries with commas before and after their paths, each as many as you like. */
  function Dressed(m: map<string, seq<string>>, names: seq<string>, a: seq<string>, b: seq<string>): seq<string>
    requires |a| == |b| == |names| && forall n :: n in names ==> n in m
  {
    seq(|names|, i requires 0 <= i < |names| => names[i] + "=" + a[i] + Join(m[names[i]], ",") + b[i])
  }

  /** The commas make no difference for the whole text either. */
  lemma DressedRoundTrip(m: map<string, seq<string>>, names: seq<string>, a: seq<string>, b: seq<string>)
    requires names != [] && |a| == |b| == |names|
    requires forall n :: n in names <==> n in m
    requires forall n :: n in m ==> Printable(n, m[n])
    requires forall i :: 0 <= i < |names| ==> Commas(a[i]) && Commas(b[i])
    ensures ParseText(Join(Dressed(m, names, a, b), " ")) == Success(m)
  {
    var tokens := Dressed(m, names, a, b);
    forall i | 0 <= i < |names|
      ensures ParseToken(tokens[i]) == Success(Entry(names[i], m[names[i]])) && ' ' !in tokens[i] && GoodToken(tokens[i])
    {
      assert names[i] in names;
      DressedReadsBack(names[i], a[i], m[names[i]], b[i]);
      TokenSucceeds(tokens[i]);
    }
    assert " " == [' '];
    SplitJoin(tokens, ' ');
    TokensDescribe(tokens, map[]);
    DescribedMap(m, names, tokens, ParseTokens(tokens, map[]).value);
  }
}
