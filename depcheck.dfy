/** The dependency preflight of `ldagent/depcheck.py`: dependencies are read
    off a plugin file's text by three fixed regular expressions (the
    `_module_info = {...}` block, its `"dependencies": [...]` list, the
    double-quoted strings inside), reduced to package names, checked against
    what can be imported, and rendered as a requirements file.

    The scanners below are hand-written matchers for exactly those three
    patterns; the importable packages are a given set. */
module DepCheck {

  import opened Wrappers
  import opened Text

  // ---------------------------------------------------------------------
  // The scanners
  // ---------------------------------------------------------------------

  /** The end of the run of whitespace (`\s*`) that starts at `i`. */
  function SkipSpace(s: string, i: nat): (j: nat)
    requires i <= |s|
    ensures i <= j <= |s|
    ensures forall k :: i <= k < j ==> IsSpace(s[k])
    ensures j == |s| || !IsSpace(s[j])
    decreases |s| - i
  {
    if i == |s| || !IsSpace(s[i]) then i else SkipSpace(s, i + 1)
  }

  /** The end of the run of characters other than `stop` (`[^stop]*`) that
      starts at `i`. */
  function RunEnd(s: string, i: nat, stop: char): (j: nat)
    requires i <= |s|
    ensures i <= j <= |s|
    ensures forall k :: i <= k < j ==> s[k] != stop
    ensures j == |s| || s[j] == stop
    decreases |s| - i
  {
    if i == |s| || s[i] == stop then i else RunEnd(s, i + 1, stop)
  }

  /** A pattern of the shape `key\s*sep\s*open([^close]+)close`. */
  datatype Pattern = Pattern(key: string, sep: char, open: char, close: char)

  /** `_module_info\s*=\s*{([^}]+)}` (a negated class also matches line breaks). */
  const InfoPattern := Pattern("_module_info", '=', '{', '}')

  /** `"dependencies"\s*:\s*\[([^\]]+)\]`. */
  const DepsPattern := Pattern("\"dependencies\"", ':', '[', ']')

  /** The group of a match of `p` that starts exactly at `i`.  The greedy
      quantifiers never need to give characters back here, so each is the
      longest run. */
  function MatchAt(s: string, i: nat, p: Pattern): (g: Option<string>)
    requires i <= |s|
    ensures g.Some? ==> |g.value| > 0 && p.close !in g.value
    ensures g.Some? ==> StartsWith(s[i..], p.key)
  {
    if !StartsWith(s[i..], p.key) then None else AfterKey(s, i + |p.key|, p)
  }

  /** The rest of a match once the key is matched: blanks, the separator,
      blanks, the opening bracket, the group and the closing bracket. */
  function AfterKey(s: string, i: nat, p: Pattern): (g: Option<string>)
    requires i <= |s|
    ensures g.Some? ==> |g.value| > 0 && p.close !in g.value
  {
    var j := SkipSpace(s, i);
    if j == |s| || s[j] != p.sep then None else AfterSep(s, j + 1, p)
  }

  /** The rest of a match once the separator is matched. */
  function AfterSep(s: string, i: nat, p: Pattern): (g: Option<string>)
    requires i <= |s|
    ensures g.Some? ==> |g.value| > 0 && p.close !in g.value
  {
    var k := SkipSpace(s, i);
    if k == |s| || s[k] != p.open then None else Group(s, k + 1, p.close)
  }

  /** `([^close]+)close` at `i`: the group, when it is non-empty and closed. */
  function Group(s: string, i: nat, close: char): (g: Option<string>)
    requires i <= |s|
    ensures g.Some? ==> |g.value| > 0 && close !in g.value
  {
    var e := RunEnd(s, i, close);
    if e == i || e == |s| then None
    else
      var g := s[i..e];
      assert forall x :: 0 <= x < |g| ==> g[x] == s[i + x];
      Some(g)
  }

  /** `re.search`: the group of the leftmost match at or after `from`. */
  function Search(s: string, p: Pattern, from: nat): (g: Option<string>)
    requires from <= |s|
    ensures g.Some? ==> |g.value| > 0 && p.close !in g.value
    decreases |s| - from
  {
    var here := MatchAt(s, from, p);
    if here.Some? then here
    else if from == |s| then None
    else Search(s, p, from + 1)
  }

  /** A match needs the pattern's key somewhere in the text. */
  lemma {:induction false} SearchNeedsKey(s: string, p: Pattern, from: nat)
    requires from <= |s|
    requires Search(s, p, from).Some?
    ensures Contains(s[from..], p.key)
    decreases |s| - from
  {
    if MatchAt(s, from, p).None? {
      SearchNeedsKey(s, p, from + 1);
      assert s[from..][1..] == s[from + 1..];
    }
  }

  /** `re.findall(r'"([^"]+)"', s)`: the non-empty double-quoted strings,
      left to right, without overlap. */
  function QuotedStrings(s: string): (r: seq<string>)
    ensures forall i :: 0 <= i < |r| ==> |r[i]| > 0 && '"' !in r[i]
    decreases |s|
  {
    if |s| == 0 then []
    else if s[0] != '"' then QuotedStrings(s[1..])
    else
      var e := RunEnd(s, 1, '"');
      if e == 1 || e == |s| then QuotedStrings(s[1..])
      else
        var g := s[1..e];
        assert forall x :: 0 <= x < |g| ==> g[x] == s[1 + x];
        [g] + QuotedStrings(s[e + 1..])
  }

  /** The text a plugin file's content yields, `None` when reading it
      raised. */
  datatype PluginFile = PluginFile(name: string, content: Option<string>)

  /** `extract_dependencies_from_plugin`: every failure (unreadable file, no
      `_module_info` block, no dependencies list in it) gives `[]`. */
  function ExtractDependencies(content: Option<string>): (deps: seq<string>)
    ensures forall i :: 0 <= i < |deps| ==> |deps[i]| > 0 && '"' !in deps[i]
  {
    if content.None? then []
    else match Search(content.value, InfoPattern, 0)
      case None => []
      case Some(info) =>
        match Search(info, DepsPattern, 0)
        case None => []
        case Some(list) => QuotedStrings(list)
  }

  /** Dependencies are found only inside the `_module_info` block, which
      ends at its first `}`, and only when `"dependencies"` occurs there. */
  lemma DependenciesBeforeFirstBrace(content: string)
    requires ExtractDependencies(Some(content)) != []
    ensures Search(content, InfoPattern, 0).Some?
    ensures '}' !in Search(content, InfoPattern, 0).value
    ensures Contains(Search(content, InfoPattern, 0).value, "\"dependencies\"")
  {
    var info := Search(content, InfoPattern, 0).value;
    SearchNeedsKey(info, DepsPattern, 0);
    assert info[0..] == info;
  }

  // ---------------------------------------------------------------------
  // Round trip: a literal `_module_info` block gives back its list
  // ---------------------------------------------------------------------

  /** `\s*` from `i` stops at `j` when only blanks lie between. */
  lemma SkipTo(s: string, i: nat, j: nat)
    requires i <= j < |s| && !IsSpace(s[j])
    requires forall x :: i <= x < j ==> IsSpace(s[x])
    ensures SkipSpace(s, i) == j
  {
  }

  /** `[^stop]*` from `i` stops at the first `stop`, at `e`. */
  lemma RunTo(s: string, i: nat, e: nat, stop: char)
    requires i <= e < |s| && s[e] == stop
    requires forall x :: i <= x < e ==> s[x] != stop
    ensures RunEnd(s, i, stop) == e
  {
  }

  /** A text laid out as a pattern expects (the key, blanks up to the
      separator at `j`, blanks up to the opening bracket at `k`, a non-empty
      body free of the closing bracket, the closing bracket at `e`) matches
      at its start, with the body as the group. */
  lemma MatchLayout(s: string, p: Pattern, j: nat, k: nat, e: nat)
    requires |p.key| <= j < k && k + 1 < e < |s|
    requires s[..|p.key|] == p.key
    requires forall x :: |p.key| <= x < j ==> IsSpace(s[x])
    requires s[j] == p.sep && !IsSpace(p.sep)
    requires forall x :: j < x < k ==> IsSpace(s[x])
    requires s[k] == p.open && !IsSpace(p.open)
    requires forall x :: k < x < e ==> s[x] != p.close
    requires s[e] == p.close
    ensures Search(s, p, 0) == Some(s[k + 1..e])
  {
    SkipTo(s, |p.key|, j);
    SkipTo(s, j + 1, k);
    RunTo(s, k + 1, e, p.close);
    var g := s[k + 1..e];
    assert Group(s, k + 1, p.close) == Some(g);
    KeyStep(s, |p.key|, j, k, p, g);
    StartStep(s, p, g);
  }

  /** A match at the very start is the leftmost one. */
  lemma StartStep(s: string, p: Pattern, g: string)
    requires |p.key| <= |s| && s[..|p.key|] == p.key
    requires AfterKey(s, |p.key|, p) == Some(g)
    ensures Search(s, p, 0) == Some(g)
  {
    assert s[0..] == s;
  }

  /** After the separator: blanks up to the opening bracket at `k`. */
  lemma SepStep(s: string, i: nat, k: nat, p: Pattern, g: string)
    requires i <= k < |s| && SkipSpace(s, i) == k && s[k] == p.open
    requires Group(s, k + 1, p.close) == Some(g)
    ensures AfterSep(s, i, p) == Some(g)
  {
  }

  /** After the key: blanks up to the separator at `j`, blanks up to the
      opening bracket at `k`, then the group. */
  lemma KeyStep(s: string, i: nat, j: nat, k: nat, p: Pattern, g: string)
    requires i <= j < k < |s| && SkipSpace(s, i) == j && s[j] == p.sep
    requires SkipSpace(s, j + 1) == k && s[k] == p.open
    requires Group(s, k + 1, p.close) == Some(g)
    ensures AfterKey(s, i, p) == Some(g)
  {
    SepStep(s, j + 1, k, p, g);
  }

  /** `"d"`. */
  function Quote(d: string): string {
    "\"" + d + "\""
  }

  /** The list literal `"a", "b", ...` as plugin files write it. */
  function Listing(deps: seq<string>): (r: string)
    ensures |deps| > 0 ==> |r| > 0
    decreases |deps|
  {
    if |deps| == 0 then ""
    else if |deps| == 1 then Quote(deps[0])
    else Quote(deps[0]) + (", " + Listing(deps[1..]))
  }

  lemma QuotedStringsHead(d: string, t: string)
    requires |d| > 0 && '"' !in d
    ensures QuotedStrings(Quote(d) + t) == [d] + QuotedStrings(t)
  {
    var s := Quote(d) + t;
    assert forall k :: 1 <= k < |d| + 1 ==> s[k] == d[k - 1];
    assert s[|d| + 1] == '"';
    assert RunEnd(s, 1, '"') == |d| + 1;
    assert s[1..|d| + 1] == d;
    assert s[|d| + 2..] == t;
  }

  lemma QuotedStringsComma(t: string)
    ensures QuotedStrings(", " + t) == QuotedStrings(t)
  {
    assert (", " + t)[1..] == " " + t;
    assert (" " + t)[1..] == t;
  }

  lemma {:induction false} QuotedListing(deps: seq<string>)
    requires forall i :: 0 <= i < |deps| ==> |deps[i]| > 0 && '"' !in deps[i]
    ensures QuotedStrings(Listing(deps)) == deps
    decreases |deps|
  {
    if |deps| == 1 {
      QuotedStringsHead(deps[0], "");
      assert Quote(deps[0]) + "" == Quote(deps[0]);
    } else if |deps| > 1 {
      QuotedListing(deps[1..]);
      QuotedListingStep(deps);
    }
  }

  lemma QuotedListingStep(deps: seq<string>)
    requires |deps| > 1 && |deps[0]| > 0 && '"' !in deps[0]
    requires QuotedStrings(Listing(deps[1..])) == deps[1..]
    ensures QuotedStrings(Listing(deps)) == deps
  {
    var tail := Listing(deps[1..]);
    QuotedStringsComma(tail);
    QuotedStringsHead(deps[0], ", " + tail);
    assert deps == [deps[0]] + deps[1..];
  }

  lemma {:induction false} ListingAvoids(deps: seq<string>, c: char)
    requires c != '"' && c != ',' && c != ' '
    requires forall i :: 0 <= i < |deps| ==> c !in deps[i]
    ensures c !in Listing(deps)
    decreases |deps|
  {
    if |deps| > 1 {
      ListingAvoids(deps[1..], c);
    }
  }

  /** An opening laid out as the pattern reads it (key, blanks, separator
      at `j`, blanks, opening bracket last), then a body free of the
      closing bracket and the closing bracket: the match yields the body. */
  lemma BlockLayout(opening: string, p: Pattern, j: nat, body: string, after: string)
    requires |p.key| <= j < |opening| - 1
    requires opening[..|p.key|] == p.key
    requires forall x :: |p.key| <= x < j ==> IsSpace(opening[x])
    requires opening[j] == p.sep && !IsSpace(p.sep)
    requires forall x :: j < x < |opening| - 1 ==> IsSpace(opening[x])
    requires opening[|opening| - 1] == p.open && !IsSpace(p.open)
    requires |body| > 0 && p.close !in body
    ensures Search(opening + body + [p.close] + after, p, 0) == Some(body)
  {
    var s := opening + body + [p.close] + after;
    var k := |opening| - 1;
    var e := |opening| + |body|;
    assert forall x :: 0 <= x < |opening| ==> s[x] == opening[x];
    assert forall x :: k < x < e ==> s[x] == body[x - |opening|];
    assert s[..|p.key|] == p.key;
    MatchLayout(s, p, j, k, e);
    assert s[k + 1..e] == body;
  }

  /** `"dependencies": [` as the pattern reads it: the key, no blanks, the
      separator at 14, one blank, the opening bracket. */
  lemma DepsOpening(opening: string)
    requires opening == "\"dependencies\": ["
    ensures |DepsPattern.key| <= 14 < |opening| - 1
    ensures opening[..|DepsPattern.key|] == DepsPattern.key
    ensures opening[14] == DepsPattern.sep && !IsSpace(DepsPattern.sep)
    ensures forall x :: 14 < x < |opening| - 1 ==> IsSpace(opening[x])
    ensures opening[|opening| - 1] == DepsPattern.open && !IsSpace(DepsPattern.open)
  {
    assert opening[..14] == DepsPattern.key;
  }

  /** A `"dependencies": [...]` entry yields its list. */
  lemma DepsBlock(list: string)
    requires |list| > 0 && ']' !in list
    ensures Search("\"dependencies\": [" + list + "]", DepsPattern, 0) == Some(list)
  {
    var opening := "\"dependencies\": [";
    DepsOpening(opening);
    BlockLayout(opening, DepsPattern, 14, list, "");
    assert opening + list + "]" == opening + list + [DepsPattern.close] + "";
  }

  /** The source text of a dependency list entry of `_module_info`. */
  function DepsSource(deps: seq<string>): string {
    "\"dependencies\": [" + Listing(deps) + "]"
  }

  /** The source text of a `_module_info` holding only a dependency list. */
  function InfoSource(deps: seq<string>): string {
    "_module_info = {" + DepsSource(deps) + "}"
  }

  /** Extraction inverts writing the list: the quoted entries come back in
      order. */
  lemma ExtractRoundTrip(deps: seq<string>)
    requires |deps| > 0
    requires forall i :: 0 <= i < |deps| ==> |deps[i]| > 0 && '"' !in deps[i] && ']' !in deps[i] && '}' !in deps[i]
    ensures ExtractDependencies(Some(InfoSource(deps))) == deps
  {
    var list := Listing(deps);
    ListingAvoids(deps, ']');
    ListingAvoids(deps, '}');
    var info := DepsSource(deps);
    assert '}' !in info;
    InfoBlock(info, "");
    assert InfoSource(deps) == "_module_info = {" + info + "}" + "";
    DepsBlock(list);
    QuotedListing(deps);
  }

  /** A nested dict closes the `_module_info` match early: a dependency list
      written after it is not found, whatever follows. */
  lemma NestedDictHidesDependencies(before: string, after: string)
    requires |before| > 0 && '}' !in before && !Contains(before, "\"dependencies\"")
    ensures ExtractDependencies(Some("_module_info = {" + before + "}" + after)) == []
  {
    InfoBlock(before, after);
    if Search(before, DepsPattern, 0).Some? {
      SearchNeedsKey(before, DepsPattern, 0);
    }
  }

  /** `_module_info = {` as the pattern reads it: the key, one blank, the
      separator at 13, one blank, the opening brace. */
  lemma InfoOpening(opening: string)
    requires opening == "_module_info = {"
    ensures |InfoPattern.key| <= 13 < |opening| - 1
    ensures opening[..|InfoPattern.key|] == InfoPattern.key
    ensures forall x :: |InfoPattern.key| <= x < 13 ==> IsSpace(opening[x])
    ensures opening[13] == InfoPattern.sep && !IsSpace(InfoPattern.sep)
    ensures forall x :: 13 < x < |opening| - 1 ==> IsSpace(opening[x])
    ensures opening[|opening| - 1] == InfoPattern.open && !IsSpace(InfoPattern.open)
  {
    assert opening[..12] == InfoPattern.key;
  }

  /** A `_module_info = {...}` block yields its body. */
  lemma InfoBlock(body: string, after: string)
    requires |body| > 0 && '}' !in body
    ensures Search("_module_info = {" + body + "}" + after, InfoPattern, 0) == Some(body)
  {
    var opening := "_module_info = {";
    InfoOpening(opening);
    BlockLayout(opening, InfoPattern, 13, body, after);
    assert opening + body + "}" + after == opening + body + [InfoPattern.close] + after;
  }




  // ---------------------------------------------------------------------
  // Package names
  // ---------------------------------------------------------------------

  /** The characters of `[>=<!=]`. */
  predicate IsSpecifierChar(c: char) {
    c == '>' || c == '=' || c == '<' || c == '!'
  }

  /** The index of the first specifier character, or the length. */
  function SpecifierStart(dep: string): (i: nat)
    ensures i <= |dep|
    ensures forall k :: 0 <= k < i ==> !IsSpecifierChar(dep[k])
    ensures i == |dep| || IsSpecifierChar(dep[i])
    decreases |dep|
  {
    if |dep| == 0 || IsSpecifierChar(dep[0]) then 0 else 1 + SpecifierStart(dep[1..])
  }

  /** `re.split(r'[>=<!=]', dep)[0].strip()`. */
  function PackageName(dep: string): (name: string)
    ensures forall c :: c in name ==> !IsSpecifierChar(c)
  {
    var prefix := dep[..SpecifierStart(dep)];
    var name := Strip(prefix);
    assert forall c :: c in prefix ==> !IsSpecifierChar(c);
    StripInside(prefix);
    name
  }

  lemma StripInside(s: string)
    ensures forall c :: c in Strip(s) ==> c in s
  {
    StripSlice(s);
    var r := Strip(s);
    forall c | c in r ensures c in s {
      var x :| 0 <= x < |r| && r[x] == c;
      assert s[|s| - |StripStart(s)| + x] == c;
    }
  }

  /** A name followed by a version specifier yields the name, stripped. */
  lemma PackageNameOf(name: string, specifier: string)
    requires forall k :: 0 <= k < |name| ==> !IsSpecifierChar(name[k])
    requires |specifier| == 0 || IsSpecifierChar(specifier[0])
    ensures PackageName(name + specifier) == Strip(name)
  {
    var dep := name + specifier;
    assert forall k :: 0 <= k < |name| ==> dep[k] == name[k];
    if |specifier| > 0 {
      assert dep[|name|] == specifier[0];
    }
    assert SpecifierStart(dep) == |name|;
    assert dep[..|name|] == name;
  }

  // ---------------------------------------------------------------------
  // `check_plugin_dependencies`
  // ---------------------------------------------------------------------

  /** The dependencies of the scanned files: those whose names do not start
      with `__`. */
  function DeclaredDeps(files: seq<PluginFile>): (deps: set<string>)
    ensures forall d :: d in deps ==>
              exists i :: 0 <= i < |files| && !StartsWith(files[i].name, "__") && d in ExtractDependencies(files[i].content)
    decreases |files|
  {
    if |files| == 0 then {}
    else
      var f := files[|files| - 1];
      DeclaredDeps(files[..|files| - 1])
      + (if StartsWith(f.name, "__") then {} else set d | d in ExtractDependencies(f.content))
  }

  /** A file's dependencies are declared unless its name starts with `__`. */
  lemma {:induction false} DeclaredDepsOf(files: seq<PluginFile>, i: nat, d: string)
    requires i < |files| && !StartsWith(files[i].name, "__") && d in ExtractDependencies(files[i].content)
    ensures d in DeclaredDeps(files)
    decreases |files|
  {
    if i < |files| - 1 {
      DeclaredDepsOf(files[..|files| - 1], i, d);
    }
  }

  /** `import_module("")` and relative names raise errors other than
      `ImportError`, which the check does not catch. */
  predicate ImportRaises(name: string) {
    |name| == 0 || name[0] == '.'
  }

  /** The dependencies whose package cannot be imported. */
  function MissingDeps(deps: set<string>, importable: set<string>): (r: set<string>)
    ensures r <= deps
    ensures forall d :: d in r ==> PackageName(d) !in importable
  {
    set d | d in deps && PackageName(d) !in importable
  }

  /** Checking one more dependency adds it to the missing ones exactly when
      its package cannot be imported. */
  lemma MissingDepsStep(done: set<string>, dep: string, importable: set<string>)
    ensures MissingDeps(done + {dep}, importable)
            == MissingDeps(done, importable) + (if PackageName(dep) in importable then {} else {dep})
  {
  }

  /** `check_plugin_dependencies(plugins_dir)` over the `*.py` listing of the
      directory (`None` when it does not exist).  `None` when an import
      raises something other than `ImportError`. */
  method CheckPluginDependencies(plugins: Option<seq<PluginFile>>, importable: set<string>) returns (ok: Option<bool>)
    ensures plugins.None? ==> ok == Some(true)
    ensures plugins.Some? ==>
              ok == if exists d :: d in DeclaredDeps(plugins.value) && ImportRaises(PackageName(d)) then None
                    else Some(MissingDeps(DeclaredDeps(plugins.value), importable) == {})
  {
    if plugins.None? {
      return Some(true);
    }
    var all := CollectDependencies(plugins.value);
    if all == {} {
      return Some(true);
    }
    var missing := ImportCheck(all, importable);
    ok := if missing.None? then None else Some(missing.value == {});
  }

  /** No dependency of `deps` makes `import_module` raise past the check. */
  predicate Importable(deps: set<string>) {
    forall d :: d in deps ==> !ImportRaises(PackageName(d))
  }

  /** The import loop: the dependencies whose package cannot be imported,
      or `None` when an import raises an error other than `ImportError`. */
  method ImportCheck(all: set<string>, importable: set<string>) returns (r: Option<set<string>>)
    ensures r.None? <==> exists d :: d in all && ImportRaises(PackageName(d))
    ensures r.Some? ==> r.value == MissingDeps(all, importable)
  {
    var missing: set<string> := {};
    var remaining := all;
    ghost var done: set<string> := {};
    while remaining != {}
      invariant remaining <= all && done == all - remaining
      invariant missing == MissingDeps(done, importable)
      invariant Importable(done)
      decreases remaining
    {
      var dep :| dep in remaining;
      var name := PackageName(dep);
      if ImportRaises(name) {
        return None;
      }
      MissingDepsStep(done, dep, importable);
      if name !in importable {
        missing := missing + {dep};
      }
      remaining := remaining - {dep};
      done := done + {dep};
    }
    assert done == all;
    r := Some(missing);
  }

  /** The collection loop shared by the check and the generator. */
  method CollectDependencies(files: seq<PluginFile>) returns (all: set<string>)
    ensures all == DeclaredDeps(files)
  {
    all := {};
    for i := 0 to |files|
      invariant all == DeclaredDeps(files[..i])
    {
      assert files[..i + 1][..i] == files[..i];
      if !StartsWith(files[i].name, "__") {
        var deps := ExtractDependencies(files[i].content);
        all := all + set d | d in deps;
      }
    }
    assert files[..|files|] == files;
  }

  // ---------------------------------------------------------------------
  // `generate_plugin_requirements`
  // ---------------------------------------------------------------------

  predicate StrictlySorted(s: seq<string>) {
    forall i, j :: 0 <= i < j < |s| ==> Less(s[i], s[j])
  }

  predicate IsLeast(m: string, d: set<string>) {
    m in d && forall y :: y in d && y != m ==> Less(m, y)
  }

  lemma LeastExists(d: set<string>)
    requires d != {}
    ensures exists m :: IsLeast(m, d)
    decreases d
  {
    var x :| x in d;
    if d != {x} {
      LeastExists(d - {x});
      var m :| IsLeast(m, d - {x});
      if Less(x, m) {
        forall y | y in d && y != x ensures Less(x, y) {
          if y != m { LessTransitive(x, m, y); }
        }
        assert IsLeast(x, d);
      } else {
        LessTotal(x, m);
        assert IsLeast(m, d);
      }
    } else {
      assert IsLeast(x, d);
    }
  }

  lemma LeastUnique(d: set<string>)
    ensures forall a, b :: IsLeast(a, d) && IsLeast(b, d) ==> a == b
  {
    forall a, b | IsLeast(a, d) && IsLeast(b, d) ensures a == b {
      if a != b { LessAsymmetric(a, b); }
    }
  }

  /** `sorted(deps)`. */
  function SortedList(d: set<string>): (r: seq<string>)
    ensures StrictlySorted(r)
    ensures forall x :: x in r <==> x in d
    ensures |r| == |d|
    decreases d
  {
    if d == {} then []
    else
      LeastExists(d);
      LeastUnique(d);
      var m :| IsLeast(m, d);
      var rest := SortedList(d - {m});
      assert forall x :: x in rest ==> Less(m, x);
      [m] + rest
  }

  /** A strictly sorted sequence is determined by its elements, so the
      requirements do not depend on the order the files were listed in. */
  lemma {:induction false} SortedUnique(s: seq<string>, t: seq<string>)
    requires StrictlySorted(s) && StrictlySorted(t)
    requires forall x :: x in s <==> x in t
    ensures s == t
    decreases |s|
  {
    assert |s| > 0 ==> s[0] in s;
    assert |t| > 0 ==> t[0] in t;
    if |s| > 0 && |t| > 0 {
      SortedHeadsAgree(s, t);
      forall x | x in s[1..] ensures x in t[1..] {
        SortedTailMember(s, t, x);
      }
      forall x | x in t[1..] ensures x in s[1..] {
        SortedTailMember(t, s, x);
      }
      SortedUnique(s[1..], t[1..]);
      assert s == [s[0]] + s[1..] && t == [t[0]] + t[1..];
    }
  }

  lemma SortedHeadsAgree(s: seq<string>, t: seq<string>)
    requires StrictlySorted(s) && StrictlySorted(t)
    requires forall x :: x in s <==> x in t
    requires |s| > 0 && |t| > 0
    ensures s[0] == t[0]
  {
    if s[0] != t[0] {
      assert t[0] in s;
      var i :| 0 <= i < |s| && s[i] == t[0];
      assert s[0] in t;
      var j :| 0 <= j < |t| && t[j] == s[0];
      assert i > 0 && j > 0;
      assert Less(s[0], t[0]) && Less(t[0], s[0]);
      LessAsymmetric(s[0], t[0]);
    }
  }

  lemma SortedTailMember(s: seq<string>, t: seq<string>, x: string)
    requires StrictlySorted(s) && StrictlySorted(t)
    requires forall y :: y in s <==> y in t
    requires |s| > 0 && |t| > 0 && s[0] == t[0]
    requires x in s[1..]
    ensures x in t[1..]
  {
    var i :| 1 <= i < |s| && s[i] == x;
    assert Less(s[0], x);
    LessIrreflexive(s[0]);
    assert x in t;
    var j :| 0 <= j < |t| && t[j] == x;
    assert j != 0;
    assert t[1..][j - 1] == x;
  }

  const Comment := "# Plugin dependencies"
  const RequirementsFile := "plugin_requirements.txt"
  const InstallHint := "# Install with: pip install -r " + RequirementsFile

  /** One line per dependency. */
  function DependencyLines(deps: seq<string>): string
    decreases |deps|
  {
    if |deps| == 0 then "" else DependencyLines(deps[..|deps| - 1]) + deps[|deps| - 1] + "\n"
  }

  /** The file's text: two comments, a blank line, then one line per
      dependency. */
  function RequirementsText(deps: seq<string>): (r: string)
    ensures r == Join([Comment, InstallHint, ""] + deps + [""], "\n")
  {
    var lines := [Comment, InstallHint, ""] + deps + [""];
    var body := Join(deps + [""], "\n");
    DependencyLinesJoin(deps);
    assert lines[1..] == [InstallHint, ""] + deps + [""];
    assert lines[1..][1..] == [""] + deps + [""];
    assert lines[1..][1..][1..] == deps + [""];
    assert Join(lines[1..][1..], "\n") == "" + "\n" + body;
    assert Join(lines[1..], "\n") == InstallHint + "\n" + ("" + "\n" + body);
    Comment + "\n" + InstallHint + "\n\n" + DependencyLines(deps)
  }

  /** What becomes of `plugin_requirements.txt`. */
  datatype RequirementsAction = LeaveAlone | RemoveIfPresent | WriteFile(text: string)

  /** `generate_plugin_requirements(plugins_dir)`. */
  method GeneratePluginRequirements(plugins: Option<seq<PluginFile>>) returns (ok: bool, action: RequirementsAction)
    ensures ok
    ensures plugins.None? ==> action == LeaveAlone
    ensures plugins.Some? && DeclaredDeps(plugins.value) == {} ==> action == RemoveIfPresent
    ensures plugins.Some? && DeclaredDeps(plugins.value) != {} ==>
              action == WriteFile(RequirementsText(SortedList(DeclaredDeps(plugins.value))))
  {
    if plugins.None? {
      return true, LeaveAlone;
    }
    var all := CollectDependencies(plugins.value);
    if all == {} {
      return true, RemoveIfPresent;
    }
    var text := RenderRequirements(SortedList(all));
    return true, WriteFile(text);
  }

  /** The writes of the requirements file, in order. */
  method RenderRequirements(sorted: seq<string>) returns (text: string)
    ensures text == RequirementsText(sorted)
  {
    text := Comment + "\n" + InstallHint + "\n\n";
    for i := 0 to |sorted|
      invariant text == RequirementsText(sorted[..i])
    {
      assert sorted[..i + 1][..i] == sorted[..i];
      text := text + sorted[i] + "\n";
    }
    assert sorted[..|sorted|] == sorted;
  }

  lemma {:induction false} JoinSnoc(parts: seq<string>, x: string, sep: string)
    requires |parts| >= 1
    ensures Join(parts + [x], sep) == Join(parts, sep) + sep + x
    decreases |parts|
  {
    if |parts| > 1 {
      JoinSnoc(parts[1..], x, sep);
      assert (parts + [x])[1..] == parts[1..] + [x];
    }
  }

  /** The dependency lines are the dependencies joined by line breaks, with
      a final line break. */
  lemma {:induction false} DependencyLinesJoin(deps: seq<string>)
    ensures DependencyLines(deps) == Join(deps + [""], "\n")
    decreases |deps|
  {
    if |deps| > 0 {
      var init := deps[..|deps| - 1];
      var x := deps[|deps| - 1];
      DependencyLinesJoin(init);
      assert deps == init + [x];
      if |init| == 0 {
        assert deps + [""] == [x, ""];
      } else {
        JoinSnoc(init, "", "\n");
        JoinSnoc(init, x, "\n");
        JoinSnoc(deps, "", "\n");
      }
    }
  }

  /** Neither comment line holds a line break. */
  lemma HeaderHasNoLineBreak()
    ensures '\n' !in Comment && '\n' !in InstallHint
  {
  }

  /** Read back line by line, the file is its two comment lines, a blank
      line, then the dependencies in order (none may hold a line break). */
  lemma RequirementsTextLines(deps: seq<string>)
    requires forall i :: 0 <= i < |deps| ==> '\n' !in deps[i]
    ensures Split(RequirementsText(deps), '\n') == [Comment, InstallHint, ""] + deps + [""]
  {
    var lines := [Comment, InstallHint, ""] + deps + [""];
    forall i | 0 <= i < |lines| ensures '\n' !in lines[i] {
      if i < 2 {
        HeaderHasNoLineBreak();
      } else if i < 3 + |deps| {
        assert lines[i] == ([""] + deps)[i - 2];
      } else {
        assert lines[i] == "";
      }
    }
    SplitJoin(lines, '\n');
  }

  /** Read back line by line, the part of the file after its two comment
      lines and the blank line is the dependencies in order, one per line
      (none may hold a line break). */
  lemma DependencyLinesSplit(deps: seq<string>)
    requires forall i :: 0 <= i < |deps| ==> '\n' !in deps[i]
    ensures Split(DependencyLines(deps), '\n') == deps + [""]
  {
    DependencyLinesJoin(deps);
    var parts := deps + [""];
    forall i | 0 <= i < |parts| ensures '\n' !in parts[i] {
      if i < |deps| { assert parts[i] == deps[i]; }
    }
    SplitJoin(parts, '\n');
  }
}
