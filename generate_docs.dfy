/** The Markdown documentation generator of `plugins/generate_docs.py`: a
    plugin's `_module_info` and exported tools are rendered as one Markdown
    page per plugin directory.

    Loading a plugin directory is not modelled: its outcome arrives as a
    `LoadedModule`; reflection on a tool is read off its `Function` record;
    the pages are returned instead of being written to `docs/`. */
module GenerateDocs {

  import opened Wrappers
  import opened Text
  import opened Assoc
  import opened PyValues

  /** The two attributes of a loaded plugin module, `None` when unbound. */
  datatype LoadedModule = LoadedModule(info: Option<Value>, exports: Option<Value>)

  /** What `extract_plugin_info` returns. */
  datatype PluginData = PluginData(info: Value, tools: Value)

  /** What `generate_function_docs` returns (type hints are computed but
      never rendered). */
  datatype FunctionDocs = FunctionDocs(name: string, signature: string, docstring: string)

  const NoDescription := "No description available."

  /** The concatenation of the pieces, in order. */
  function Concat(pieces: seq<string>): string
    decreases |pieces|
  {
    if |pieces| == 0 then "" else Concat(pieces[..|pieces| - 1]) + pieces[|pieces| - 1]
  }

  // ---------------------------------------------------------------------
  // `extract_plugin_info` and `generate_function_docs`
  // ---------------------------------------------------------------------

  /** `extract_plugin_info(module)`: `None` when `_module_exports` is bound
      to something without `.get`. */
  function ExtractPluginInfo(m: LoadedModule): (r: Option<PluginData>)
    ensures r.None? <==> m.exports.Some? && !m.exports.value.Dict?
  {
    var exports := m.exports.GetOr(Dict([]));
    if !exports.Dict? then None
    else Some(PluginData(m.info.GetOr(Dict([])), Get(exports.entries, "tools", List([]))))
  }

  /** Missing attributes read as empty dicts, and missing tools as an empty
      list. */
  lemma ExtractDefaults(m: LoadedModule)
    requires m.exports.None? || m.exports.value.Dict?
    ensures m.info.None? ==> ExtractPluginInfo(m).value.info == Dict([])
    ensures m.exports.None? || "tools" !in Keys(m.exports.value.entries) ==>
              ExtractPluginInfo(m).value.tools == List([])
    ensures m.info.Some? ==> ExtractPluginInfo(m).value.info == m.info.value
  {
  }

  /** `generate_function_docs(func)`: `None` when `inspect.signature` raises
      (always for something that is not callable). */
  function GenerateFunctionDocs(tool: Value): (r: Option<FunctionDocs>)
    ensures r.None? <==> !tool.Callable? || tool.f.signatureError.Some?
    ensures r.Some? ==> r.value.name == tool.f.name && |r.value.docstring| > 0
    ensures r.Some? && (tool.f.doc.None? || tool.f.doc.value == "") ==> r.value.docstring == NoDescription
    ensures r.Some? && tool.f.doc.Some? && tool.f.doc.value != "" ==> r.value.docstring == tool.f.doc.value
  {
    if !tool.Callable? || tool.f.signatureError.Some? then None
    else
      var f := tool.f;
      var doc := if f.doc.None? || f.doc.value == "" then NoDescription else f.doc.value;
      Some(FunctionDocs(f.name, f.signature, doc))
  }

  // ---------------------------------------------------------------------
  // `generate_markdown_docs`: the sections
  // ---------------------------------------------------------------------

  /** The title: the declared name, or the directory's name. */
  function Title(info: Entries, pluginName: string): string {
    "# " + Show(Get(info, "name", Str(pluginName))) + "\n\n"
  }

  /** The description paragraph, present exactly when the key is. */
  function Description(info: Entries): (r: string)
    ensures r == "" <==> "description" !in Keys(info)
  {
    if "description" in Keys(info) then Show(Get(info, "description", NoneValue)) + "\n\n" else ""
  }

  /** One metadata bullet, `Unknown` when the key is absent. */
  function InfoBullet(caption: string, info: Entries, key: string): string {
    "- **" + caption + "**: " + Show(Get(info, key, Str("Unknown"))) + "\n"
  }

  /** The Plugin Information block, always present. */
  function InfoBlock(info: Entries): string {
    "## Plugin Information\n\n"
    + (InfoBullet("Author", info, "author")
       + (InfoBullet("Version", info, "version")
          + (InfoBullet("Platform", info, "platform")
             + (InfoBullet("Python Requirements", info, "python_requires") + "\n"))))
  }

  /** One back-quoted bullet per dependency. */
  function DependencyBullets(deps: seq<Value>): (r: seq<string>)
    ensures |r| == |deps|
    decreases |deps|
  {
    if |deps| == 0 then []
    else DependencyBullets(deps[..|deps| - 1]) + ["- `" + Show(deps[|deps| - 1]) + "`\n"]
  }

  /** The bullets follow the dependencies one for one, in order. */
  lemma {:induction false} DependencyBulletsInOrder(deps: seq<Value>)
    ensures forall i :: 0 <= i < |deps| ==> DependencyBullets(deps)[i] == "- `" + Show(deps[i]) + "`\n"
    decreases |deps|
  {
    if |deps| > 0 {
      DependencyBulletsInOrder(deps[..|deps| - 1]);
    }
  }

  /** The Dependencies section: empty unless `dependencies` is present and
      truthy; `None` when it is truthy but cannot be iterated. */
  function DependencySection(info: Entries): (r: Option<string>)
    ensures r == Some("") <==> "dependencies" !in Keys(info) || !Truthy(Get(info, "dependencies", NoneValue))
  {
    var deps := Get(info, "dependencies", NoneValue);
    if "dependencies" !in Keys(info) || !Truthy(deps) then Some("")
    else match Iterate(deps)
      case None => None
      case Some(items) => Some("### Dependencies\n\n" + Concat(DependencyBullets(items)) + "\n")
  }

  const RequiredYes := "\U{2705} Yes"
  const RequiredNo := "\U{274C} No"

  /** One row of the environment-variable table. */
  function EnvRow(name: string, spec: Entries): string {
    var required := if Truthy(Get(spec, "required", Bool(false))) then RequiredYes else RequiredNo;
    "| `" + name + "` | " + Show(Get(spec, "description", Str("No description"))) + " | " + required
    + " | `" + Show(Get(spec, "default", Str("None"))) + "` |\n"
  }

  /** The rows, in declaration order; `None` when a specification is not a
      dict (it has no `.get`). */
  function EnvRows(vars: Entries): (r: Option<seq<string>>)
    ensures r.Some? ==> |r.value| == |vars|
    decreases |vars|
  {
    if |vars| == 0 then Some([])
    else match EnvRows(vars[..|vars| - 1])
      case None => None
      case Some(rows) =>
        var (name, spec) := vars[|vars| - 1];
        if !spec.Dict? then None else Some(rows + [EnvRow(name, spec.entries)])
  }

  /** A failure exactly when some specification is not a dict. */
  lemma {:induction false} EnvRowsFail(vars: Entries)
    ensures EnvRows(vars).None? <==> exists i :: 0 <= i < |vars| && !vars[i].1.Dict?
    decreases |vars|
  {
    if |vars| > 0 {
      var init := vars[..|vars| - 1];
      EnvRowsFail(init);
      if exists i :: 0 <= i < |init| && !init[i].1.Dict? {
        var i :| 0 <= i < |init| && !init[i].1.Dict?;
        assert vars[i] == init[i];
      }
      if exists i :: 0 <= i < |vars| && !vars[i].1.Dict? {
        var i :| 0 <= i < |vars| && !vars[i].1.Dict?;
        if i < |init| { assert init[i] == vars[i]; }
      }
    }
  }

  /** One row per variable, in order, and a failure exactly when some
      specification is not a dict. */
  lemma {:induction false} EnvRowsInOrder(vars: Entries)
    ensures EnvRows(vars).None? <==> exists i :: 0 <= i < |vars| && !vars[i].1.Dict?
    ensures EnvRows(vars).Some? ==>
              forall i :: 0 <= i < |vars| ==> EnvRows(vars).value[i] == EnvRow(vars[i].0, vars[i].1.entries)
    decreases |vars|
  {
    EnvRowsFail(vars);
    if |vars| > 0 && EnvRows(vars).Some? {
      var init := vars[..|vars| - 1];
      EnvRowsInOrder(init);
      var rows := EnvRows(init).value;
      var last := vars[|vars| - 1];
      assert EnvRows(vars).value == rows + [EnvRow(last.0, last.1.entries)];
      forall i | 0 <= i < |vars| ensures EnvRows(vars).value[i] == EnvRow(vars[i].0, vars[i].1.entries) {
        if i < |init| { assert vars[i] == init[i]; }
      }
    }
  }

  const TableHeader := "| Variable | Description | Required | Default |\n"
  const TableRule := "|----------|-------------|----------|----------|\n"

  /** The Environment Variables section: empty unless the declared map is
      present and non-empty; `None` when it is truthy but not a dict, or an
      entry is not a dict. */
  function EnvSection(info: Entries): (r: Option<string>)
    ensures r == Some("") <==> "environment_variables" !in Keys(info) || !Truthy(Get(info, "environment_variables", NoneValue))
  {
    var declared := Get(info, "environment_variables", NoneValue);
    if "environment_variables" !in Keys(info) || !Truthy(declared) then Some("")
    else if !declared.Dict? then None
    else match EnvRows(declared.entries)
      case None => None
      case Some(rows) => Some("### Environment Variables\n\n" + TableHeader + TableRule + Concat(rows) + "\n")
  }

  /** The block of one documented function. */
  function FunctionBlock(d: FunctionDocs): string {
    "### `" + d.name + d.signature + "`\n\n" + d.docstring + "\n\n"
  }

  /** The blocks of the tools, in order; `None` when one of them cannot be
      documented. */
  function ToolBlocks(tools: seq<Value>): (r: Option<seq<string>>)
    ensures r.Some? ==> |r.value| == |tools|
    decreases |tools|
  {
    if |tools| == 0 then Some([])
    else match ToolBlocks(tools[..|tools| - 1])
      case None => None
      case Some(blocks) =>
        match GenerateFunctionDocs(tools[|tools| - 1])
        case None => None
        case Some(d) => Some(blocks + [FunctionBlock(d)])
  }

  /** One block per tool, in order, and a failure exactly when some tool
      cannot be documented. */
  lemma {:induction false} ToolBlocksInOrder(tools: seq<Value>)
    ensures ToolBlocks(tools).None? <==> exists i :: 0 <= i < |tools| && GenerateFunctionDocs(tools[i]).None?
    ensures ToolBlocks(tools).Some? ==>
              forall i :: 0 <= i < |tools| ==> ToolBlocks(tools).value[i] == FunctionBlock(GenerateFunctionDocs(tools[i]).value)
    decreases |tools|
  {
    if |tools| > 0 {
      var init := tools[..|tools| - 1];
      ToolBlocksInOrder(init);
      if exists i :: 0 <= i < |init| && GenerateFunctionDocs(init[i]).None? {
        var i :| 0 <= i < |init| && GenerateFunctionDocs(init[i]).None?;
        assert tools[i] == init[i];
      }
      if exists i :: 0 <= i < |tools| && GenerateFunctionDocs(tools[i]).None? {
        var i :| 0 <= i < |tools| && GenerateFunctionDocs(tools[i]).None?;
        if i < |init| { assert init[i] == tools[i]; }
      }
    }
  }

  /** The Available Functions section: empty exactly when the tools are
      falsy. */
  function FunctionsSection(tools: Value): (r: Option<string>)
    ensures r == Some("") <==> !Truthy(tools)
  {
    if !Truthy(tools) then Some("")
    else match Iterate(tools)
      case None => None
      case Some(items) =>
        match ToolBlocks(items)
        case None => None
        case Some(blocks) => Some("## Available Functions\n\n" + Concat(blocks))
  }

  /** `generate_markdown_docs(plugin_name, plugin_data)`; `None` when it
      raises. */
  function MarkdownDocs(pluginName: string, data: PluginData): (r: Option<string>)
    ensures r.Some? ==> data.info.Dict?
    ensures (data.info.Dict? && !Truthy(data.tools)
             && "dependencies" !in Keys(data.info.entries)
             && "environment_variables" !in Keys(data.info.entries)) ==> r.Some?
  {
    if !data.info.Dict? then None
    else
      var info := data.info.entries;
      var deps := DependencySection(info);
      var env := EnvSection(info);
      var functions := FunctionsSection(data.tools);
      if deps.None? || env.None? || functions.None? then None
      else Some(Title(info, pluginName) + Description(info) + InfoBlock(info) + deps.value + env.value + functions.value)
  }

  /** Without a declared name the page is titled by the directory name. */
  lemma TitleFallsBack(pluginName: string, data: PluginData)
    requires MarkdownDocs(pluginName, data).Some? && "name" !in Keys(data.info.entries)
    ensures StartsWith(MarkdownDocs(pluginName, data).value, "# " + pluginName + "\n\n")
  {
    var info := data.info.entries;
    var rest := Description(info) + (InfoBlock(info) + (DependencySection(info).value
                + (EnvSection(info).value + FunctionsSection(data.tools).value)));
    Regroup(Title(info, pluginName), Description(info), InfoBlock(info), DependencySection(info).value,
            EnvSection(info).value, FunctionsSection(data.tools).value);
    StartsWithConcat(Title(info, pluginName), rest);
  }

  lemma Regroup(a: string, b: string, c: string, d: string, e: string, f: string)
    ensures a + b + c + d + e + f == a + (b + (c + (d + (e + f))))
  {
  }

  /** The Plugin Information block always appears, `Unknown` standing in for
      each missing field. */
  lemma InfoAlwaysPresent(pluginName: string, data: PluginData)
    requires MarkdownDocs(pluginName, data).Some?
    ensures Contains(MarkdownDocs(pluginName, data).value, InfoBlock(data.info.entries))
  {
    var info := data.info.entries;
    var tail := DependencySection(info).value + (EnvSection(info).value + FunctionsSection(data.tools).value);
    Regroup(Title(info, pluginName), Description(info), InfoBlock(info), DependencySection(info).value,
            EnvSection(info).value, FunctionsSection(data.tools).value);
    ContainsHere(InfoBlock(info), tail);
    ContainsSuffix(Description(info), InfoBlock(info) + tail, InfoBlock(info));
    ContainsSuffix(Title(info, pluginName), Description(info) + (InfoBlock(info) + tail), InfoBlock(info));
  }

  /** A missing field reads `Unknown`. */
  lemma UnknownAuthor(info: Entries)
    requires "author" !in Keys(info)
    ensures InfoBullet("Author", info, "author") == "- **Author**: Unknown\n"
  {
    assert Show(Get(info, "author", Str("Unknown"))) == "Unknown";
    assert "- **" + "Author" + "**: " == "- **Author**: ";
  }

  /** The author and Python-requirement bullets are in the block. */
  lemma InfoBulletsPresent(info: Entries)
    ensures Contains(InfoBlock(info), InfoBullet("Author", info, "author"))
    ensures Contains(InfoBlock(info), InfoBullet("Python Requirements", info, "python_requires"))
  {
    var lead := "## Plugin Information\n\n";
    var last := InfoBullet("Python Requirements", info, "python_requires");
    var rest := InfoBullet("Version", info, "version") + (InfoBullet("Platform", info, "platform") + (last + "\n"));
    ContainsHere(InfoBullet("Author", info, "author"), rest);
    ContainsSuffix(lead, InfoBullet("Author", info, "author") + rest, InfoBullet("Author", info, "author"));
    ContainsHere(last, "\n");
    ContainsSuffix(InfoBullet("Platform", info, "platform"), last + "\n", last);
    ContainsSuffix(InfoBullet("Version", info, "version"), InfoBullet("Platform", info, "platform") + (last + "\n"), last);
    ContainsSuffix(InfoBullet("Author", info, "author"), rest, last);
    ContainsSuffix(lead, InfoBullet("Author", info, "author") + rest, last);
  }

  lemma StartsWithConcat(s: string, t: string)
    ensures StartsWith(s + t, s)
  {
    assert (s + t)[..|s|] == s;
  }

  lemma ContainsHere(s: string, t: string)
    ensures Contains(s + t, s)
  {
    assert (s + t)[..|s|] == s;
  }

  lemma {:induction false} ContainsSuffix(t: string, s: string, sub: string)
    requires Contains(s, sub)
    ensures Contains(t + s, sub)
    decreases |t|
  {
    if |t| > 0 {
      ContainsSuffix(t[1..], s, sub);
      assert (t + s)[1..] == t[1..] + s;
    } else {
      assert t + s == s;
    }
  }

  // ---------------------------------------------------------------------
  // `generate_markdown_docs` as written: one `md +=` at a time
  // ---------------------------------------------------------------------

  /** `generate_markdown_docs(plugin_name, plugin_data)`. */
  method GenerateMarkdownDocs(pluginName: string, data: PluginData) returns (md: Option<string>)
    ensures md == MarkdownDocs(pluginName, data)
  {
    if !data.info.Dict? {
      return None;
    }
    var info := data.info.entries;
    var text := RenderHeader(pluginName, info);
    var deps := RenderDependencies(info);
    if deps.None? {
      return None;
    }
    var env := RenderEnvironment(info);
    if env.None? {
      return None;
    }
    var functions := RenderFunctions(data.tools);
    if functions.None? {
      return None;
    }
    md := Some(text + deps.value + env.value + functions.value);
  }

  /** The title, the description and the information block. */
  method RenderHeader(pluginName: string, info: Entries) returns (text: string)
    ensures text == Title(info, pluginName) + Description(info) + InfoBlock(info)
  {
    text := "# " + Show(Get(info, "name", Str(pluginName))) + "\n\n";
    if "description" in Keys(info) {
      text := text + Show(Get(info, "description", NoneValue)) + "\n\n";
    }
    text := text + InfoBlock(info);
  }

  /** The dependency loop. */
  method RenderDependencies(info: Entries) returns (section: Option<string>)
    ensures section == DependencySection(info)
  {
    var deps := Get(info, "dependencies", NoneValue);
    if "dependencies" !in Keys(info) || !Truthy(deps) {
      return Some("");
    }
    var listed := Iterate(deps);
    if listed.None? {
      return None;
    }
    var items := listed.value;
    var text := "";
    for i := 0 to |items|
      invariant text == Concat(DependencyBullets(items[..i]))
    {
      assert items[..i + 1][..i] == items[..i];
      text := text + "- `" + Show(items[i]) + "`\n";
    }
    assert items[..|items|] == items;
    section := Some("### Dependencies\n\n" + text + "\n");
  }

  /** The environment-variable loop. */
  method RenderEnvironment(info: Entries) returns (section: Option<string>)
    ensures section == EnvSection(info)
  {
    var declared := Get(info, "environment_variables", NoneValue);
    if "environment_variables" !in Keys(info) || !Truthy(declared) {
      return Some("");
    }
    if !declared.Dict? {
      return None;
    }
    var vars := declared.entries;
    var text := "";
    for i := 0 to |vars|
      invariant EnvRows(vars[..i]).Some?
      invariant text == Concat(EnvRows(vars[..i]).value)
    {
      assert vars[..i + 1][..i] == vars[..i];
      var (name, spec) := vars[i];
      if !spec.Dict? {
        EnvRowsInOrder(vars);
        return None;
      }
      text := text + EnvRow(name, spec.entries);
    }
    assert vars[..|vars|] == vars;
    section := Some("### Environment Variables\n\n" + TableHeader + TableRule + text + "\n");
  }

  /** The tool loop. */
  method RenderFunctions(tools: Value) returns (section: Option<string>)
    ensures section == FunctionsSection(tools)
  {
    if !Truthy(tools) {
      return Some("");
    }
    var listed := Iterate(tools);
    if listed.None? {
      return None;
    }
    var items := listed.value;
    var text := "";
    for i := 0 to |items|
      invariant ToolBlocks(items[..i]).Some?
      invariant text == Concat(ToolBlocks(items[..i]).value)
    {
      assert items[..i + 1][..i] == items[..i];
      var docs := GenerateFunctionDocs(items[i]);
      if docs.None? {
        ToolBlocksInOrder(items);
        return None;
      }
      text := text + FunctionBlock(docs.value);
    }
    assert items[..|items|] == items;
    section := Some("## Available Functions\n\n" + text);
  }

  // ---------------------------------------------------------------------
  // `main`
  // ---------------------------------------------------------------------

  /** One entry of the plugins directory: its name, whether it is a
      directory, and what loading it as a package yields (`None` without
      `__init__.py`, without a loader, or when executing it raised). */
  datatype DocDir = DocDir(name: string, isDir: bool, loaded: Option<LoadedModule>)

  /** The directories `main` documents. */
  predicate Documented(d: DocDir) {
    d.isDir && !StartsWith(d.name, "_") && d.name != "docs"
  }

  /** The directory filter of `main`, keeping the listing's order. */
  function DocumentedDirs(entries: seq<DocDir>): (r: seq<DocDir>)
    ensures forall d :: d in r <==> d in entries && Documented(d)
    ensures |r| <= |entries|
    decreases |entries|
  {
    if |entries| == 0 then []
    else
      var init := DocumentedDirs(entries[..|entries| - 1]);
      var d := entries[|entries| - 1];
      assert forall x :: x in entries <==> x in entries[..|entries| - 1] || x == d;
      if Documented(d) then init + [d] else init
  }

  /** The pages written, as (file name, text), and whether an exception
      stopped the run. */
  function AllDocs(dirs: seq<DocDir>): (r: (seq<(string, string)>, bool))
    ensures |r.0| <= |dirs|
    decreases |dirs|
  {
    if |dirs| == 0 then ([], false)
    else
      var before := AllDocs(dirs[..|dirs| - 1]);
      var d := dirs[|dirs| - 1];
      if before.1 || d.loaded.None? then before
      else match ExtractPluginInfo(d.loaded.value)
        case None => (before.0, true)
        case Some(data) =>
          match MarkdownDocs(d.name, data)
          case None => (before.0, true)
          case Some(page) => (before.0 + [(d.name + ".md", page)], false)
  }

  /** Every page is named after a directory that was documented. */
  lemma {:induction false} PagesNamedAfterDirs(dirs: seq<DocDir>)
    ensures forall p :: p in AllDocs(dirs).0 ==> exists d :: d in dirs && p.0 == d.name + ".md" && d.loaded.Some?
    decreases |dirs|
  {
    if |dirs| > 0 {
      var init := dirs[..|dirs| - 1];
      PagesNamedAfterDirs(init);
      forall p | p in AllDocs(dirs).0
        ensures exists d :: d in dirs && p.0 == d.name + ".md" && d.loaded.Some?
      {
        if p in AllDocs(init).0 {
          var d :| d in init && p.0 == d.name + ".md" && d.loaded.Some?;
          assert d in dirs;
        } else {
          assert dirs[|dirs| - 1] in dirs;
        }
      }
    }
  }

  /** Once an exception has stopped the run, later directories change
      nothing. */
  lemma {:induction false} AllDocsStopped(dirs: seq<DocDir>, k: nat)
    requires k <= |dirs| && AllDocs(dirs[..k]).1
    ensures AllDocs(dirs) == AllDocs(dirs[..k])
    decreases |dirs| - k
  {
    if k < |dirs| {
      assert dirs[..k + 1][..k] == dirs[..k];
      AllDocsStopped(dirs, k + 1);
    } else {
      assert dirs[..k] == dirs;
    }
  }

  /** `main()` over the listing of the plugins directory. */
  method GenerateAllDocs(entries: seq<DocDir>) returns (pages: seq<(string, string)>, raised: bool)
    ensures pages == AllDocs(DocumentedDirs(entries)).0
    ensures raised == AllDocs(DocumentedDirs(entries)).1
  {
    var dirs := DocumentedDirs(entries);
    pages := [];
    for i := 0 to |dirs|
      invariant pages == AllDocs(dirs[..i]).0
      invariant !AllDocs(dirs[..i]).1
    {
      assert dirs[..i + 1][..i] == dirs[..i];
      var d := dirs[i];
      if d.loaded.Some? {
        var page := DocumentDir(d);
        if page.None? {
          AllDocsStopped(dirs, i + 1);
          return pages, true;
        }
        pages := pages + [(d.name + ".md", page.value)];
      }
    }
    assert dirs[..|dirs|] == dirs;
    raised := false;
  }

  /** The body of `main`'s loop for one loaded directory; `None` when it
      raises. */
  method DocumentDir(d: DocDir) returns (page: Option<string>)
    requires d.loaded.Some?
    ensures page.None? <==> ExtractPluginInfo(d.loaded.value).None? || MarkdownDocs(d.name, ExtractPluginInfo(d.loaded.value).value).None?
    ensures page.Some? ==> page.value == MarkdownDocs(d.name, ExtractPluginInfo(d.loaded.value).value).value
  {
    var data := ExtractPluginInfo(d.loaded.value);
    if data.None? {
      return None;
    }
    page := GenerateMarkdownDocs(d.name, data.value);
  }
}
