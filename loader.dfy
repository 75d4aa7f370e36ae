/** The plugin registry of `ldagent/loader.py`: the compatibility gate, the
    loading of single-file and package plugins into two insertion-ordered
    maps (tools keyed `"<identifier>.<name>"`, metadata keyed by identifier),
    the discovery pass over the plugins directory and the query surface.

    Executing a plugin's code is not modelled: each unit arrives as the
    outcome of that execution (it raised, or it produced a module whose
    `_module_info` and `_module_exports` are given).  The host's
    `platform.system()` and `sys.version_info` are given as a `Host`. */
module Loader {

  import opened Wrappers
  import opened Text
  import opened Assoc
  import opened PyValues

  /** `platform.system()` and the numeric part of `sys.version_info`
      (major, minor, micro); the tuple goes on with the release-level
      string, which `VersionLess` accounts for. */
  datatype Host = Host(system: string, version: seq<nat>)

  // ---------------------------------------------------------------------
  // Compatibility gate (`Plugins._is_compatible`)
  // ---------------------------------------------------------------------

  /** The host name the gate compares declared platforms with, as written:
      `platform.system().lower()`, which is `"darwin"` on macOS. */
  function HostNameAsWritten(system: string): (r: string)
    ensures |r| == |system|
    ensures forall i :: 0 <= i < |system| ==> r[i] == LowerChar(system[i])
  {
    Lower(system)
  }

  /** The host name in the vocabulary plugins declare (`any`, `linux`,
      `windows`, `macos`): macOS reports itself as `Darwin`. */
  function HostName(system: string): (r: string)
    ensures Lower(system) != "darwin" ==> r == HostNameAsWritten(system)
    ensures Lower(system) == "darwin" ==> r == "macos"
  {
    var lowered := Lower(system);
    if lowered == "darwin" then "macos" else lowered
  }

  /** The platform part of the gate: an absent or false value and the string
      `"any"` admit; a string is a one-element list; a list admits exactly
      when it holds the host name; any other value admits. */
  predicate PlatformAdmits(platform: Value, host: string)
    ensures !PlatformAdmits(platform, host) <==>
              (platform.Str? && platform.s !in {"", "any", host})
              || (platform.List? && |platform.items| > 0 && Str(host) !in platform.items)
  {
    if !Truthy(platform) || platform == Str("any") then true
    else
      var accepted := if platform.Str? then List([platform]) else platform;
      !accepted.List? || Str(host) in accepted.items
  }

  /** `tuple(map(int, text.split('.')))` for components that are plain
      digit strings; `None` where `int` raises. */
  function ParseVersion(text: string): (r: Option<seq<nat>>)
    ensures r.Some? ==> |r.value| == |Split(text, '.')| >= 1
  {
    var parts := Split(text, '.');
    if forall k :: 0 <= k < |parts| ==> |parts[k]| > 0 && forall j :: 0 <= j < |parts[k]| ==> IsDigit(parts[k][j])
    then Some(seq(|parts|, k requires 0 <= k < |parts| => DigitsValue(parts[k])))
    else None
  }

  /** The text of a dotted version, the inverse of `ParseVersion`. */
  function VersionText(components: seq<nat>): string {
    Join(seq(|components|, k requires 0 <= k < |components| => NatDigits(components[k])), ".")
  }

  /** `sys.version_info[:len(minimum)] < minimum` with `host` the numeric
      components of `sys.version_info`: Python compares tuples position by
      position and stops at the first difference; reaching the release-level
      string compares a `str` with an `int` and raises `TypeError` (`None`). */
  function VersionLess(host: seq<nat>, minimum: seq<nat>): Option<bool>
    decreases |minimum|
  {
    if |minimum| == 0 then Some(false)
    else if |host| == 0 then None
    else if host[0] != minimum[0] then Some(host[0] < minimum[0])
    else VersionLess(host[1..], minimum[1..])
  }

  /** The version part of the gate: only a `">="` constraint applies, and a
      constraint that does not parse or whose comparison raises admits.
      `None` when `python_requires` is a true value that is not a string:
      calling `startswith` on it raises `AttributeError`. */
  function VersionAdmits(requirement: Value, version: seq<nat>): (r: Option<bool>)
    ensures r.None? <==> Truthy(requirement) && !requirement.Str?
    ensures r == Some(false) <==>
              requirement.Str? && StartsWith(requirement.s, ">=")
              && ParseVersion(requirement.s[2..]).Some?
              && VersionLess(version, ParseVersion(requirement.s[2..]).value) == Some(true)
  {
    if !Truthy(requirement) then Some(true)
    else if !requirement.Str? then None
    else if !StartsWith(requirement.s, ">=") then Some(true)
    else match ParseVersion(requirement.s[2..])
      case None => Some(true)
      case Some(minimum) => Some(VersionLess(version, minimum) != Some(true))
  }

  /** `_is_compatible(module_info)`: the platform test first, then the
      version test; `None` when the check raises. */
  function IsCompatible(info: Entries, host: string, version: seq<nat>): (r: Option<bool>)
    ensures r == Some(true) <==>
              PlatformAdmits(Get(info, "platform", NoneValue), host)
              && VersionAdmits(Get(info, "python_requires", NoneValue), version) == Some(true)
    ensures r.None? ==> PlatformAdmits(Get(info, "platform", NoneValue), host)
  {
    if !PlatformAdmits(Get(info, "platform", NoneValue), host) then Some(false)
    else VersionAdmits(Get(info, "python_requires", NoneValue), version)
  }

  // ---------------------------------------------------------------------
  // Plugin units and the registry they fill
  // ---------------------------------------------------------------------

  /** The module a plugin's code produced: its `_module_info` dict and its
      `_module_exports` value, each absent when the module does not bind it. */
  datatype Module = Module(info: Option<Entries>, exports: Option<Value>)

  /** What executing (or importing) a plugin's code did. */
  datatype Exec = Raised | Executed(result: Module)

  /** One entry of `plugins_dir.glob("*.py")`: its file name, whether
      `spec_from_file_location` gave a spec with a loader, and the outcome of
      executing it. */
  datatype FileUnit = FileUnit(name: string, hasSpec: bool, exec: Exec)

  /** One entry of `plugins_dir.iterdir()`: its name, whether it is a
      directory, whether it holds `__init__.py`, and the outcome of
      importing it as a package. */
  datatype DirEntry = DirEntry(name: string, isDir: bool, hasInitFile: bool, exec: Exec)

  /** The plugins directory: missing, or present with the two listings
      `load_all` walks, in the order the file system gives them. */
  datatype PluginsDirectory = Missing | Present(files: seq<FileUnit>, entries: seq<DirEntry>)

  /** One call of a plugin's init hook: the plugin, the tool keys registered
      when it ran, and whether it raised. */
  datatype HookCall = HookCall(plugin: string, toolsAtCall: seq<string>, raised: bool)

  /** The registry's state: `tools`, `metadata`, and the init hooks called. */
  datatype Registry = Registry(tools: seq<(string, Function)>, metadata: seq<(string, Entries)>, hooks: seq<HookCall>)

  /** `Path(name).stem` for a name that `glob("*.py")` matched: the name
      without its `.py` suffix. */
  function Stem(name: string): (r: string)
    ensures |r| <= |name|
    ensures |name| > 3 && EndsWith(name, ".py") ==> r + ".py" == name
    ensures !(|name| > 3 && EndsWith(name, ".py")) ==> r == name
  {
    if |name| > 3 && EndsWith(name, ".py") then name[..|name| - 3] else name
  }

  /** The qualified key of a tool: `f"{identifier}.{name}"`. */
  function ToolKey(id: string, name: string): string {
    id + "." + name
  }

  /** The tool map after the registration loop has visited `items`: every
      callable is stored under its qualified key, others are skipped. */
  function RegisterTools(tools: seq<(string, Function)>, id: string, items: seq<Value>): seq<(string, Function)>
    decreases |items|
  {
    if |items| == 0 then tools
    else
      var before := RegisterTools(tools, id, items[..|items| - 1]);
      var last := items[|items| - 1];
      if last.Callable? then Put(before, ToolKey(id, last.f.name), last.f) else before
  }

  /** The checks a plugin must pass before anything is registered: a
      non-empty `_module_info`, a true `_module_exports` (an absent one
      counts as `{}`) and a gate that returns `True` without raising.  The
      gate compares declared platforms with the host name as written. */
  predicate Passes(m: Module, host: Host) {
    var info := m.info.GetOr([]);
    info != [] && Truthy(m.exports.GetOr(Dict([])))
    && IsCompatible(info, HostNameAsWritten(host.system), host.version) == Some(true)
  }

  /** The init hook calls a plugin's exports cause: one call when
      `init_function` is callable, made once the tools are registered. */
  function HookCalls(id: string, tools: seq<(string, Function)>, hook: Value): (r: seq<HookCall>)
    ensures |r| <= 1
    ensures |r| == 1 <==> hook.Callable?
    ensures hook.Callable? ==> r[0].plugin == id && r[0].toolsAtCall == Keys(tools) && r[0].raised == hook.f.raises
  {
    if hook.Callable? then [HookCall(id, Keys(tools), hook.f.raises)] else []
  }

  /** The registration that follows the metadata: the `tools` list, then the
      init hook.  Exports that are not a dict, or a `tools` value that cannot
      be iterated, raise; the loader's handler turns that into `False`. */
  function RegisterExports(reg: Registry, id: string, exports: Value): (Registry, bool) {
    if !exports.Dict? then (reg, false)
    else match Iterate(Get(exports.entries, "tools", List([])))
      case None => (reg, false)
      case Some(items) =>
        var tools := RegisterTools(reg.tools, id, items);
        var hook := Get(exports.entries, "init_function", NoneValue);
        (reg.(tools := tools, hooks := reg.hooks + HookCalls(id, tools, hook)), true)
  }

  /** Exports holding one callable under `tools` and no init hook register
      that tool under its qualified key and nothing else. */
  lemma RegisterOneTool(reg: Registry, id: string, f: Function)
    ensures RegisterExports(reg, id, Dict([("tools", List([Callable(f)]))]))
            == (reg.(tools := Put(reg.tools, ToolKey(id, f.name), f)), true)
  {
    var entries := [("tools", List([Callable(f)]))];
    var items := [Callable(f)];
    LookupAt(entries, 0);
    assert Keys(entries) == ["tools"];
    assert Get(entries, "tools", List([])) == List(items);
    assert Get(entries, "init_function", NoneValue) == NoneValue;
    assert items[..|items| - 1] == [];
    assert RegisterTools(reg.tools, id, items[..|items| - 1]) == reg.tools;
    var tools := RegisterTools(reg.tools, id, items);
    assert tools == Put(reg.tools, ToolKey(id, f.name), f);
    assert HookCalls(id, tools, NoneValue) == [];
    assert reg.hooks + [] == reg.hooks;
  }

  /** The steps both loaders share once the plugin's code has run: nothing
      changes for a plugin that fails `Passes`; otherwise the metadata is
      stored before the exports are registered, so a plugin whose exports
      then raise keeps its metadata. */
  function AdmitModule(reg: Registry, id: string, m: Module, host: Host): (r: (Registry, bool))
    ensures r.1 ==> Passes(m, host)
    ensures !Passes(m, host) ==> r.0 == reg
  {
    if !Passes(m, host) then (reg, false)
    else RegisterExports(reg.(metadata := Put(reg.metadata, id, m.info.GetOr([]))), id, m.exports.GetOr(Dict([])))
  }

  /** `load_plugin(plugin_file)`. */
  function LoadFile(reg: Registry, unit: FileUnit, host: Host): (r: (Registry, bool))
    ensures r.1 ==> unit.hasSpec && unit.exec.Executed? && Passes(unit.exec.result, host)
    ensures !unit.hasSpec || unit.exec.Raised? ==> r.0 == reg
  {
    if !unit.hasSpec || unit.exec.Raised? then (reg, false)
    else AdmitModule(reg, Stem(unit.name), unit.exec.result, host)
  }

  /** `load_package_plugin(plugin_dir)`, registry part. */
  function LoadDir(reg: Registry, entry: DirEntry, host: Host): (r: (Registry, bool))
    ensures r.1 ==> entry.hasInitFile && entry.exec.Executed? && Passes(entry.exec.result, host)
    ensures !entry.hasInitFile || entry.exec.Raised? ==> r.0 == reg
  {
    if !entry.hasInitFile || entry.exec.Raised? then (reg, false)
    else AdmitModule(reg, entry.name, entry.exec.result, host)
  }

  /** The file loop of `load_all`: names starting with `__` are skipped;
      the count goes up for every load that returned `True`. */
  function LoadFiles(reg: Registry, files: seq<FileUnit>, host: Host): (Registry, nat)
    decreases |files|
  {
    if |files| == 0 then (reg, 0)
    else
      var (before, n) := LoadFiles(reg, files[..|files| - 1], host);
      var unit := files[|files| - 1];
      if StartsWith(unit.name, "__") then (before, n)
      else
        var (after, ok) := LoadFile(before, unit, host);
        (after, if ok then n + 1 else n)
  }

  /** Whether `load_all` hands a directory entry to `load_package_plugin`. */
  predicate IsPackageCandidate(entry: DirEntry) {
    entry.isDir && !StartsWith(entry.name, "__") && entry.name != "__pycache__"
  }

  /** The directory loop of `load_all`. */
  function LoadDirs(reg: Registry, entries: seq<DirEntry>, host: Host): (Registry, nat)
    decreases |entries|
  {
    if |entries| == 0 then (reg, 0)
    else
      var (before, n) := LoadDirs(reg, entries[..|entries| - 1], host);
      var entry := entries[|entries| - 1];
      if !IsPackageCandidate(entry) then (before, n)
      else
        var (after, ok) := LoadDir(before, entry, host);
        (after, if ok then n + 1 else n)
  }

  /** `load_all()`: nothing for a missing directory; every single-file unit
      before any package unit. */
  function LoadAllSpec(reg: Registry, dir: PluginsDirectory, host: Host): (r: (Registry, nat))
    ensures dir.Missing? ==> r == (reg, 0)
  {
    if dir.Missing? then (reg, 0)
    else
      var (afterFiles, n) := LoadFiles(reg, dir.files, host);
      var (afterDirs, m) := LoadDirs(afterFiles, dir.entries, host);
      (afterDirs, n + m)
  }

  // ---------------------------------------------------------------------
  // Properties of the gate
  // ---------------------------------------------------------------------

  /** A non-empty list of platforms admits exactly the hosts it names. */
  lemma ListPlatformAdmits(items: seq<Value>, host: string)
    requires |items| > 0
    ensures PlatformAdmits(List(items), host) <==> Str(host) in items
  {
  }

  /** A single platform string behaves as the one-element list holding it. */
  lemma StringPlatformIsList(platform: string, host: string)
    requires platform != "" && platform != "any"
    ensures PlatformAdmits(Str(platform), host) <==> PlatformAdmits(List([Str(platform)]), host)
  {
  }

  /** As written, a plugin that declares only `macos` is refused on every
      macOS host, because the host reports itself as `darwin`; with the
      host name mapped to the declared vocabulary it is admitted. */
  lemma MacosRefusedAsWritten(system: string)
    requires Lower(system) == "darwin"
    ensures !PlatformAdmits(List([Str("macos")]), HostNameAsWritten(system))
    ensures PlatformAdmits(List([Str("macos")]), HostName(system))
  {
    assert Str("darwin") != Str("macos");
  }

  /** The host name differs from the as-written one only on macOS. */
  lemma HostNameAgrees(system: string)
    requires Lower(system) != "darwin"
    ensures PlatformAdmits(List([Str("macos")]), HostName(system)) == PlatformAdmits(List([Str("macos")]), HostNameAsWritten(system))
  {
  }

  /** The gate with the host name mapped to the declared vocabulary. */
  predicate PassesIntended(m: Module, host: Host)
    ensures PassesIntended(m, host) ==> m.info.Some? && |m.info.value| > 0 && Truthy(m.exports.GetOr(Dict([])))
  {
    var info := m.info.GetOr([]);
    info != [] && Truthy(m.exports.GetOr(Dict([])))
    && IsCompatible(info, HostName(host.system), host.version) == Some(true)
  }

  /** On a macOS host the registry refuses a plugin declaring
      `platform: "macos"`, and registers nothing for it. */
  lemma MacosPluginRefused(reg: Registry, id: string, m: Module, host: Host)
    requires Lower(host.system) == "darwin"
    requires m.info.Some? && Get(m.info.value, "platform", NoneValue) == Str("macos")
    ensures !Passes(m, host)
    ensures AdmitModule(reg, id, m, host) == (reg, false)
  {
    MacosRefusedAsWritten(host.system);
    assert !PlatformAdmits(Str("macos"), HostNameAsWritten(host.system));
  }

  /** Off macOS the written gate and the intended one agree. */
  lemma PassesAgreesOffMacos(m: Module, host: Host)
    requires Lower(host.system) != "darwin"
    ensures Passes(m, host) == PassesIntended(m, host)
  {
  }

  /** A dotted version parses back to its components. */
  lemma ParseVersionText(components: seq<nat>)
    requires |components| >= 1
    ensures ParseVersion(VersionText(components)) == Some(components)
  {
    var parts := seq(|components|, k requires 0 <= k < |components| => NatDigits(components[k]));
    forall k | 0 <= k < |parts| ensures '.' !in parts[k] {
      assert forall j :: 0 <= j < |parts[k]| ==> IsDigit(parts[k][j]);
    }
    SplitJoin(parts, '.');
    assert Split(VersionText(components), '.') == parts;
    assert forall k :: 0 <= k < |parts| ==> |parts[k]| > 0 && forall j :: 0 <= j < |parts[k]| ==> IsDigit(parts[k][j]);
    var values := seq(|parts|, k requires 0 <= k < |parts| => DigitsValue(parts[k]));
    assert ParseVersion(VersionText(components)) == Some(values);
    forall k | 0 <= k < |parts| ensures values[k] == components[k] {
      DigitsRoundTrip(components[k]);
    }
    assert values == components;
  }

  /** A host whose version starts with the minimum is not below it. */
  lemma {:induction false} VersionLessPrefix(minimum: seq<nat>, rest: seq<nat>)
    ensures VersionLess(minimum + rest, minimum) == Some(false)
    decreases |minimum|
  {
    if |minimum| > 0 {
      assert (minimum + rest)[1..] == minimum[1..] + rest;
      VersionLessPrefix(minimum[1..], rest);
    }
  }

  /** `python_requires = ">=X.Y"` admits exactly the hosts whose version is
      not below `X.Y` (a comparison that raises admits). */
  lemma MinimumVersionGate(minimum: seq<nat>, version: seq<nat>)
    requires |minimum| >= 1
    ensures VersionAdmits(Str(">=" + VersionText(minimum)), version) == Some(VersionLess(version, minimum) != Some(true))
  {
    ParseVersionText(minimum);
    assert (">=" + VersionText(minimum))[2..] == VersionText(minimum);
  }

  /** A host exactly at the declared minimum, whatever follows, is admitted. */
  lemma MinimumVersionAdmitsItself(minimum: seq<nat>, rest: seq<nat>)
    requires |minimum| >= 1
    ensures VersionAdmits(Str(">=" + VersionText(minimum)), minimum + rest) == Some(true)
  {
    MinimumVersionGate(minimum, minimum + rest);
    VersionLessPrefix(minimum, rest);
  }

  /** A constraint other than `>=`, or one whose version does not parse,
      never refuses a host. */
  lemma VersionGateFailsOpen(requirement: string, version: seq<nat>)
    requires !StartsWith(requirement, ">=") || ParseVersion(requirement[2..]).None?
    ensures VersionAdmits(Str(requirement), version) == Some(true)
  {
  }

  // ---------------------------------------------------------------------
  // Properties of registration
  // ---------------------------------------------------------------------

  /** Reference definition of the tool a list registers under `key`: the
      last callable whose qualified name is `key`. */
  function LastTool(id: string, items: seq<Value>, key: string): (r: Option<Function>)
    ensures r.Some? ==> Callable(r.value) in items && ToolKey(id, r.value.name) == key
    decreases |items|
  {
    if |items| == 0 then None
    else
      var last := items[|items| - 1];
      if last.Callable? && ToolKey(id, last.f.name) == key then Some(last.f)
      else
        var r := LastTool(id, items[..|items| - 1], key);
        assert r.Some? ==> Callable(r.value) in items[..|items| - 1];
        r
  }

  /** The tool map after registration: a key named by the list maps to the
      last callable with that name, every other key keeps its old value. */
  lemma {:induction false} RegisterToolsLookup(tools: seq<(string, Function)>, id: string, items: seq<Value>, key: string)
    ensures Lookup(RegisterTools(tools, id, items), key) ==
              if LastTool(id, items, key).Some? then LastTool(id, items, key) else Lookup(tools, key)
    decreases |items|
  {
    if |items| > 0 {
      RegisterToolsLookup(tools, id, items[..|items| - 1], key);
      var last := items[|items| - 1];
      if last.Callable? {
        PutLookup(RegisterTools(tools, id, items[..|items| - 1]), ToolKey(id, last.f.name), last.f, key);
      }
    }
  }

  /** Registration keeps the existing keys in order and only appends. */
  lemma {:induction false} RegisterToolsKeys(tools: seq<(string, Function)>, id: string, items: seq<Value>)
    ensures Keys(tools) <= Keys(RegisterTools(tools, id, items))
    decreases |items|
  {
    if |items| > 0 {
      RegisterToolsKeys(tools, id, items[..|items| - 1]);
    }
  }

  /** A qualified key starts with its plugin's identifier and a dot. */
  lemma ToolKeyPrefix(id: string, name: string)
    ensures StartsWith(ToolKey(id, name), id + ".")
  {
    assert ToolKey(id, name)[..|id + "."|] == id + ".";
  }

  /** What loading one plugin may change: nothing when it fails the checks;
      otherwise the metadata under its identifier and the tools whose keys
      start with `<identifier>.`, with every existing key kept in place; a
      plugin reported as loaded is listed with its own `_module_info`. */
  lemma AdmitFrame(reg: Registry, id: string, m: Module, host: Host)
    ensures !Passes(m, host) ==> AdmitModule(reg, id, m, host) == (reg, false)
    ensures Keys(reg.tools) <= Keys(AdmitModule(reg, id, m, host).0.tools)
    ensures Keys(reg.metadata) <= Keys(AdmitModule(reg, id, m, host).0.metadata)
    ensures reg.hooks <= AdmitModule(reg, id, m, host).0.hooks
    ensures forall key :: !StartsWith(key, id + ".") ==>
              Lookup(AdmitModule(reg, id, m, host).0.tools, key) == Lookup(reg.tools, key)
    ensures forall other :: other != id ==>
              Lookup(AdmitModule(reg, id, m, host).0.metadata, other) == Lookup(reg.metadata, other)
    ensures Passes(m, host) ==> Lookup(AdmitModule(reg, id, m, host).0.metadata, id) == m.info
  {
    if Passes(m, host) {
      var stored := reg.(metadata := Put(reg.metadata, id, m.info.GetOr([])));
      RegisterExportsFrame(stored, id, m.exports.GetOr(Dict([])));
      forall other
        ensures Lookup(Put(reg.metadata, id, m.info.GetOr([])), other)
                == if other == id then Some(m.info.GetOr([])) else Lookup(reg.metadata, other)
      {
        PutLookup(reg.metadata, id, m.info.GetOr([]), other);
      }
    }
  }

  /** Registering a plugin's exports leaves the metadata alone, keeps every
      tool key in place, only appends hook calls, and changes only the tools
      under `<identifier>.`. */
  lemma RegisterExportsFrame(reg: Registry, id: string, exports: Value)
    ensures RegisterExports(reg, id, exports).0.metadata == reg.metadata
    ensures Keys(reg.tools) <= Keys(RegisterExports(reg, id, exports).0.tools)
    ensures reg.hooks <= RegisterExports(reg, id, exports).0.hooks
    ensures forall key :: !StartsWith(key, id + ".") ==>
              Lookup(RegisterExports(reg, id, exports).0.tools, key) == Lookup(reg.tools, key)
  {
    var r := RegisterExports(reg, id, exports).0;
    if exports.Dict? {
      var listed := Iterate(Get(exports.entries, "tools", List([])));
      if listed.Some? {
        RegisterToolsKeys(reg.tools, id, listed.value);
        forall key | !StartsWith(key, id + ".")
          ensures Lookup(r.tools, key) == Lookup(reg.tools, key)
        {
          RegisterToolsLookup(reg.tools, id, listed.value, key);
          if LastTool(id, listed.value, key).Some? {
            ToolKeyPrefix(id, LastTool(id, listed.value, key).value.name);
          }
        }
      }
    }
  }

  /** The init hook runs once per loaded plugin, after its tools are
      registered: the tool keys it sees include every callable of `tools`. */
  lemma HookAfterTools(reg: Registry, id: string, m: Module, host: Host,
                       entries: Entries, items: seq<Value>, f: Function)
    requires Passes(m, host) && m.exports == Some(Dict(entries))
    requires Get(entries, "tools", List([])) == List(items)
    requires Get(entries, "init_function", NoneValue) == Callable(f)
    ensures AdmitModule(reg, id, m, host).1
    ensures AdmitModule(reg, id, m, host).0.hooks ==
              reg.hooks + [HookCall(id, Keys(AdmitModule(reg, id, m, host).0.tools), f.raises)]
    ensures forall g :: Callable(g) in items ==> ToolKey(id, g.name) in Keys(AdmitModule(reg, id, m, host).0.tools)
  {
    var tools := RegisterTools(reg.tools, id, items);
    assert AdmitModule(reg, id, m, host).0.tools == tools;
    forall g | Callable(g) in items
      ensures ToolKey(id, g.name) in Keys(tools)
    {
      RegisterToolsLookup(reg.tools, id, items, ToolKey(id, g.name));
      LastToolFinds(id, items, g);
    }
  }

  /** Every callable in the list is found under its qualified key. */
  lemma {:induction false} LastToolFinds(id: string, items: seq<Value>, g: Function)
    requires Callable(g) in items
    ensures LastTool(id, items, ToolKey(id, g.name)).Some?
    decreases |items|
  {
    var last := items[|items| - 1];
    if !(last.Callable? && ToolKey(id, last.f.name) == ToolKey(id, g.name)) {
      assert last != Callable(g);
      assert Callable(g) in items[..|items| - 1] by {
        var j :| 0 <= j < |items| && items[j] == Callable(g);
        assert items[..|items| - 1][j] == Callable(g);
      }
      LastToolFinds(id, items[..|items| - 1], g);
    }
  }

  /** The file loop only appends keys and hook calls, and counts at most
      one load per file. */
  lemma {:induction false} LoadFilesGrows(reg: Registry, files: seq<FileUnit>, host: Host)
    ensures Keys(reg.tools) <= Keys(LoadFiles(reg, files, host).0.tools)
    ensures Keys(reg.metadata) <= Keys(LoadFiles(reg, files, host).0.metadata)
    ensures reg.hooks <= LoadFiles(reg, files, host).0.hooks
    ensures LoadFiles(reg, files, host).1 <= |files|
    decreases |files|
  {
    if |files| > 0 {
      var before := LoadFiles(reg, files[..|files| - 1], host).0;
      LoadFilesGrows(reg, files[..|files| - 1], host);
      var unit := files[|files| - 1];
      if unit.hasSpec && unit.exec.Executed? {
        AdmitFrame(before, Stem(unit.name), unit.exec.result, host);
      }
    }
  }

  /** The directory loop likewise. */
  lemma {:induction false} LoadDirsGrows(reg: Registry, entries: seq<DirEntry>, host: Host)
    ensures Keys(reg.tools) <= Keys(LoadDirs(reg, entries, host).0.tools)
    ensures Keys(reg.metadata) <= Keys(LoadDirs(reg, entries, host).0.metadata)
    ensures reg.hooks <= LoadDirs(reg, entries, host).0.hooks
    ensures LoadDirs(reg, entries, host).1 <= |entries|
    decreases |entries|
  {
    if |entries| > 0 {
      var before := LoadDirs(reg, entries[..|entries| - 1], host).0;
      LoadDirsGrows(reg, entries[..|entries| - 1], host);
      var entry := entries[|entries| - 1];
      if entry.hasInitFile && entry.exec.Executed? {
        AdmitFrame(before, entry.name, entry.exec.result, host);
      }
    }
  }

  /** A discovery pass never forgets a tool, a plugin or a hook call, and
      reports at most one load per directory entry. */
  lemma LoadAllGrows(reg: Registry, dir: PluginsDirectory, host: Host)
    ensures Keys(reg.tools) <= Keys(LoadAllSpec(reg, dir, host).0.tools)
    ensures Keys(reg.metadata) <= Keys(LoadAllSpec(reg, dir, host).0.metadata)
    ensures reg.hooks <= LoadAllSpec(reg, dir, host).0.hooks
    ensures dir.Present? ==> LoadAllSpec(reg, dir, host).1 <= |dir.files| + |dir.entries|
  {
    if dir.Present? {
      LoadFilesGrows(reg, dir.files, host);
      LoadDirsGrows(LoadFiles(reg, dir.files, host).0, dir.entries, host);
    }
  }

  /** Every single-file plugin the pass reports as loaded is listed
      afterwards under its stem. */
  lemma {:induction false} LoadedFilesListed(reg: Registry, files: seq<FileUnit>, host: Host, i: nat)
    requires i < |files| && !StartsWith(files[i].name, "__")
    requires LoadFile(LoadFiles(reg, files[..i], host).0, files[i], host).1
    ensures Stem(files[i].name) in Keys(LoadFiles(reg, files, host).0.metadata)
    decreases |files|
  {
    var init := files[..|files| - 1];
    if i == |files| - 1 {
      assert init == files[..i];
      var before := LoadFiles(reg, init, host).0;
      AdmitFrame(before, Stem(files[i].name), files[i].exec.result, host);
    } else {
      assert init[..i] == files[..i];
      LoadedFilesListed(reg, init, host, i);
      var unit := files[|files| - 1];
      if !StartsWith(unit.name, "__") && unit.hasSpec && unit.exec.Executed? {
        AdmitFrame(LoadFiles(reg, init, host).0, Stem(unit.name), unit.exec.result, host);
      }
    }
  }

  // ---------------------------------------------------------------------
  // The process-wide module search path (`sys.path`)
  // ---------------------------------------------------------------------

  /** `path.remove(x)` when `x in path`: drop the first occurrence. */
  function RemoveFirst(path: seq<string>, x: string): (r: seq<string>)
    ensures x in path ==> |r| == |path| - 1
    ensures x !in path ==> r == path
    decreases |path|
  {
    if |path| == 0 then []
    else if path[0] == x then path[1..]
    else [path[0]] + RemoveFirst(path[1..], x)
  }

  /** The search path after a package load as written: the plugins
      directory is inserted at the front only when absent, and its first
      occurrence is removed afterwards in every case. */
  function PathAfterLoadAsWritten(path: seq<string>, root: string): seq<string> {
    var during := if root !in path then [root] + path else path;
    if root in during then RemoveFirst(during, root) else during
  }

  /** The search path after a package load when only what the load inserted
      is removed again. */
  function PathAfterLoad(path: seq<string>, root: string): seq<string> {
    var inserted := root !in path;
    var during := if inserted then [root] + path else path;
    if inserted then RemoveFirst(during, root) else during
  }

  /** As written, a package load removes the first occurrence of the
      plugins directory, whether or not the load inserted it. */
  lemma PathAfterLoadIsRemove(path: seq<string>, root: string)
    ensures PathAfterLoadAsWritten(path, root) == RemoveFirst(path, root)
  {
    if root !in path {
      assert ([root] + path)[1..] == path;
    }
  }

  /** The search path after the package loop of `load_all` as written: each
      candidate holding `__init__.py` is one package load. */
  function PathAfterDirs(path: seq<string>, entries: seq<DirEntry>, root: string): seq<string>
    decreases |entries|
  {
    if |entries| == 0 then path
    else
      var before := PathAfterDirs(path, entries[..|entries| - 1], root);
      var entry := entries[|entries| - 1];
      if IsPackageCandidate(entry) && entry.hasInitFile then PathAfterLoadAsWritten(before, root) else before
  }

  /** The search path after `load_all` as written. */
  function PathAfterLoadAll(path: seq<string>, dir: PluginsDirectory, root: string): seq<string> {
    if dir.Missing? then path else PathAfterDirs(path, dir.entries, root)
  }

  /** The package loop never lengthens the search path; it leaves it as it
      was when no package is loaded or the plugins directory was not on it,
      and drops an existing entry as soon as one package is loaded. */
  lemma {:induction false} PathAfterDirsEffect(path: seq<string>, entries: seq<DirEntry>, root: string)
    ensures |PathAfterDirs(path, entries, root)| <= |path|
    ensures root !in path ==> PathAfterDirs(path, entries, root) == path
    ensures (forall i :: 0 <= i < |entries| ==> !(IsPackageCandidate(entries[i]) && entries[i].hasInitFile))
            ==> PathAfterDirs(path, entries, root) == path
    ensures root in path && (exists i :: 0 <= i < |entries| && IsPackageCandidate(entries[i]) && entries[i].hasInitFile)
            ==> |PathAfterDirs(path, entries, root)| < |path|
    decreases |entries|
  {
    if |entries| > 0 {
      var init := entries[..|entries| - 1];
      var before := PathAfterDirs(path, init, root);
      PathAfterDirsEffect(path, init, root);
      PathAfterLoadIsRemove(before, root);
      var entry := entries[|entries| - 1];
      assert forall i :: 0 <= i < |init| ==> init[i] == entries[i];
      if IsPackageCandidate(entry) && entry.hasInitFile {
        if root in path && forall i :: 0 <= i < |init| ==> !(IsPackageCandidate(init[i]) && init[i].hasInitFile) {
          assert before == path;
        }
      } else if root in path && (exists i :: 0 <= i < |entries| && IsPackageCandidate(entries[i]) && entries[i].hasInitFile) {
        var i :| 0 <= i < |entries| && IsPackageCandidate(entries[i]) && entries[i].hasInitFile;
        assert i < |init| && init[i] == entries[i];
      }
    }
  }

  /** As written, a plugins directory that was already on the search path
      before the load is gone from it afterwards. */
  lemma PathAsWrittenDropsExistingEntry(path: seq<string>, root: string)
    requires root in path
    ensures |PathAfterLoadAsWritten(path, root)| == |path| - 1
    ensures PathAfterLoadAsWritten(path, root) != path
  {
  }

  /** Concrete instance: `sys.path == [root]` before a package load. */
  lemma PathAsWrittenExample()
    ensures PathAfterLoadAsWritten(["/srv/app/plugins"], "/srv/app/plugins") == []
  {
  }

  /** Removing only what was inserted leaves the search path as it was,
      whether or not the directory was on it before. */
  lemma PathRestored(path: seq<string>, root: string)
    ensures PathAfterLoad(path, root) == path
    ensures root !in path ==> PathAfterLoadAsWritten(path, root) == path
  {
  }

  /** `sys.path`, the one piece of process-wide state a package load touches. */
  class SearchPath {
    var entries: seq<string>

    constructor (entries: seq<string>)
      ensures this.entries == entries
    {
      this.entries := entries;
    }

    /** `if root not in sys.path: sys.path.insert(0, root)`. */
    method InsertIfAbsent(root: string) returns (inserted: bool)
      modifies this
      ensures inserted == (root !in old(entries))
      ensures entries == if inserted then [root] + old(entries) else old(entries)
    {
      inserted := root !in entries;
      if inserted {
        entries := [root] + entries;
      }
    }

    /** The `finally` clause as written: `if root in sys.path: sys.path.remove(root)`. */
    method RemoveAsWritten(root: string)
      modifies this
      ensures entries == RemoveFirst(old(entries), root)
    {
      if root in entries {
        entries := RemoveFirst(entries, root);
      }
    }

    /** The `finally` clause removing only what `InsertIfAbsent` inserted. */
    method Release(root: string, inserted: bool)
      modifies this
      ensures entries == if inserted then RemoveFirst(old(entries), root) else old(entries)
    {
      if inserted {
        entries := RemoveFirst(entries, root);
      }
    }
  }

  // ---------------------------------------------------------------------
  // The registry object (`class Plugins`)
  // ---------------------------------------------------------------------

  class Plugins {
    /** `self.tools`: qualified tool name to function, insertion-ordered. */
    var tools: seq<(string, Function)>
    /** `self.metadata`: plugin identifier to its `_module_info`. */
    var metadata: seq<(string, Entries)>
    /** The init hooks called so far, in call order. */
    var hooks: seq<HookCall>
    /** `str(self.plugins_dir.absolute())`, the entry put on `sys.path`. */
    const pluginsDir: string
    /** The interpreter and operating system the registry runs on. */
    const host: Host

    function State(): Registry
      reads this
    {
      Registry(tools, metadata, hooks)
    }

    /** Both maps are dicts: no key twice. */
    ghost predicate Valid()
      reads this
    {
      UniqueKeys(tools) && UniqueKeys(metadata)
    }

    /** `Plugins(plugins_dir)`: start empty and run one discovery pass. */
    constructor (pluginsDir: string, host: Host, dir: PluginsDirectory, sys: SearchPath)
      modifies sys
      ensures Valid()
      ensures State() == LoadAllSpec(Registry([], [], []), dir, host).0
      ensures sys.entries == PathAfterLoadAll(old(sys.entries), dir, pluginsDir)
    {
      this.pluginsDir := pluginsDir;
      this.host := host;
      tools := [];
      metadata := [];
      hooks := [];
      new;
      var _ := LoadAll(dir, sys);
    }

    /** The registration steps of `load_plugin` and `load_package_plugin`
        once the code has run. */
    method Admit(id: string, m: Module) returns (ok: bool)
      requires Valid()
      modifies this
      ensures Valid()
      ensures State() == AdmitModule(old(State()), id, m, host).0
      ensures ok == AdmitModule(old(State()), id, m, host).1
    {
      if !Passes(m, host) {
        return false;
      }
      metadata := Put(metadata, id, m.info.GetOr([]));
      ok := Register(id, m.exports.GetOr(Dict([])));
    }

    /** The tool loop and the init hook call. */
    method Register(id: string, exports: Value) returns (ok: bool)
      requires Valid()
      modifies this
      ensures Valid()
      ensures State() == RegisterExports(old(State()), id, exports).0
      ensures ok == RegisterExports(old(State()), id, exports).1
    {
      if !exports.Dict? {
        return false;
      }
      var listed := Iterate(Get(exports.entries, "tools", List([])));
      if listed.None? {
        return false;
      }
      var items := listed.value;
      for i := 0 to |items|
        invariant tools == RegisterTools(old(tools), id, items[..i])
        invariant UniqueKeys(tools)
        invariant metadata == old(metadata) && hooks == old(hooks)
      {
        assert items[..i + 1][..i] == items[..i];
        if items[i].Callable? {
          tools := Put(tools, ToolKey(id, items[i].f.name), items[i].f);
        }
      }
      assert items[..|items|] == items;
      hooks := hooks + HookCalls(id, tools, Get(exports.entries, "init_function", NoneValue));
      ok := true;
    }

    /** `load_plugin(plugin_file)`. */
    method LoadPlugin(unit: FileUnit) returns (ok: bool)
      requires Valid()
      modifies this
      ensures Valid()
      ensures State() == LoadFile(old(State()), unit, host).0
      ensures ok == LoadFile(old(State()), unit, host).1
    {
      if !unit.hasSpec || unit.exec.Raised? {
        return false;
      }
      ok := Admit(Stem(unit.name), unit.exec.result);
    }

    /** `load_package_plugin(plugin_dir)`: the plugins directory is on the
        search path while the package is imported; the `finally` clause then
        removes its first occurrence, on success and on failure alike. */
    method LoadPackagePlugin(entry: DirEntry, sys: SearchPath) returns (ok: bool)
      requires Valid()
      modifies this, sys
      ensures Valid()
      ensures State() == LoadDir(old(State()), entry, host).0
      ensures ok == LoadDir(old(State()), entry, host).1
      ensures sys.entries == if entry.hasInitFile then PathAfterLoadAsWritten(old(sys.entries), pluginsDir) else old(sys.entries)
    {
      if !entry.hasInitFile {
        return false;
      }
      var _ := sys.InsertIfAbsent(pluginsDir);
      assert pluginsDir in sys.entries;
      var outcome := entry.exec;
      sys.RemoveAsWritten(pluginsDir);
      if outcome.Raised? {
        return false;
      }
      ok := Admit(entry.name, outcome.result);
    }

    /** `load_all()`: the number of plugins loaded. */
    method LoadAll(dir: PluginsDirectory, sys: SearchPath) returns (loaded: nat)
      requires Valid()
      modifies this, sys
      ensures Valid()
      ensures State() == LoadAllSpec(old(State()), dir, host).0
      ensures loaded == LoadAllSpec(old(State()), dir, host).1
      ensures sys.entries == PathAfterLoadAll(old(sys.entries), dir, pluginsDir)
    {
      if dir.Missing? {
        return 0;
      }
      var fromFiles := LoadFileUnits(dir.files);
      var fromDirs := LoadPackages(dir.entries, sys);
      loaded := fromFiles + fromDirs;
    }

    /** The first loop of `load_all`: the `*.py` files. */
    method LoadFileUnits(files: seq<FileUnit>) returns (loaded: nat)
      requires Valid()
      modifies this
      ensures Valid()
      ensures State() == LoadFiles(old(State()), files, host).0
      ensures loaded == LoadFiles(old(State()), files, host).1
    {
      loaded := 0;
      for i := 0 to |files|
        invariant Valid()
        invariant State() == LoadFiles(old(State()), files[..i], host).0
        invariant loaded == LoadFiles(old(State()), files[..i], host).1
      {
        assert files[..i + 1][..i] == files[..i];
        if !StartsWith(files[i].name, "__") {
          var ok := LoadPlugin(files[i]);
          if ok {
            loaded := loaded + 1;
          }
        }
      }
      assert files[..|files|] == files;
    }

    /** The second loop of `load_all`: the package directories. */
    method LoadPackages(entries: seq<DirEntry>, sys: SearchPath) returns (loaded: nat)
      requires Valid()
      modifies this, sys
      ensures Valid()
      ensures State() == LoadDirs(old(State()), entries, host).0
      ensures loaded == LoadDirs(old(State()), entries, host).1
      ensures sys.entries == PathAfterDirs(old(sys.entries), entries, pluginsDir)
    {
      loaded := 0;
      for i := 0 to |entries|
        invariant Valid()
        invariant sys.entries == PathAfterDirs(old(sys.entries), entries[..i], pluginsDir)
        invariant State() == LoadDirs(old(State()), entries[..i], host).0
        invariant loaded == LoadDirs(old(State()), entries[..i], host).1
      {
        assert entries[..i + 1][..i] == entries[..i];
        if IsPackageCandidate(entries[i]) {
          var ok := LoadPackagePlugin(entries[i], sys);
          if ok {
            loaded := loaded + 1;
          }
        }
      }
      assert entries[..|entries|] == entries;
    }

    /** `get_tool(name)`. */
    function GetTool(name: string): (r: Option<Function>)
      reads this
      ensures r.None? <==> name !in ListTools()
      ensures r.Some? ==> (name, r.value) in tools
    {
      Lookup(tools, name)
    }

    /** `list_tools()`: the qualified names in insertion order. */
    function ListTools(): (r: seq<string>)
      reads this
      ensures |r| == |tools|
      ensures forall i :: 0 <= i < |tools| ==> r[i] == tools[i].0
    {
      Keys(tools)
    }

    /** `get_all_tools()`: the functions in the same order. */
    function GetAllTools(): (r: seq<Function>)
      reads this
      ensures |r| == |tools|
      ensures forall i :: 0 <= i < |tools| ==> r[i] == tools[i].1
    {
      Values(tools)
    }

    /** `list_plugins()`: a copy of the metadata map. */
    function ListPlugins(): (r: seq<(string, Entries)>)
      reads this
      ensures Keys(r) == Keys(metadata)
      ensures forall id :: Lookup(r, id) == Lookup(metadata, id)
    {
      metadata
    }

    /** The three tool queries agree: the i-th listed name looks up the i-th
        listed function. */
    lemma ToolQueriesAgree()
      requires Valid()
      ensures |ListTools()| == |GetAllTools()|
      ensures forall i :: 0 <= i < |ListTools()| ==> GetTool(ListTools()[i]) == Some(GetAllTools()[i])
    {
      forall i | 0 <= i < |ListTools()|
        ensures GetTool(ListTools()[i]) == Some(GetAllTools()[i])
      {
        LookupAt(tools, i);
      }
    }
  }
}
