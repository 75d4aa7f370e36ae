/** The environment-variable aggregator of `ldagent/env_utils.py`: it merges
    the `environment_variables` every loaded plugin declares into one
    insertion-ordered map and renders that map as a `.env` template, a list
    of missing required variables, a per-plugin summary and a list of
    naming conflicts.

    The registry is seen through `list_plugins()`: identifier to
    `_module_info`, in the registry's order.  `os.getenv` is an injected
    map.  Writing the template file is not modelled; the text returned is
    the text that would be written. */
module EnvUtils {

  import opened Wrappers
  import opened Text
  import opened Assoc
  import opened PyValues

  /** Variable name to its merged specification. */
  type EnvVars = seq<(string, Entries)>

  // ---------------------------------------------------------------------
  // Merging (`get_all_env_vars`)
  // ---------------------------------------------------------------------

  /** `{**var_info, "plugin": id, "plugin_display_name": metadata.get("name", id)}`. */
  function MergeVar(info: Entries, pid: string, md: Entries): (r: Entries)
    ensures Keys(info) <= Keys(r)
  {
    Put(Put(info, "plugin", Str(pid)), "plugin_display_name", Get(md, "name", Str(pid)))
  }

  /** A merged specification names its plugin and the plugin's display name
      (its `name`, or the identifier), and keeps every other field. */
  lemma MergeVarLookup(info: Entries, pid: string, md: Entries, k: string)
    ensures k == "plugin" ==> Lookup(MergeVar(info, pid, md), k) == Some(Str(pid))
    ensures k == "plugin_display_name" ==> Lookup(MergeVar(info, pid, md), k) == Some(Get(md, "name", Str(pid)))
    ensures k != "plugin" && k != "plugin_display_name" ==> Lookup(MergeVar(info, pid, md), k) == Lookup(info, k)
  {
    PutLookup(info, "plugin", Str(pid), k);
    PutLookup(Put(info, "plugin", Str(pid)), "plugin_display_name", Get(md, "name", Str(pid)), k);
  }

  /** The entries of a dict value (empty for any other value). */
  function EntriesOf(v: Value): Entries {
    if v.Dict? then v.entries else []
  }

  /** The merged entries one plugin contributes, in its declaration order;
      `None` when its `environment_variables` is not a dict (`.items()`
      raises) or one of its specifications is not a dict (`**` raises). */
  function Declarations(pid: string, md: Entries): (r: Option<EnvVars>)
    ensures r.Some? ==> Keys(r.value) == Keys(EntriesOf(Get(md, "environment_variables", Dict([]))))
  {
    var declared := Get(md, "environment_variables", Dict([]));
    if !declared.Dict? then None
    else if exists i :: 0 <= i < |declared.entries| && !declared.entries[i].1.Dict? then None
    else Some(MergedPrefix(declared.entries, |declared.entries|, pid, md))
  }

  /** The merged specifications of the first `k` declared variables. */
  function MergedPrefix(entries: Entries, k: nat, pid: string, md: Entries): (r: EnvVars)
    requires k <= |entries|
    ensures |r| == k
  {
    seq(k, i requires 0 <= i < k => (entries[i].0, MergeVar(EntriesOf(entries[i].1), pid, md)))
  }

  /** Every plugin's declarations, plugin after plugin. */
  function AllDeclarations(plugins: seq<(string, Entries)>): Option<EnvVars>
    decreases |plugins|
  {
    if |plugins| == 0 then Some([])
    else match AllDeclarations(plugins[..|plugins| - 1])
      case None => None
      case Some(before) =>
        match Declarations(plugins[|plugins| - 1].0, plugins[|plugins| - 1].1)
        case None => None
        case Some(these) => Some(before + these)
  }

  /** Storing a sequence of declarations one after the other. */
  function PutAll(m: EnvVars, decls: EnvVars): (r: EnvVars)
    ensures UniqueKeys(m) ==> UniqueKeys(r)
    decreases |decls|
  {
    if |decls| == 0 then m
    else Put(PutAll(m, decls[..|decls| - 1]), decls[|decls| - 1].0, decls[|decls| - 1].1)
  }

  /** `get_all_env_vars()`; `None` where it raises. */
  function AllEnvVars(plugins: seq<(string, Entries)>): (r: Option<EnvVars>)
    ensures r.Some? ==> UniqueKeys(r.value)
  {
    match AllDeclarations(plugins)
    case None => None
    case Some(decls) => Some(PutAll([], decls))
  }

  /** Reference definition: the specification the last declaration of
      `name` gives it. */
  function LastDeclared(decls: EnvVars, name: string): (r: Option<Entries>)
    ensures r.None? <==> name !in Keys(decls)
    ensures r.Some? ==> (name, r.value) in decls
    decreases |decls|
  {
    if |decls| == 0 then None
    else if decls[|decls| - 1].0 == name then Some(decls[|decls| - 1].1)
    else
      var r := LastDeclared(decls[..|decls| - 1], name);
      KeysInit(decls);
      r
  }

  lemma {:induction false} PutAllAppend(m: EnvVars, a: EnvVars, b: EnvVars)
    ensures PutAll(m, a + b) == PutAll(PutAll(m, a), b)
    decreases |b|
  {
    if |b| == 0 {
      assert a + b == a;
    } else {
      assert (a + b)[..|a + b| - 1] == a + b[..|b| - 1];
      PutAllAppend(m, a, b[..|b| - 1]);
    }
  }

  /** Each variable holds the specification of its last declaration. */
  lemma {:induction false} PutAllLookup(m: EnvVars, decls: EnvVars, name: string)
    ensures Lookup(PutAll(m, decls), name) ==
              if name in Keys(decls) then LastDeclared(decls, name) else Lookup(m, name)
    decreases |decls|
  {
    if |decls| > 0 {
      var init := decls[..|decls| - 1];
      var (k, v) := decls[|decls| - 1];
      PutLookup(PutAll(m, init), k, v, name);
      KeysInit(decls);
      if k != name {
        PutAllLookup(m, init, name);
        assert name in Keys(decls) <==> name in Keys(init);
      }
    }
  }

  /** Existing keys keep their positions; the keys are those stored before
      and those declared. */
  lemma {:induction false} PutAllKeys(m: EnvVars, decls: EnvVars)
    ensures Keys(m) <= Keys(PutAll(m, decls))
    ensures forall name :: name in Keys(PutAll(m, decls)) <==> name in Keys(m) || name in Keys(decls)
    decreases |decls|
  {
    if |decls| > 0 {
      PutAllKeys(m, decls[..|decls| - 1]);
      KeysInit(decls);
    }
  }

  /** The merged map holds every declared variable and nothing else, each
      with the specification its last declaration gives it. */
  lemma MergedIsLastDeclaration(plugins: seq<(string, Entries)>, name: string)
    requires AllEnvVars(plugins).Some?
    ensures name in Keys(AllEnvVars(plugins).value) <==> name in Keys(AllDeclarations(plugins).value)
    ensures Lookup(AllEnvVars(plugins).value, name) == LastDeclared(AllDeclarations(plugins).value, name)
  {
    PutAllKeys([], AllDeclarations(plugins).value);
    PutAllLookup([], AllDeclarations(plugins).value, name);
  }

  /** Where every name is declared once, its declaration is its last. */
  lemma LastOfUnique(decls: EnvVars, j: nat)
    requires UniqueKeys(decls) && j < |decls|
    ensures LastDeclared(decls, decls[j].0) == Some(decls[j].1)
  {
    var last := LastDeclared(decls, decls[j].0).value;
    var k :| 0 <= k < |decls| && decls[k] == (decls[j].0, last);
    assert k == j;
  }

  /** Within one plugin, a variable declared once holds its merged
      specification. */
  lemma DeclaredOnce(pid: string, md: Entries, name: string, info: Entries)
    requires Declarations(pid, md).Some?
    requires UniqueKeys(EntriesOf(Get(md, "environment_variables", Dict([]))))
    requires (name, Dict(info)) in EntriesOf(Get(md, "environment_variables", Dict([])))
    ensures name in Keys(Declarations(pid, md).value)
    ensures LastDeclared(Declarations(pid, md).value, name) == Some(MergeVar(info, pid, md))
  {
    var declared := EntriesOf(Get(md, "environment_variables", Dict([])));
    var these := MergedPrefix(declared, |declared|, pid, md);
    assert Declarations(pid, md).value == these;
    var j :| 0 <= j < |declared| && declared[j] == (name, Dict(info));
    assert these[j] == (name, MergeVar(info, pid, md));
    assert Keys(these)[j] == name;
    assert UniqueKeys(these) by {
      forall a, b | 0 <= a < b < |these| ensures these[a].0 != these[b].0 {
        assert these[a].0 == declared[a].0 && these[b].0 == declared[b].0;
      }
    }
    LastOfUnique(these, j);
  }

  /** When a later plugin declares a variable again, its specification wins,
      and the variable keeps the position its first declaration gave it. */
  lemma LaterPluginWins(plugins: seq<(string, Entries)>, pid: string, md: Entries, name: string, info: Entries)
    requires AllEnvVars(plugins + [(pid, md)]).Some?
    requires UniqueKeys(EntriesOf(Get(md, "environment_variables", Dict([]))))
    requires (name, Dict(info)) in EntriesOf(Get(md, "environment_variables", Dict([])))
    ensures AllEnvVars(plugins).Some?
    ensures Keys(AllEnvVars(plugins).value) <= Keys(AllEnvVars(plugins + [(pid, md)]).value)
    ensures Lookup(AllEnvVars(plugins + [(pid, md)]).value, name) == Some(MergeVar(info, pid, md))
  {
    var all := plugins + [(pid, md)];
    assert all[..|all| - 1] == plugins;
    var before := AllDeclarations(plugins).value;
    var these := Declarations(pid, md).value;
    assert AllDeclarations(all).value == before + these;
    PutAllAppend([], before, these);
    PutAllKeys(PutAll([], before), these);
    PutAllLookup(PutAll([], before), these, name);
    DeclaredOnce(pid, md, name, info);
  }

  // ---------------------------------------------------------------------
  // The `.env` template (`generate_env_template`)
  // ---------------------------------------------------------------------

  /** A comment rule: `#`, a space and 77 copies of `c`. */
  function Rule(c: char): string {
    "# " + seq(77, _ => c)
  }

  /** The fixed seven-line header. */
  function Header(): (r: seq<string>)
    ensures |r| == 7
  {
    [Rule('='), "# PLUGIN ENVIRONMENT VARIABLES TEMPLATE", Rule('='),
     "# This file was auto-generated from plugin metadata.",
     "# Copy to .env and customize as needed.", "#", ""]
  }

  function PluginOf(info: Entries): Value {
    Get(info, "plugin", NoneValue)
  }

  function DisplayOf(info: Entries): Value {
    Get(info, "plugin_display_name", NoneValue)
  }

  predicate Required(info: Entries) {
    Truthy(Get(info, "required", Bool(false)))
  }

  /** The three banner lines introducing a plugin. */
  function Banner(info: Entries): (r: seq<string>)
    ensures |r| == 3
  {
    [Rule('-'), "# " + Show(DisplayOf(info)) + " (" + Show(PluginOf(info)) + ")", Rule('-')]
  }

  /** `# <description>`, `No description` when there is none. */
  function DescriptionLine(info: Entries): string {
    "# " + Show(Get(info, "description", Str("No description")))
  }

  /** `# REQUIRED`, or `# Optional (default: <default>)` with `None` when
      there is no default. */
  function StatusLine(info: Entries): string {
    if Required(info) then "# REQUIRED"
    else "# Optional (default: " + Show(Get(info, "default", Str("None"))) + ")"
  }

  /** `NAME=` for a required variable, the commented-out
      `# NAME=<default>` (empty default) otherwise. */
  function AssignmentLine(name: string, info: Entries): string {
    if Required(info) then name + "="
    else "# " + name + "=" + Show(Get(info, "default", Str("")))
  }

  /** The four lines documenting one variable, the last one empty. */
  function VarLines(name: string, info: Entries): seq<string> {
    [DescriptionLine(info), StatusLine(info), AssignmentLine(name, info), ""]
  }

  /** The plugins of the variables in `vars`. */
  function PluginsSeen(vars: EnvVars): set<Value> {
    set i | 0 <= i < |vars| :: PluginOf(vars[i].1)
  }

  lemma PluginsSeenSnoc(vars: EnvVars)
    requires |vars| > 0
    ensures PluginsSeen(vars) == PluginsSeen(vars[..|vars| - 1]) + {PluginOf(vars[|vars| - 1].1)}
  {
    var init := vars[..|vars| - 1];
    forall p | p in PluginsSeen(vars) ensures p in PluginsSeen(init) + {PluginOf(vars[|vars| - 1].1)} {
      var i :| 0 <= i < |vars| && PluginOf(vars[i].1) == p;
      if i < |vars| - 1 {
        assert PluginOf(init[i].1) == p;
      }
    }
    forall p | p in PluginsSeen(init) ensures p in PluginsSeen(vars) {
      var i :| 0 <= i < |init| && PluginOf(init[i].1) == p;
      assert PluginOf(vars[i].1) == p;
    }
  }

  /** The template lines for the variables in merged order: the header,
      then per variable its plugin's banner if the plugin has not been seen
      yet, then its four lines. */
  function TemplateLines(vars: EnvVars): (r: seq<string>)
    ensures |r| >= |Header()| + 4 * |vars|
    decreases |vars|
  {
    if |vars| == 0 then Header()
    else
      var init := vars[..|vars| - 1];
      var (name, info) := vars[|vars| - 1];
      TemplateLines(init)
      + (if PluginOf(info) in PluginsSeen(init) then [] else Banner(info))
      + VarLines(name, info)
  }

  lemma TemplateLinesSnoc(vars: EnvVars, i: nat)
    requires i < |vars|
    ensures PluginsSeen(vars[..i + 1]) == PluginsSeen(vars[..i]) + {PluginOf(vars[i].1)}
    ensures TemplateLines(vars[..i + 1]) ==
              TemplateLines(vars[..i])
              + (if PluginOf(vars[i].1) in PluginsSeen(vars[..i]) then [] else Banner(vars[i].1))
              + VarLines(vars[i].0, vars[i].1)
  {
    assert vars[..i + 1][..i] == vars[..i];
    PluginsSeenSnoc(vars[..i + 1]);
  }

  /** The template is the header, one banner per plugin and four lines per
      variable. */
  lemma {:induction false} TemplateShape(vars: EnvVars)
    ensures |TemplateLines(vars)| == 7 + 4 * |vars| + 3 * |PluginsSeen(vars)|
    decreases |vars|
  {
    if |vars| == 0 {
      assert PluginsSeen(vars) == {};
    } else {
      var init := vars[..|vars| - 1];
      TemplateShape(init);
      PluginsSeenSnoc(vars);
    }
  }

  /** The template starts with the header. */
  lemma {:induction false} TemplateStartsWithHeader(vars: EnvVars)
    ensures |TemplateLines(vars)| >= 7 && TemplateLines(vars)[..7] == Header()
    decreases |vars|
  {
    if |vars| > 0 {
      TemplateStartsWithHeader(vars[..|vars| - 1]);
    }
  }

  /** The banner of a variable's plugin is emitted right before the
      variable's lines exactly when no earlier variable belongs to it. */
  lemma BannerOnFirstVariable(vars: EnvVars, i: nat)
    requires i < |vars|
    ensures TemplateLines(vars[..i + 1]) ==
              TemplateLines(vars[..i])
              + (if exists j :: 0 <= j < i && PluginOf(vars[j].1) == PluginOf(vars[i].1) then [] else Banner(vars[i].1))
              + VarLines(vars[i].0, vars[i].1)
  {
    var prefix := vars[..i + 1];
    assert prefix[..i] == vars[..i];
    assert PluginOf(vars[i].1) in PluginsSeen(vars[..i]) <==>
           exists j :: 0 <= j < i && PluginOf(vars[j].1) == PluginOf(vars[i].1) by {
      if exists j :: 0 <= j < i && PluginOf(vars[j].1) == PluginOf(vars[i].1) {
        var j :| 0 <= j < i && PluginOf(vars[j].1) == PluginOf(vars[i].1);
        assert PluginOf(vars[..i][j].1) == PluginOf(vars[i].1);
      }
    }
  }

  // ---------------------------------------------------------------------
  // Missing required variables (`validate_env_vars`)
  // ---------------------------------------------------------------------

  /** `not os.getenv(name)`: unset or empty. */
  predicate Unset(env: map<string, string>, name: string) {
    name !in env || env[name] == ""
  }

  /** The required variables that are unset, in merged order. */
  function MissingEntries(vars: EnvVars, env: map<string, string>): (r: EnvVars)
    ensures |r| <= |vars|
    ensures forall e :: e in r ==> e in vars && Required(e.1) && Unset(env, e.0)
    decreases |vars|
  {
    if |vars| == 0 then []
    else
      var before := MissingEntries(vars[..|vars| - 1], env);
      var last := vars[|vars| - 1];
      if Required(last.1) && Unset(env, last.0) then before + [last] else before
  }

  function MissingMessage(name: string, info: Entries): string {
    name + " (required by " + Show(DisplayOf(info)) + ")"
  }

  function MissingMessages(missing: EnvVars): seq<string> {
    seq(|missing|, i requires 0 <= i < |missing| => MissingMessage(missing[i].0, missing[i].1))
  }

  lemma MissingMessagesSnoc(missing: EnvVars, e: (string, Entries))
    ensures MissingMessages(missing + [e]) == MissingMessages(missing) + [MissingMessage(e.0, e.1)]
  {
  }

  /** A variable is reported exactly when it is required and unset. */
  lemma {:induction false} MissingExactly(vars: EnvVars, env: map<string, string>, name: string)
    requires UniqueKeys(vars)
    ensures name in Keys(MissingEntries(vars, env)) <==>
              name in Keys(vars) && Required(Lookup(vars, name).value) && Unset(env, name)
    decreases |vars|
  {
    if |vars| > 0 {
      var init := vars[..|vars| - 1];
      var last := vars[|vars| - 1];
      MissingExactly(init, env, name);
      assert vars == init + [last];
      KeysSnoc(init, last);
      var before := MissingEntries(init, env);
      var reported := Required(last.1) && Unset(env, last.0);
      if reported {
        KeysSnoc(before, last);
      }
      assert name in Keys(MissingEntries(vars, env)) <==> name in Keys(before) || (reported && name == last.0);
      if name in Keys(init) {
        var i := IndexOfKey(init, name);
        assert vars[i] == init[i];
        LookupAt(vars, i);
        LookupAt(init, i);
        assert name != last.0;
        assert Lookup(vars, name) == Lookup(init, name);
      } else if name == last.0 {
        LookupAt(vars, |vars| - 1);
        assert name !in Keys(before);
      } else {
        assert name !in Keys(vars);
      }
    }
  }

  /** Setting a variable to a non-empty value removes it from the report. */
  lemma SettingClears(vars: EnvVars, env: map<string, string>, name: string, value: string)
    requires UniqueKeys(vars) && value != ""
    ensures name !in Keys(MissingEntries(vars, env[name := value]))
  {
    MissingExactly(vars, env[name := value], name);
  }

  // ---------------------------------------------------------------------
  // The per-plugin summary (`get_plugin_env_summary`)
  // ---------------------------------------------------------------------

  /** The variables of one display name, in merged order. */
  datatype Group = Group(display: Value, members: EnvVars)

  /** Whether a value can be a dict key (lists and dicts cannot). */
  predicate Hashable(v: Value) {
    !v.List? && !v.Dict?
  }

  function GroupIndex(groups: seq<Group>, display: Value): (r: Option<nat>)
    ensures r.Some? ==> r.value < |groups| && groups[r.value].display == display
    ensures r.None? ==> forall k :: 0 <= k < |groups| ==> groups[k].display != display
    decreases |groups|
  {
    if |groups| == 0 then None
    else if groups[|groups| - 1].display == display then Some(|groups| - 1)
    else GroupIndex(groups[..|groups| - 1], display)
  }

  /** `plugin_vars` after one more variable: appended to its display name's
      group, which is created at the end when new. */
  function AddToGroups(groups: seq<Group>, item: (string, Entries)): seq<Group> {
    var display := DisplayOf(item.1);
    match GroupIndex(groups, display)
    case Some(k) => groups[k := Group(display, groups[k].members + [item])]
    case None => groups + [Group(display, [item])]
  }

  function Groups(vars: EnvVars): (r: seq<Group>)
    ensures |r| <= |vars|
    ensures |vars| > 0 ==> |r| > 0
    decreases |vars|
  {
    if |vars| == 0 then [] else AddToGroups(Groups(vars[..|vars| - 1]), vars[|vars| - 1])
  }

  function TotalMembers(groups: seq<Group>): nat
    decreases |groups|
  {
    if |groups| == 0 then 0 else TotalMembers(groups[..|groups| - 1]) + |groups[|groups| - 1].members|
  }

  lemma {:induction false} TotalMembersUpdate(groups: seq<Group>, k: nat, g: Group)
    requires k < |groups|
    ensures TotalMembers(groups[k := g]) == TotalMembers(groups) - |groups[k].members| + |g.members|
    decreases |groups|
  {
    var n := |groups| - 1;
    if k < n {
      assert groups[k := g][..n] == groups[..n][k := g];
      TotalMembersUpdate(groups[..n], k, g);
    } else {
      assert groups[k := g][..n] == groups[..n];
    }
  }

  /** Each display name heads one group only. */
  lemma {:induction false} GroupsDistinct(vars: EnvVars)
    ensures forall a, b :: 0 <= a < b < |Groups(vars)| ==> Groups(vars)[a].display != Groups(vars)[b].display
    decreases |vars|
  {
    if |vars| > 0 {
      var init := vars[..|vars| - 1];
      GroupsDistinct(init);
      var before := Groups(init);
      var display := DisplayOf(vars[|vars| - 1].1);
      match GroupIndex(before, display)
      case Some(k) =>
        assert forall a :: 0 <= a < |before| ==> Groups(vars)[a].display == before[a].display;
      case None =>
        assert Groups(vars) == before + [Group(display, [vars[|vars| - 1]])];
    }
  }

  /** Every member of a group is one of the variables and carries the
      group's display name. */
  lemma {:induction false} GroupsMembers(vars: EnvVars)
    ensures forall a, e :: 0 <= a < |Groups(vars)| && e in Groups(vars)[a].members ==>
              e in vars && DisplayOf(e.1) == Groups(vars)[a].display
    decreases |vars|
  {
    if |vars| > 0 {
      var init := vars[..|vars| - 1];
      var item := vars[|vars| - 1];
      GroupsMembers(init);
      var before := Groups(init);
      var after := Groups(vars);
      var display := DisplayOf(item.1);
      assert item in vars;
      forall a, e | 0 <= a < |after| && e in after[a].members
        ensures e in vars && DisplayOf(e.1) == after[a].display
      {
        match GroupIndex(before, display)
        case Some(k) =>
          if a == k {
            assert after[a].members == before[a].members + [item];
            if e != item {
              assert e in before[a].members;
              assert e in init;
            }
          } else {
            assert after[a] == before[a];
            assert e in init;
          }
        case None =>
          if a == |before| {
            assert after[a] == Group(display, [item]);
          } else {
            assert after[a] == before[a];
            assert e in init;
          }
      }
    }
  }

  /** The groups hold as many members as there are variables. */
  lemma {:induction false} GroupsTotal(vars: EnvVars)
    ensures TotalMembers(Groups(vars)) == |vars|
    decreases |vars|
  {
    if |vars| > 0 {
      var init := vars[..|vars| - 1];
      var item := vars[|vars| - 1];
      GroupsTotal(init);
      var before := Groups(init);
      match GroupIndex(before, DisplayOf(item.1))
      case Some(k) =>
        TotalMembersUpdate(before, k, Group(DisplayOf(item.1), before[k].members + [item]));
      case None =>
        assert (before + [Group(DisplayOf(item.1), [item])])[..|before|] == before;
    }
  }

  /** Reference definition: the variables bearing display name `d`, in
      merged order. */
  function WithDisplay(vars: EnvVars, d: Value): EnvVars
    decreases |vars|
  {
    if |vars| == 0 then []
    else WithDisplay(vars[..|vars| - 1], d) + (if DisplayOf(vars[|vars| - 1].1) == d then [vars[|vars| - 1]] else [])
  }

  lemma {:induction false} WithDisplayNone(vars: EnvVars, d: Value)
    requires forall i :: 0 <= i < |vars| ==> DisplayOf(vars[i].1) != d
    ensures WithDisplay(vars, d) == []
    decreases |vars|
  {
    if |vars| > 0 {
      WithDisplayNone(vars[..|vars| - 1], d);
    }
  }

  lemma {:induction false} WithDisplayHas(vars: EnvVars, i: nat)
    requires i < |vars|
    ensures vars[i] in WithDisplay(vars, DisplayOf(vars[i].1))
    decreases |vars|
  {
    if i < |vars| - 1 {
      WithDisplayHas(vars[..|vars| - 1], i);
    }
  }

  /** One step of the grouping keeps the earlier display names in place
      and leaves the new variable's display name heading a group. */
  lemma AddToGroupsDisplays(groups: seq<Group>, item: (string, Entries))
    ensures var r := AddToGroups(groups, item);
            |groups| <= |r| <= |groups| + 1 &&
            (forall g :: 0 <= g < |groups| ==> r[g].display == groups[g].display) &&
            GroupIndex(r, DisplayOf(item.1)).Some? &&
            (|r| == |groups| + 1 ==> r[|groups|] == Group(DisplayOf(item.1), [item]) &&
                                     GroupIndex(groups, DisplayOf(item.1)).None?)
  {
    var r := AddToGroups(groups, item);
    match GroupIndex(groups, DisplayOf(item.1))
    case Some(k) =>
      assert r[k].display == DisplayOf(item.1);
    case None =>
      assert r[|groups|].display == DisplayOf(item.1);
  }

  /** Every variable's display name heads a group. */
  lemma {:induction false} GroupsCover(vars: EnvVars)
    ensures forall i :: 0 <= i < |vars| ==> GroupIndex(Groups(vars), DisplayOf(vars[i].1)).Some?
    decreases |vars|
  {
    if |vars| > 0 {
      var init := vars[..|vars| - 1];
      var item := vars[|vars| - 1];
      GroupsCover(init);
      var before := Groups(init);
      var after := Groups(vars);
      assert after == AddToGroups(before, item);
      AddToGroupsDisplays(before, item);
      forall i | 0 <= i < |init|
        ensures GroupIndex(after, DisplayOf(vars[i].1)).Some?
      {
        assert vars[i] == init[i];
        var g := GroupIndex(before, DisplayOf(init[i].1)).value;
        assert after[g].display == DisplayOf(vars[i].1);
      }
    }
  }

  /** Every group's display name is borne by some variable. */
  lemma {:induction false} GroupsBorne(vars: EnvVars)
    ensures forall g :: 0 <= g < |Groups(vars)| ==>
              exists i :: 0 <= i < |vars| && DisplayOf(vars[i].1) == Groups(vars)[g].display
    decreases |vars|
  {
    if |vars| > 0 {
      var init := vars[..|vars| - 1];
      var item := vars[|vars| - 1];
      GroupsBorne(init);
      var before := Groups(init);
      var after := Groups(vars);
      assert after == AddToGroups(before, item);
      AddToGroupsDisplays(before, item);
      forall g | 0 <= g < |after|
        ensures exists i :: 0 <= i < |vars| && DisplayOf(vars[i].1) == after[g].display
      {
        if g < |before| {
          var i :| 0 <= i < |init| && DisplayOf(init[i].1) == before[g].display;
          assert vars[i] == init[i];
          assert DisplayOf(vars[i].1) == after[g].display;
        } else {
          assert DisplayOf(vars[|init|].1) == after[g].display;
        }
      }
    } else {
      assert |Groups(vars)| == 0;
    }
  }

  /** A group holds exactly the variables bearing its display name, in
      merged order. */
  lemma {:induction false} GroupsWithDisplay(vars: EnvVars)
    ensures forall g :: 0 <= g < |Groups(vars)| ==>
              Groups(vars)[g].members == WithDisplay(vars, Groups(vars)[g].display)
    decreases |vars|
  {
    if |vars| > 0 {
      var init := vars[..|vars| - 1];
      var item := vars[|vars| - 1];
      var display := DisplayOf(item.1);
      GroupsWithDisplay(init);
      GroupsDistinct(init);
      var before := Groups(init);
      var after := Groups(vars);
      assert after == AddToGroups(before, item);
      match GroupIndex(before, display)
      case Some(k) =>
        forall g | 0 <= g < |after|
          ensures after[g].members == WithDisplay(vars, after[g].display)
        {
          if g != k {
            assert before[g].display != display;
          }
        }
      case None =>
        GroupsUnborne(init, display);
        WithDisplayNone(init, display);
        forall g | 0 <= g < |after|
          ensures after[g].members == WithDisplay(vars, after[g].display)
        {
          if g < |before| {
            assert before[g].display != display;
          }
        }
    }
  }

  /** Each variable sits in the group headed by its own display name. */
  lemma GroupsPlaced(vars: EnvVars, i: nat)
    requires i < |vars|
    ensures exists g :: 0 <= g < |Groups(vars)| && Groups(vars)[g].display == DisplayOf(vars[i].1) &&
                        vars[i] in Groups(vars)[g].members
  {
    GroupsCover(vars);
    GroupsWithDisplay(vars);
    WithDisplayHas(vars, i);
    var g := GroupIndex(Groups(vars), DisplayOf(vars[i].1)).value;
    assert Groups(vars)[g].display == DisplayOf(vars[i].1);
  }

  /** Reference definition: the index of the first variable bearing
      display name `d`, or `|vars|` when none does. */
  function FirstBearing(vars: EnvVars, d: Value): (r: nat)
    ensures r <= |vars|
    decreases |vars|
  {
    if |vars| == 0 then 0
    else
      var k := FirstBearing(vars[..|vars| - 1], d);
      if k < |vars| - 1 then k
      else if DisplayOf(vars[|vars| - 1].1) == d then |vars| - 1
      else |vars|
  }

  /** FirstBearing is the first index bearing `d`. */
  lemma {:induction false} FirstBearingFirst(vars: EnvVars, d: Value)
    ensures forall i :: 0 <= i < FirstBearing(vars, d) ==> DisplayOf(vars[i].1) != d
    ensures FirstBearing(vars, d) < |vars| ==> DisplayOf(vars[FirstBearing(vars, d)].1) == d
    decreases |vars|
  {
    if |vars| > 0 {
      var init := vars[..|vars| - 1];
      FirstBearingFirst(init, d);
      assert forall i :: 0 <= i < |init| ==> vars[i] == init[i];
    }
  }

  /** A display name that heads no group is borne by no variable. */
  lemma GroupsUnborne(vars: EnvVars, d: Value)
    requires GroupIndex(Groups(vars), d).None?
    ensures forall i :: 0 <= i < |vars| ==> DisplayOf(vars[i].1) != d
  {
    GroupsCover(vars);
    forall i | 0 <= i < |vars|
      ensures DisplayOf(vars[i].1) != d
    {
      var g := GroupIndex(Groups(vars), DisplayOf(vars[i].1)).value;
      assert Groups(vars)[g].display == DisplayOf(vars[i].1);
    }
  }

  lemma FirstBearingKept(vars: EnvVars, d: Value)
    requires |vars| > 0
    requires exists i :: 0 <= i < |vars| - 1 && DisplayOf(vars[i].1) == d
    ensures FirstBearing(vars, d) == FirstBearing(vars[..|vars| - 1], d) < |vars| - 1
  {
    var i :| 0 <= i < |vars| - 1 && DisplayOf(vars[i].1) == d;
    assert DisplayOf(vars[..|vars| - 1][i].1) == d;
    FirstBearingFirst(vars[..|vars| - 1], d);
  }

  lemma FirstBearingLast(vars: EnvVars)
    requires |vars| > 0
    requires forall i :: 0 <= i < |vars| - 1 ==> DisplayOf(vars[i].1) != DisplayOf(vars[|vars| - 1].1)
    ensures FirstBearing(vars, DisplayOf(vars[|vars| - 1].1)) == |vars| - 1
  {
    var init := vars[..|vars| - 1];
    var d := DisplayOf(vars[|vars| - 1].1);
    FirstBearingFirst(init, d);
    assert forall i :: 0 <= i < |init| ==> vars[i] == init[i];
  }

  /** An earlier group's display name first appears among the earlier
      variables. */
  lemma FirstBearingOldGroup(vars: EnvVars, g: nat)
    requires |vars| > 0 && g < |Groups(vars[..|vars| - 1])|
    ensures var init := vars[..|vars| - 1];
            FirstBearing(vars, Groups(init)[g].display) == FirstBearing(init, Groups(init)[g].display) < |init|
  {
    var init := vars[..|vars| - 1];
    GroupsBorne(init);
    var i :| 0 <= i < |init| && DisplayOf(init[i].1) == Groups(init)[g].display;
    assert vars[i] == init[i];
    FirstBearingKept(vars, Groups(init)[g].display);
  }

  /** Groups come in first-seen order: an earlier group's display name
      first appears before a later group's. */
  lemma {:induction false} GroupsFirstSeenOrder(vars: EnvVars)
    ensures forall g, h :: 0 <= g < h < |Groups(vars)| ==>
              FirstBearing(vars, Groups(vars)[g].display) < FirstBearing(vars, Groups(vars)[h].display)
    decreases |vars|
  {
    if |vars| > 0 {
      var init := vars[..|vars| - 1];
      var item := vars[|vars| - 1];
      GroupsFirstSeenOrder(init);
      var before := Groups(init);
      var after := Groups(vars);
      assert after == AddToGroups(before, item);
      AddToGroupsDisplays(before, item);
      forall g | 0 <= g < |before|
        ensures FirstBearing(vars, after[g].display) == FirstBearing(init, before[g].display) < |init|
      {
        FirstBearingOldGroup(vars, g);
      }
      if |after| == |before| + 1 {
        GroupsUnborne(init, DisplayOf(item.1));
        assert forall i :: 0 <= i < |init| ==> vars[i] == init[i];
        FirstBearingLast(vars);
      }
      forall g, h | 0 <= g < h < |after|
        ensures FirstBearing(vars, after[g].display) < FirstBearing(vars, after[h].display)
      {
        if h < |before| {
          assert FirstBearing(init, before[g].display) < FirstBearing(init, before[h].display);
        } else {
          assert FirstBearing(vars, after[h].display) == |init|;
        }
      }
    } else {
      assert |Groups(vars)| == 0;
    }
  }

  /** The lines of one group. */
  function GroupLines(g: Group): (r: seq<string>)
    ensures |r| == |g.members| + 2
  {
    ["\U{011F}\U{0178}\U{201C}\U{00A6} " + Show(g.display) + ":"]
    + seq(|g.members|, j requires 0 <= j < |g.members| =>
            "   \U{00E2}\U{20AC}\U{00A2} " + g.members[j].0 + " (" + (if Required(g.members[j].1) then "REQUIRED" else "optional") + ")")
    + [""]
  }

  function AllGroupLines(groups: seq<Group>): (r: seq<string>)
    ensures |r| == TotalMembers(groups) + 2 * |groups|
    decreases |groups|
  {
    if |groups| == 0 then [] else AllGroupLines(groups[..|groups| - 1]) + GroupLines(groups[|groups| - 1])
  }

  lemma AllGroupLinesSnoc(groups: seq<Group>, g: nat)
    requires g < |groups|
    ensures AllGroupLines(groups[..g + 1]) == AllGroupLines(groups[..g]) + GroupLines(groups[g])
  {
    assert groups[..g + 1][..g] == groups[..g];
  }

  function SummaryLines(vars: EnvVars): seq<string> {
    ["Plugin Environment Variables Summary:", ""] + AllGroupLines(Groups(vars))
  }

  /** The summary has two title lines, a heading and a blank line per
      display name, and one line per variable. */
  lemma SummaryShape(vars: EnvVars)
    ensures |SummaryLines(vars)| == 2 + 2 * |Groups(vars)| + |vars|
  {
    GroupsTotal(vars);
  }

  // ---------------------------------------------------------------------
  // Naming conflicts (`check_conflicts`)
  // ---------------------------------------------------------------------

  /** `len(name.split('_')) > 1`. */
  predicate HasUnderscore(name: string) {
    |Split(name, '_')| > 1
  }

  /** `name.split('_')[-1]`. */
  function Base(name: string): string {
    var parts := Split(name, '_');
    parts[|parts| - 1]
  }

  function ConflictMessage(name: string, first: string, base: string): string {
    "Potential conflict: " + name + " and " + first + " both end with '" + base + "'"
  }

  /** `seen_bases` and `conflicts` after the loop has visited `names`. */
  datatype ConflictScan = ConflictScan(seen: seq<(string, string)>, conflicts: seq<string>)

  function ScanConflicts(names: seq<string>): (r: ConflictScan)
    ensures UniqueKeys(r.seen)
    decreases |names|
  {
    if |names| == 0 then ConflictScan([], [])
    else
      var before := ScanConflicts(names[..|names| - 1]);
      var name := names[|names| - 1];
      if !HasUnderscore(name) then before
      else
        var base := Base(name);
        match Lookup(before.seen, base)
        case Some(first) => before.(conflicts := before.conflicts + [ConflictMessage(name, first, base)])
        case None => before.(seen := Put(before.seen, base, name))
  }

  /** The names that contain an underscore. */
  function Underscored(names: seq<string>): (r: seq<string>)
    ensures |r| <= |names|
    ensures forall n :: n in r ==> n in names && HasUnderscore(n)
    decreases |names|
  {
    if |names| == 0 then []
    else Underscored(names[..|names| - 1]) + (if HasUnderscore(names[|names| - 1]) then [names[|names| - 1]] else [])
  }

  /** The final segments of the names that contain an underscore. */
  function Bases(names: seq<string>): set<string> {
    set n | n in Underscored(names) :: Base(n)
  }

  /** Reference definition: the first name with an underscore whose final
      segment is `base`. */
  function FirstWithBase(names: seq<string>, base: string): Option<string>
    decreases |names|
  {
    if |names| == 0 then None
    else match FirstWithBase(names[..|names| - 1], base)
      case Some(n) => Some(n)
      case None =>
        var name := names[|names| - 1];
        if HasUnderscore(name) && Base(name) == base then Some(name) else None
  }

  lemma BasesSnoc(names: seq<string>)
    requires |names| > 0
    ensures var name := names[|names| - 1];
            Bases(names) == Bases(names[..|names| - 1]) + (if HasUnderscore(name) then {Base(name)} else {})
  {
    var init := names[..|names| - 1];
    var name := names[|names| - 1];
    if HasUnderscore(name) {
      assert Underscored(names) == Underscored(init) + [name];
    } else {
      assert Underscored(names) == Underscored(init);
    }
  }

  /** The recorded segments are exactly the distinct final segments, each
      recorded with the first name that ends in it and never replaced. */
  lemma {:induction false} ConflictSeen(names: seq<string>, b: string)
    ensures b in Keys(ScanConflicts(names).seen) <==> b in Bases(names)
    ensures Lookup(ScanConflicts(names).seen, b) == FirstWithBase(names, b)
    decreases |names|
  {
    if |names| > 0 {
      var init := names[..|names| - 1];
      var name := names[|names| - 1];
      ConflictSeen(init, b);
      BasesSnoc(names);
      if HasUnderscore(name) {
        var before := ScanConflicts(init);
        var base := Base(name);
        ConflictSeen(init, base);
        if Lookup(before.seen, base).None? {
          PutLookup(before.seen, base, name, b);
        }
      }
    }
  }

  /** Every name with an underscore either records a new final segment or
      adds exactly one message. */
  lemma {:induction false} ConflictCount(names: seq<string>)
    ensures |ScanConflicts(names).seen| == |Bases(names)|
    ensures |ScanConflicts(names).conflicts| == |Underscored(names)| - |Bases(names)|
    decreases |names|
  {
    if |names| > 0 {
      var init := names[..|names| - 1];
      var name := names[|names| - 1];
      ConflictCount(init);
      BasesSnoc(names);
      var before := ScanConflicts(init);
      if HasUnderscore(name) {
        var base := Base(name);
        assert Underscored(names) == Underscored(init) + [name];
        ConflictSeen(init, base);
        if Lookup(before.seen, base).Some? {
          assert Bases(names) == Bases(init);
          assert ScanConflicts(names).seen == before.seen;
        } else {
          assert base !in Bases(init);
          assert |Bases(names)| == |Bases(init)| + 1;
          assert |ScanConflicts(names).seen| == |Keys(Put(before.seen, base, name))| == |before.seen| + 1;
        }
      } else {
        assert Underscored(names) == Underscored(init);
      }
    }
  }

  /** The first name found by FirstWithBase is one of the names, has an
      underscore and ends in `b`. */
  lemma {:induction false} FirstWithBaseAt(names: seq<string>, b: string)
    requires FirstWithBase(names, b).Some?
    ensures exists k :: 0 <= k < |names| && names[k] == FirstWithBase(names, b).value &&
                        HasUnderscore(names[k]) && Base(names[k]) == b
    decreases |names|
  {
    var init := names[..|names| - 1];
    if FirstWithBase(init, b).Some? {
      FirstWithBaseAt(init, b);
      var k :| 0 <= k < |init| && init[k] == FirstWithBase(init, b).value &&
               HasUnderscore(init[k]) && Base(init[k]) == b;
      assert names[k] == init[k];
    } else {
      assert names[|names| - 1] == FirstWithBase(names, b).value;
    }
  }

  /** Every message pairs a later name containing an underscore with an
      earlier one ending in the same segment; a name without an
      underscore, wherever it sits in the list, is never examined. */
  lemma {:induction false} ConflictMessagesFrom(names: seq<string>)
    ensures forall m :: m in ScanConflicts(names).conflicts ==>
              exists j, k :: 0 <= k < j < |names| && '_' in names[j] && '_' in names[k] &&
                             Base(names[k]) == Base(names[j]) &&
                             m == ConflictMessage(names[j], names[k], Base(names[j]))
    decreases |names|
  {
    if |names| > 0 {
      var init := names[..|names| - 1];
      var name := names[|names| - 1];
      ConflictMessagesFrom(init);
      var before := ScanConflicts(init);
      forall m | m in before.conflicts
        ensures exists j, k :: 0 <= k < j < |names| && '_' in names[j] && '_' in names[k] &&
                               Base(names[k]) == Base(names[j]) &&
                               m == ConflictMessage(names[j], names[k], Base(names[j]))
      {
        var j, k :| 0 <= k < j < |init| && '_' in init[j] && '_' in init[k] &&
                    Base(init[k]) == Base(init[j]) && m == ConflictMessage(init[j], init[k], Base(init[j]));
        assert names[j] == init[j] && names[k] == init[k];
      }
      if HasUnderscore(name) && Lookup(before.seen, Base(name)).Some? {
        var base := Base(name);
        ConflictSeen(init, base);
        FirstWithBaseAt(init, base);
        var k :| 0 <= k < |init| && init[k] == FirstWithBase(init, base).value &&
                 HasUnderscore(init[k]) && Base(init[k]) == base;
        SplitMany(name, '_');
        SplitMany(init[k], '_');
        assert names[k] == init[k];
        assert ScanConflicts(names).conflicts == before.conflicts + [ConflictMessage(name, init[k], base)];
      }
    }
  }

  /** A name without an underscore is never mentioned as the later name of
      a conflict: with none, there are no messages. */
  lemma NoUnderscoreNoConflicts(names: seq<string>)
    requires forall n :: n in names ==> '_' !in n
    ensures ScanConflicts(names).conflicts == []
  {
    ConflictCount(names);
    if |Underscored(names)| > 0 {
      var n := Underscored(names)[0];
      assert n in Underscored(names);
      SplitMany(n, '_');
      assert false;
    }
    assert Bases(names) == {};
  }

  // ---------------------------------------------------------------------
  // The manager (`class PluginEnvManager`)
  // ---------------------------------------------------------------------

  class PluginEnvManager {
    /** `self.plugins.list_plugins()`: identifier to `_module_info`. */
    const plugins: seq<(string, Entries)>

    constructor (plugins: seq<(string, Entries)>)
      ensures this.plugins == plugins
    {
      this.plugins := plugins;
    }

    /** `get_all_env_vars()`; `None` where it raises. */
    method GetAllEnvVars() returns (r: Option<EnvVars>)
      ensures r == AllEnvVars(plugins)
    {
      var all: EnvVars := [];
      for p := 0 to |plugins|
        invariant AllDeclarations(plugins[..p]).Some?
        invariant all == PutAll([], AllDeclarations(plugins[..p]).value)
      {
        assert plugins[..p + 1][..p] == plugins[..p];
        var (pid, md) := plugins[p];
        var declared := Get(md, "environment_variables", Dict([]));
        var stored := None;
        if declared.Dict? {
          stored := StoreDeclarations(all, pid, md, declared.entries);
        }
        if stored.None? {
          assert Declarations(pid, md).None?;
          NoDeclarationsPropagates(plugins, p + 1);
          return None;
        }
        PutAllAppend([], AllDeclarations(plugins[..p]).value, Declarations(pid, md).value);
        all := stored.value;
      }
      assert plugins[..|plugins|] == plugins;
      r := Some(all);
    }

    /** `generate_env_template()`, the text returned and written. */
    method GenerateEnvTemplate() returns (r: Option<string>)
      ensures AllEnvVars(plugins).None? ==> r.None?
      ensures AllEnvVars(plugins).Some? ==> r == Some(Join(TemplateLines(AllEnvVars(plugins).value), "\n"))
    {
      var all := GetAllEnvVars();
      if all.None? {
        return None;
      }
      var text := RenderTemplate(all.value);
      r := Some(text);
    }

    /** `validate_env_vars()` against the environment `env`. */
    method ValidateEnvVars(env: map<string, string>) returns (r: Option<seq<string>>)
      ensures AllEnvVars(plugins).None? ==> r.None?
      ensures AllEnvVars(plugins).Some? ==> r == Some(MissingMessages(MissingEntries(AllEnvVars(plugins).value, env)))
    {
      var all := GetAllEnvVars();
      if all.None? {
        return None;
      }
      var missing := ReportMissing(all.value, env);
      r := Some(missing);
    }

    /** `get_plugin_env_summary()`; `None` where it raises. */
    method GetPluginEnvSummary() returns (r: Option<string>)
      ensures AllEnvVars(plugins).None? ==> r.None?
      ensures AllEnvVars(plugins).Some? ==> r == SummaryText(AllEnvVars(plugins).value)
    {
      var all := GetAllEnvVars();
      if all.None? {
        return None;
      }
      r := RenderSummary(all.value);
    }

    /** `check_conflicts()`. */
    method CheckConflicts() returns (r: Option<seq<string>>)
      ensures AllEnvVars(plugins).None? ==> r.None?
      ensures AllEnvVars(plugins).Some? ==> r == Some(ScanConflicts(Keys(AllEnvVars(plugins).value)).conflicts)
    {
      var all := GetAllEnvVars();
      if all.None? {
        return None;
      }
      var conflicts := FindConflicts(Keys(all.value));
      r := Some(conflicts);
    }
  }

  /** The inner loop of `get_all_env_vars`: one plugin's variables stored
      into the merged map, `None` where a specification is not a dict. */
  method StoreDeclarations(all: EnvVars, pid: string, md: Entries, entries: Entries) returns (r: Option<EnvVars>)
    ensures r.None? <==> exists i :: 0 <= i < |entries| && !entries[i].1.Dict?
    ensures r.Some? ==> r.value == PutAll(all, MergedPrefix(entries, |entries|, pid, md))
  {
    var stored := all;
    for k := 0 to |entries|
      invariant forall j :: 0 <= j < k ==> entries[j].1.Dict?
      invariant stored == PutAll(all, MergedPrefix(entries, k, pid, md))
    {
      if !entries[k].1.Dict? {
        return None;
      }
      assert MergedPrefix(entries, k + 1, pid, md)[..k] == MergedPrefix(entries, k, pid, md);
      stored := Put(stored, entries[k].0, MergeVar(entries[k].1.entries, pid, md));
    }
    r := Some(stored);
  }

  /** The loop of `generate_env_template` over the merged map. */
  method RenderTemplate(vars: EnvVars) returns (text: string)
    ensures text == Join(TemplateLines(vars), "\n")
  {
    var lines := Header();
    var processed: set<Value> := {};
    for i := 0 to |vars|
      invariant lines == TemplateLines(vars[..i])
      invariant processed == PluginsSeen(vars[..i])
    {
      TemplateLinesSnoc(vars, i);
      var (name, info) := vars[i];
      var plugin := PluginOf(info);
      var banner: seq<string> := [];
      if plugin !in processed {
        banner := Banner(info);
        processed := processed + {plugin};
      }
      lines := lines + banner + VarLines(name, info);
    }
    assert vars[..|vars|] == vars;
    text := Join(lines, "\n");
  }

  /** The loop of `validate_env_vars` over the merged map. */
  method ReportMissing(vars: EnvVars, env: map<string, string>) returns (missing: seq<string>)
    ensures missing == MissingMessages(MissingEntries(vars, env))
  {
    missing := [];
    for i := 0 to |vars|
      invariant missing == MissingMessages(MissingEntries(vars[..i], env))
    {
      assert vars[..i + 1][..i] == vars[..i];
      var (name, info) := vars[i];
      if Required(info) && Unset(env, name) {
        MissingMessagesSnoc(MissingEntries(vars[..i], env), vars[i]);
        missing := missing + [MissingMessage(name, info)];
      }
    }
    assert vars[..|vars|] == vars;
  }

  /** The summary text; `None` when a display name cannot be a dict key. */
  function SummaryText(vars: EnvVars): (r: Option<string>)
    ensures r.Some? ==> StartsWith(r.value, "Plugin Environment Variables Summary:\n")
  {
    if forall i :: 0 <= i < |vars| ==> Hashable(DisplayOf(vars[i].1))
    then Some(Join(SummaryLines(vars), "\n")) else None
  }

  /** The two loops of `get_plugin_env_summary` over the merged map. */
  method RenderSummary(vars: EnvVars) returns (r: Option<string>)
    ensures r == SummaryText(vars)
  {
    var grouped := GroupByDisplay(vars);
    if grouped.None? {
      return None;
    }
    var groups := grouped.value;
    var body: seq<string> := [];
    for g := 0 to |groups|
      invariant body == AllGroupLines(groups[..g])
    {
      AllGroupLinesSnoc(groups, g);
      var groupLines := RenderGroup(groups[g]);
      body := body + groupLines;
    }
    assert groups[..|groups|] == groups;
    r := Some(Join(["Plugin Environment Variables Summary:", ""] + body, "\n"));
  }

  /** The grouping loop of `get_plugin_env_summary`; `None` when a display
      name cannot be a dict key. */
  method GroupByDisplay(vars: EnvVars) returns (r: Option<seq<Group>>)
    ensures (forall i :: 0 <= i < |vars| ==> Hashable(DisplayOf(vars[i].1))) ==> r == Some(Groups(vars))
    ensures !(forall i :: 0 <= i < |vars| ==> Hashable(DisplayOf(vars[i].1))) ==> r.None?
  {
    var groups: seq<Group> := [];
    for i := 0 to |vars|
      invariant groups == Groups(vars[..i])
      invariant forall j :: 0 <= j < i ==> Hashable(DisplayOf(vars[j].1))
    {
      assert vars[..i + 1][..i] == vars[..i];
      var (name, info) := vars[i];
      var display := DisplayOf(info);
      if !Hashable(display) {
        return None;
      }
      assert forall j :: 0 <= j < i + 1 ==> Hashable(DisplayOf(vars[j].1)) by {
        assert vars[i].1 == info;
      }
      groups := AppendToGroup(groups, name, info);
    }
    assert vars[..|vars|] == vars;
    r := Some(groups);
  }

  /** `plugin_vars.setdefault(display, []).append(...)` for one variable. */
  method AppendToGroup(groups: seq<Group>, name: string, info: Entries) returns (r: seq<Group>)
    ensures r == AddToGroups(groups, (name, info))
  {
    var display := DisplayOf(info);
    r := groups;
    var k := GroupIndex(r, display);
    if k.None? {
      r := r + [Group(display, [])];
      assert GroupIndex(r, display) == Some(|groups|);
    }
    var at := GroupIndex(r, display).value;
    r := r[at := Group(display, r[at].members + [(name, info)])];
    if k.None? {
      assert [] + [(name, info)] == [(name, info)];
      assert r == groups + [Group(display, [(name, info)])];
    }
  }

  /** The lines of one display name's group, as the inner loop emits them. */
  method RenderGroup(group: Group) returns (lines: seq<string>)
    ensures lines == GroupLines(group)
  {
    lines := ["\U{011F}\U{0178}\U{201C}\U{00A6} " + Show(group.display) + ":"];
    for j := 0 to |group.members|
      invariant lines == GroupLines(group)[..j + 1]
    {
      var (name, info) := group.members[j];
      var status := if Required(info) then "REQUIRED" else "optional";
      assert GroupLines(group)[..j + 2] == GroupLines(group)[..j + 1] + [GroupLines(group)[j + 1]];
      lines := lines + ["   \U{00E2}\U{20AC}\U{00A2} " + name + " (" + status + ")"];
    }
    assert GroupLines(group)[..|group.members| + 1] + [""] == GroupLines(group);
    lines := lines + [""];
  }

  /** The loop of `check_conflicts` over the variable names. */
  method FindConflicts(names: seq<string>) returns (conflicts: seq<string>)
    ensures conflicts == ScanConflicts(names).conflicts
  {
    conflicts := [];
    var seen: seq<(string, string)> := [];
    for i := 0 to |names|
      invariant ScanConflicts(names[..i]) == ConflictScan(seen, conflicts)
    {
      assert names[..i + 1][..i] == names[..i];
      var parts := Split(names[i], '_');
      if |parts| > 1 {
        var base := parts[|parts| - 1];
        var first := Lookup(seen, base);
        if first.Some? {
          conflicts := conflicts + [ConflictMessage(names[i], first.value, base)];
        } else {
          seen := Put(seen, base, names[i]);
        }
      }
    }
    assert names[..|names|] == names;
  }

  /** Once one plugin's declarations raise, the whole merge raises. */
  lemma {:induction false} NoDeclarationsPropagates(plugins: seq<(string, Entries)>, n: nat)
    requires 0 < n <= |plugins|
    requires Declarations(plugins[n - 1].0, plugins[n - 1].1).None?
    ensures AllDeclarations(plugins).None?
    decreases |plugins|
  {
    if n < |plugins| {
      assert plugins[..|plugins| - 1][n - 1] == plugins[n - 1];
      NoDeclarationsPropagates(plugins[..|plugins| - 1], n);
    }
  }
}
