/** The rule engine of `plugins/validate_plugin.py`: it checks one plugin
    module against the plugin conventions and accumulates three message
    lists, `errors`, `warnings` and `passed_checks`.  A plugin is valid
    exactly when no error was recorded.

    Loading the module is not modelled: its outcome arrives as a
    `LoadAttempt`.  Reflection (`inspect.signature`, `get_type_hints`,
    `inspect.getdoc`) is read off the `Function` record, and whether a
    `README.md` sits next to the module's file is given. */
module Validator {

  import opened Wrappers
  import opened Text
  import opened Assoc
  import opened PyValues

  /** The module under validation: `_module_info` and `_module_exports`
      when bound, and whether a `README.md` sits next to its file (`None`
      when the module has no `__file__`). */
  datatype PluginModule = PluginModule(info: Option<Entries>, exports: Option<Value>, readme: Option<bool>)

  /** What `_load_plugin_module` did: a directory without `__init__.py`, an
      exception while executing the module, no spec or loader, or a module. */
  datatype LoadAttempt =
    | MissingInit(path: string)
    | LoadRaised(message: string)
    | NoSpec
    | Loaded(plugin: PluginModule)

  /** The three message lists. */
  datatype Report = Report(errors: seq<string>, warnings: seq<string>, passed: seq<string>)

  /** A validation run: the lists as they stand and whether an exception
      escaped (the run stops there). */
  datatype Outcome = Outcome(report: Report, raised: bool)

  /** `_get_results()`. */
  datatype Results = Results(errors: seq<string>, warnings: seq<string>, passedChecks: seq<string>, isValid: bool)

  const Empty := Report([], [], [])

  /** The check mark that prefixes every passed check. */
  const Tick := "\U{2713} "

  const RequiredFields := ["name", "description", "author", "version", "platform", "python_requires", "dependencies", "environment_variables"]
  const VarFields := ["description", "default", "required"]
  const ValidPlatforms := [Str("any"), Str("linux"), Str("windows"), Str("macos")]
  const CommonCategories := ["tools", "agents", "resources", "middleware", "models", "utilities"]
  const Sections := ["Args:", "Returns:"]

  function AddError(r: Report, m: string): Report { r.(errors := r.errors + [m]) }
  function AddWarning(r: Report, m: string): Report { r.(warnings := r.warnings + [m]) }
  function AddPassed(r: Report, m: string): Report { r.(passed := r.passed + [m]) }

  /** Checks only ever append to the three lists. */
  predicate Extends(a: Report, b: Report) {
    a.errors <= b.errors && a.warnings <= b.warnings && a.passed <= b.passed
  }

  lemma ExtendsTransitive(a: Report, b: Report, c: Report)
    requires Extends(a, b) && Extends(b, c)
    ensures Extends(a, c)
  {
  }

  /** `_get_results()`: valid exactly when there are no errors, whatever the
      warnings. */
  function ResultsOf(r: Report): (res: Results)
    ensures res.isValid <==> |r.errors| == 0
    ensures res.errors == r.errors && res.warnings == r.warnings && res.passedChecks == r.passed
  {
    Results(r.errors, r.warnings, r.passed, |r.errors| == 0)
  }

  // ---------------------------------------------------------------------
  // `_validate_module_metadata`
  // ---------------------------------------------------------------------

  /** The fields of `fields` that `info` lacks, in order. */
  function MissingFields(info: Entries, fields: seq<string>): (r: seq<string>)
    ensures |r| <= |fields|
    decreases |fields|
  {
    if |fields| == 0 then []
    else
      var f := fields[|fields| - 1];
      MissingFields(info, fields[..|fields| - 1]) + (if f in Keys(info) then [] else [f])
  }

  /** No field is missing exactly when every one is a key. */
  lemma {:induction false} NoneMissing(info: Entries, fields: seq<string>)
    ensures MissingFields(info, fields) == [] <==> forall f :: f in fields ==> f in Keys(info)
    decreases |fields|
  {
    if |fields| > 0 {
      var init := fields[..|fields| - 1];
      NoneMissing(info, init);
      assert fields == init + [fields[|fields| - 1]];
    }
  }

  /** The required-field loop: one error per missing field, one passed
      check per present one. */
  function FieldChecks(r: Report, info: Entries, fields: seq<string>): (r': Report)
    ensures Extends(r, r') && r'.warnings == r.warnings
    ensures |r'.errors| + |r'.passed| == |r.errors| + |r.passed| + |fields|
    decreases |fields|
  {
    if |fields| == 0 then r
    else
      var before := FieldChecks(r, info, fields[..|fields| - 1]);
      var f := fields[|fields| - 1];
      if f in Keys(info) then AddPassed(before, Tick + "_module_info." + f + " exists")
      else AddError(before, "Missing required field in _module_info: " + f)
  }

  /** Exactly one error per missing field. */
  lemma {:induction false} FieldChecksCount(r: Report, info: Entries, fields: seq<string>)
    ensures |FieldChecks(r, info, fields).errors| == |r.errors| + |MissingFields(info, fields)|
    decreases |fields|
  {
    if |fields| > 0 {
      FieldChecksCount(r, info, fields[..|fields| - 1]);
    }
  }

  /** A declared version that is not a string with a `.` in it. */
  predicate VersionWarned(info: Entries) {
    "version" in Keys(info) &&
    (!Get(info, "version", NoneValue).Str? || '.' !in Get(info, "version", NoneValue).s)
  }

  /** The version format check: a warning, never an error, exactly for a
      declared version that is not a dotted string. */
  function VersionCheck(r: Report, info: Entries): (r': Report)
    ensures Extends(r, r') && r'.errors == r.errors
    ensures |r'.warnings| == |r.warnings| + (if VersionWarned(info) then 1 else 0)
  {
    if "version" !in Keys(info) then r
    else
      var version := Get(info, "version", NoneValue);
      if !version.Str? || '.' !in version.s then
        AddWarning(r, "Version '" + Show(version) + "' should follow semantic versioning (e.g., '1.0.0')")
      else AddPassed(r, Tick + "Version format looks valid")
  }

  /** A declared platform outside the recommended values. */
  predicate PlatformWarned(info: Entries) {
    "platform" in Keys(info) && Get(info, "platform", NoneValue) !in ValidPlatforms
  }

  /** The platform check: a warning, never an error, exactly for a
      declared platform outside the recommended values. */
  function PlatformCheck(r: Report, info: Entries): (r': Report)
    ensures Extends(r, r') && r'.errors == r.errors
    ensures |r'.warnings| == |r.warnings| + (if PlatformWarned(info) then 1 else 0)
  {
    if "platform" !in Keys(info) then r
    else
      var platform := Get(info, "platform", NoneValue);
      if platform !in ValidPlatforms then
        AddWarning(r, "Platform '" + Show(platform) + "' not in recommended values: " + Show(List(ValidPlatforms)))
      else AddPassed(r, Tick + "Platform value is valid")
  }

  /** `any(s in d for d in deps)`, left to right; `None` when a membership
      test raises before a match is found. */
  function AnyContains(deps: seq<Value>, s: string): Option<bool>
    decreases |deps|
  {
    if |deps| == 0 then Some(false)
    else match In(deps[0], s)
      case None => None
      case Some(true) => Some(true)
      case Some(false) => AnyContains(deps[1..], s)
  }

  /** Over a list of strings the scan is plain substring search. */
  lemma {:induction false} AnyContainsStrings(deps: seq<Value>, s: string)
    requires forall i :: 0 <= i < |deps| ==> deps[i].Str?
    ensures AnyContains(deps, s) == Some(exists i :: 0 <= i < |deps| && Contains(deps[i].s, s))
    decreases |deps|
  {
    if |deps| > 0 {
      AnyContainsStrings(deps[1..], s);
      if exists i :: 0 <= i < |deps| && Contains(deps[i].s, s) {
        var i :| 0 <= i < |deps| && Contains(deps[i].s, s);
        if i > 0 {
          assert Contains(deps[1..][i - 1].s, s);
        }
      }
      if exists i :: 0 <= i < |deps[1..]| && Contains(deps[1..][i].s, s) {
        var i :| 0 <= i < |deps[1..]| && Contains(deps[1..][i].s, s);
        assert Contains(deps[i + 1].s, s);
      }
    }
  }

  /** The scan raises only on an element that supports no membership test. */
  lemma {:induction false} AnyContainsRaises(deps: seq<Value>, s: string)
    requires AnyContains(deps, s).None?
    ensures exists i :: 0 <= i < |deps| && In(deps[i], s).None?
    decreases |deps|
  {
    if In(deps[0], s).Some? {
      AnyContainsRaises(deps[1..], s);
      var i :| 0 <= i < |deps[1..]| && In(deps[1..][i], s).None?;
      assert In(deps[i + 1], s).None?;
    }
  }

  /** The dependencies check: a non-list is an error; the pydantic advice is
      a warning.  `raised` when the pydantic scan raises. */
  function DependencyCheck(r: Report, info: Entries): (o: Outcome)
    ensures Extends(r, o.report)
    ensures o.raised ==> "dependencies" in Keys(info) && Get(info, "dependencies", NoneValue).List?
  {
    if "dependencies" !in Keys(info) then Outcome(r, false)
    else
      var deps := Get(info, "dependencies", NoneValue);
      if !deps.List? then Outcome(AddError(r, "dependencies must be a list"), false)
      else
        var r1 := AddPassed(r, Tick + "Dependencies is a list");
        if Str("pydantic>=2.0.0") in deps.items then Outcome(r1, false)
        else match AnyContains(deps.items, "pydantic")
          case None => Outcome(r1, true)
          case Some(found) =>
            Outcome(if found then AddWarning(r1, "Consider using 'pydantic>=2.0.0' for compatibility") else r1, false)
  }

  /** The pydantic advice is given exactly when some dependency mentions
      `pydantic` and the exact recommended specifier is absent. */
  lemma PydanticAdvice(r: Report, info: Entries, deps: seq<Value>)
    requires "dependencies" in Keys(info) && Get(info, "dependencies", NoneValue) == List(deps)
    requires forall i :: 0 <= i < |deps| ==> deps[i].Str?
    ensures !DependencyCheck(r, info).raised
    ensures DependencyCheck(r, info).report.errors == r.errors
    ensures |DependencyCheck(r, info).report.warnings| == |r.warnings| + 1 <==>
              Str("pydantic>=2.0.0") !in deps && exists i :: 0 <= i < |deps| && Contains(deps[i].s, "pydantic")
  {
    AnyContainsStrings(deps, "pydantic");
  }

  /** The fields of one variable specification. */
  function VarFieldChecks(r: Report, name: string, spec: Entries, fields: seq<string>): (r': Report)
    ensures Extends(r, r') && r'.warnings == r.warnings
    decreases |fields|
  {
    if |fields| == 0 then r
    else
      var before := VarFieldChecks(r, name, spec, fields[..|fields| - 1]);
      var f := fields[|fields| - 1];
      if f in Keys(spec) then AddPassed(before, Tick + "Environment variable '" + name + "." + f + "' exists")
      else AddError(before, "Missing field '" + f + "' in environment variable '" + name + "'")
  }

  lemma {:induction false} VarFieldChecksCount(r: Report, name: string, spec: Entries, fields: seq<string>)
    ensures |VarFieldChecks(r, name, spec, fields).errors| == |r.errors| + |MissingFields(spec, fields)|
    decreases |fields|
  {
    if |fields| > 0 {
      VarFieldChecksCount(r, name, spec, fields[..|fields| - 1]);
    }
  }

  /** The loop over `environment_variables`. */
  function VarsChecks(r: Report, vars: Entries): (r': Report)
    ensures Extends(r, r') && r'.warnings == r.warnings
    decreases |vars|
  {
    if |vars| == 0 then r
    else
      var before := VarsChecks(r, vars[..|vars| - 1]);
      var (name, spec) := vars[|vars| - 1];
      if !spec.Dict? then AddError(before, "Environment variable '" + name + "' must be a dictionary")
      else VarFieldChecks(before, name, spec.entries, VarFields)
  }

  /** Reference count: one error per specification that is not a dict, and
      one per missing field of each that is. */
  function ExpectedVarErrors(vars: Entries): nat
    decreases |vars|
  {
    if |vars| == 0 then 0
    else
      var spec := vars[|vars| - 1].1;
      ExpectedVarErrors(vars[..|vars| - 1]) + (if spec.Dict? then |MissingFields(spec.entries, VarFields)| else 1)
  }

  lemma {:induction false} VarsChecksCount(r: Report, vars: Entries)
    ensures |VarsChecks(r, vars).errors| == |r.errors| + ExpectedVarErrors(vars)
    decreases |vars|
  {
    if |vars| > 0 {
      VarsChecksCount(r, vars[..|vars| - 1]);
      var (name, spec) := vars[|vars| - 1];
      if spec.Dict? {
        VarFieldChecksCount(VarsChecks(r, vars[..|vars| - 1]), name, spec.entries, VarFields);
      }
    }
  }

  function EnvChecks(r: Report, info: Entries): (r': Report)
    ensures Extends(r, r') && r'.warnings == r.warnings
  {
    if "environment_variables" !in Keys(info) then r
    else
      var declared := Get(info, "environment_variables", NoneValue);
      if !declared.Dict? then AddError(r, "environment_variables must be a dictionary")
      else VarsChecks(AddPassed(r, Tick + "Environment variables is a dictionary"), declared.entries)
  }

  /** `_validate_module_metadata(module)`. */
  function MetadataChecks(r: Report, info: Option<Entries>): (o: Outcome)
    ensures Extends(r, o.report)
    ensures o.raised ==> info.Some?
  {
    match info
    case None => Outcome(AddError(r, "Missing _module_info dictionary"), false)
    case Some(entries) =>
      var r0 := AddPassed(r, Tick + "_module_info dictionary exists");
      var r1 := FieldChecks(r0, entries, RequiredFields);
      var r2 := PlatformCheck(VersionCheck(r1, entries), entries);
      var deps := DependencyCheck(r2, entries);
      ExtendsTransitive(r, r0, r1);
      ExtendsTransitive(r, r1, VersionCheck(r1, entries));
      ExtendsTransitive(r, VersionCheck(r1, entries), r2);
      ExtendsTransitive(r, r2, deps.report);
      if deps.raised then deps
      else
        ExtendsTransitive(r, deps.report, EnvChecks(deps.report, entries));
        Outcome(EnvChecks(deps.report, entries), false)
  }

  /** A missing `_module_info` is one error and nothing else. */
  lemma MissingInfoOneError(r: Report)
    ensures !MetadataChecks(r, None).raised
    ensures |MetadataChecks(r, None).report.errors| == |r.errors| + 1
    ensures MetadataChecks(r, None).report.warnings == r.warnings
    ensures MetadataChecks(r, None).report.passed == r.passed
  {
  }

  /** The errors of the dependencies check: one for a value that is not a
      list, none otherwise. */
  function DependencyErrors(info: Entries): nat {
    if "dependencies" in Keys(info) && !Get(info, "dependencies", NoneValue).List? then 1 else 0
  }

  lemma DependencyCheckCount(r: Report, info: Entries)
    ensures |DependencyCheck(r, info).report.errors| == |r.errors| + DependencyErrors(info)
  {
  }

  /** The errors of the environment-variable checks. */
  function EnvErrors(info: Entries): nat {
    if "environment_variables" !in Keys(info) then 0
    else
      var declared := Get(info, "environment_variables", NoneValue);
      if !declared.Dict? then 1 else ExpectedVarErrors(declared.entries)
  }

  lemma EnvChecksCount(r: Report, info: Entries)
    ensures |EnvChecks(r, info).errors| == |r.errors| + EnvErrors(info)
  {
    var declared := Get(info, "environment_variables", NoneValue);
    if "environment_variables" in Keys(info) && declared.Dict? {
      VarsChecksCount(AddPassed(r, Tick + "Environment variables is a dictionary"), declared.entries);
    }
  }

  /** The errors the metadata checks record: one per missing required field,
      one for dependencies that are not a list, and those of the
      environment variables.  Version and platform only ever warn. */
  lemma MetadataErrorCount(r: Report, info: Entries)
    requires !MetadataChecks(r, Some(info)).raised
    ensures |MetadataChecks(r, Some(info)).report.errors| ==
              |r.errors| + |MissingFields(info, RequiredFields)| + DependencyErrors(info) + EnvErrors(info)
  {
    var r0 := AddPassed(r, Tick + "_module_info dictionary exists");
    FieldChecksCount(r0, info, RequiredFields);
    var r1 := FieldChecks(r0, info, RequiredFields);
    var r2 := PlatformCheck(VersionCheck(r1, info), info);
    DependencyCheckCount(r2, info);
    EnvChecksCount(DependencyCheck(r2, info).report, info);
  }

  // ---------------------------------------------------------------------
  // `_validate_exports`
  // ---------------------------------------------------------------------

  /** Some category is a non-empty list. */
  predicate HasContent(categories: Entries) {
    exists i :: 0 <= i < |categories| && categories[i].1.List? && |categories[i].1.items| > 0
  }

  /** The item loop of one non-empty category. */
  function ItemChecks(r: Report, category: string, items: seq<Value>): (r': Report)
    ensures Extends(r, r') && r'.warnings == r.warnings
    decreases |items|
  {
    if |items| == 0 then r
    else
      var i := |items| - 1;
      var before := ItemChecks(r, category, items[..i]);
      var item := items[i];
      if category == "tools" then
        if !item.Callable? then AddError(before, "Tool " + IntToString(i) + " in '" + category + "' is not callable")
        else AddPassed(before, Tick + "Tool '" + item.f.name + "' is callable")
      else if item.Callable? then AddPassed(before, Tick + "Item '" + item.f.name + "' in '" + category + "' category")
      else AddPassed(before, Tick + "Item " + IntToString(i) + " in '" + category + "' category exists")
  }

  /** The items that are not callable. */
  function NotCallable(items: seq<Value>): nat
    decreases |items|
  {
    if |items| == 0 then 0 else NotCallable(items[..|items| - 1]) + (if items[|items| - 1].Callable? then 0 else 1)
  }

  lemma {:induction false} ItemChecksCount(r: Report, category: string, items: seq<Value>)
    ensures |ItemChecks(r, category, items).errors| == |r.errors| + (if category == "tools" then NotCallable(items) else 0)
    decreases |items|
  {
    if |items| > 0 {
      ItemChecksCount(r, category, items[..|items| - 1]);
    }
  }

  /** One category of `_module_exports`. */
  function CategoryCheck(r: Report, category: string, items: Value): (r': Report)
    ensures Extends(r, r')
  {
    if !items.List? then AddError(r, "_module_exports['" + category + "'] must be a list")
    else
      var r1 := if |items.items| > 0 then
                  ItemChecks(AddPassed(r, Tick + "Found " + IntToString(|items.items|) + " items in '" + category + "' category"), category, items.items)
                else r;
      if category !in CommonCategories then AddWarning(r1, "Custom category '" + category + "' found (this is allowed but uncommon)")
      else r1
  }

  /** The category loop. */
  function CategoryChecks(r: Report, categories: Entries): (r': Report)
    ensures Extends(r, r')
    decreases |categories|
  {
    if |categories| == 0 then r
    else CategoryCheck(CategoryChecks(r, categories[..|categories| - 1]), categories[|categories| - 1].0, categories[|categories| - 1].1)
  }

  /** Reference counts for the category loop: an error per category that is
      not a list and per non-callable tool; a warning per list category
      outside the common six (a non-list category gets none). */
  function CategoryErrors(categories: Entries): nat
    decreases |categories|
  {
    if |categories| == 0 then 0
    else
      var (category, items) := categories[|categories| - 1];
      CategoryErrors(categories[..|categories| - 1])
      + (if !items.List? then 1 else if category == "tools" then NotCallable(items.items) else 0)
  }

  function CustomCategories(categories: Entries): nat
    decreases |categories|
  {
    if |categories| == 0 then 0
    else
      var (category, items) := categories[|categories| - 1];
      CustomCategories(categories[..|categories| - 1]) + (if items.List? && category !in CommonCategories then 1 else 0)
  }

  lemma {:induction false} CategoryChecksCount(r: Report, categories: Entries)
    ensures |CategoryChecks(r, categories).errors| == |r.errors| + CategoryErrors(categories)
    ensures |CategoryChecks(r, categories).warnings| == |r.warnings| + CustomCategories(categories)
    decreases |categories|
  {
    if |categories| > 0 {
      var before := CategoryChecks(r, categories[..|categories| - 1]);
      CategoryChecksCount(r, categories[..|categories| - 1]);
      var (category, items) := categories[|categories| - 1];
      if items.List? && |items.items| > 0 {
        ItemChecksCount(AddPassed(before, Tick + "Found " + IntToString(|items.items|) + " items in '" + category + "' category"), category, items.items);
      }
    }
  }

  /** `_validate_exports(module)`. */
  function ExportChecks(r: Report, exports: Option<Value>): (r': Report)
    ensures Extends(r, r')
  {
    match exports
    case None => AddError(r, "Missing _module_exports dictionary")
    case Some(e) =>
      var r1 := AddPassed(r, Tick + "_module_exports dictionary exists");
      if !e.Dict? then AddError(r1, "_module_exports must be a dictionary")
      else
        var r2 := if HasContent(e.entries) then AddPassed(r1, Tick + "_module_exports has content")
                  else AddWarning(r1, "_module_exports has no content in any category");
        CategoryChecks(r2, e.entries)
  }

  /** Missing or non-dict exports are exactly one error and stop the
      export checks. */
  lemma ExportsNotDictOneError(r: Report, exports: Option<Value>)
    requires exports.None? || !exports.value.Dict?
    ensures |ExportChecks(r, exports).errors| == |r.errors| + 1
    ensures ExportChecks(r, exports).warnings == r.warnings
  {
  }

  /** Over a dict, the export checks record one error per non-list category
      and per non-callable tool, and one warning per custom list category
      plus one when no category has content. */
  lemma ExportChecksCount(r: Report, categories: Entries)
    ensures |ExportChecks(r, Some(Dict(categories))).errors| == |r.errors| + CategoryErrors(categories)
    ensures |ExportChecks(r, Some(Dict(categories))).warnings| ==
              |r.warnings| + CustomCategories(categories) + (if HasContent(categories) then 0 else 1)
  {
    var r1 := AddPassed(r, Tick + "_module_exports dictionary exists");
    var r2 := if HasContent(categories) then AddPassed(r1, Tick + "_module_exports has content")
              else AddWarning(r1, "_module_exports has no content in any category");
    CategoryChecksCount(r2, categories);
  }

  // ---------------------------------------------------------------------
  // `_validate_public_api`, `_validate_function_signature`,
  // `_validate_function_docstring`
  // ---------------------------------------------------------------------

  /** The annotation rule: its text mentions both `Annotated` and `Field`. */
  predicate AnnotationOk(annotation: string) {
    Contains(annotation, "Annotated") && Contains(annotation, "Field")
  }

  /** The parameter loop. */
  function ParamChecks(r: Report, fname: string, params: seq<Param>): (r': Report)
    ensures Extends(r, r') && r'.errors == r.errors
    decreases |params|
  {
    if |params| == 0 then r
    else
      var before := ParamChecks(r, fname, params[..|params| - 1]);
      var p := params[|params| - 1];
      match p.annotation
      case None => AddWarning(before, "Parameter '" + p.name + "' in '" + fname + "' missing type annotation")
      case Some(a) =>
        if AnnotationOk(a) then AddPassed(before, Tick + "Parameter '" + p.name + "' in '" + fname + "' uses Annotated[Type, Field(...)]")
        else AddWarning(before, "Parameter '" + p.name + "' in '" + fname + "' should use Annotated[Type, Field(...)]")
  }

  /** The parameters that fail the rule (no annotation, or one without
      `Annotated` and `Field`). */
  function FailingParams(params: seq<Param>): nat
    decreases |params|
  {
    if |params| == 0 then 0
    else
      var p := params[|params| - 1];
      FailingParams(params[..|params| - 1]) + (if p.annotation.Some? && AnnotationOk(p.annotation.value) then 0 else 1)
  }

  /** A parameter is a warning exactly when it fails the rule and a passed
      check exactly when it satisfies it. */
  lemma {:induction false} ParamChecksCount(r: Report, fname: string, params: seq<Param>)
    ensures |ParamChecks(r, fname, params).warnings| == |r.warnings| + FailingParams(params)
    ensures |ParamChecks(r, fname, params).passed| == |r.passed| + |params| - FailingParams(params)
    decreases |params|
  {
    if |params| > 0 {
      ParamChecksCount(r, fname, params[..|params| - 1]);
    }
  }

  /** `_validate_function_signature(func)`. */
  function SignatureChecks(r: Report, f: Function): (r': Report)
    ensures Extends(r, r')
  {
    if f.signatureError.Some? then AddError(r, "Failed to get signature for " + f.name + ": " + f.signatureError.value)
    else if f.hintsError.Some? then AddError(r, "Failed to get signature for " + f.name + ": " + f.hintsError.value)
    else
      var r1 := if f.returnHint then AddPassed(r, Tick + "Function '" + f.name + "' has return type annotation")
                else AddWarning(r, "Function '" + f.name + "' missing return type annotation");
      ParamChecks(r1, f.name, f.params)
  }

  /** The signature check records an error exactly when reflection fails
      on the function. */
  lemma SignatureErrors(r: Report, f: Function)
    ensures SignatureChecks(r, f).errors == r.errors <==> f.signatureError.None? && f.hintsError.None?
    ensures |SignatureChecks(r, f).errors| <= |r.errors| + 1
  {
    if f.signatureError.Some? || f.hintsError.Some? {
      assert |SignatureChecks(r, f).errors| == |r.errors| + 1;
    }
  }

  /** The docstring section loop. */
  function SectionChecks(r: Report, fname: string, doc: string, sections: seq<string>): (r': Report)
    ensures Extends(r, r') && r'.errors == r.errors
    decreases |sections|
  {
    if |sections| == 0 then r
    else
      var before := SectionChecks(r, fname, doc, sections[..|sections| - 1]);
      var s := sections[|sections| - 1];
      if Contains(doc, s) then AddPassed(before, Tick + "Function '" + fname + "' docstring has '" + s + "' section")
      else AddWarning(before, "Function '" + fname + "' docstring missing '" + s + "' section")
  }

  /** The sections a docstring lacks. */
  function MissingSections(doc: string, sections: seq<string>): nat
    decreases |sections|
  {
    if |sections| == 0 then 0
    else MissingSections(doc, sections[..|sections| - 1]) + (if Contains(doc, sections[|sections| - 1]) then 0 else 1)
  }

  /** `_validate_function_docstring(func)`. */
  function DocstringChecks(r: Report, f: Function): (r': Report)
    ensures Extends(r, r')
  {
    if f.doc.None? || f.doc.value == "" then AddError(r, "Function '" + f.name + "' missing docstring")
    else SectionChecks(AddPassed(r, Tick + "Function '" + f.name + "' has docstring"), f.name, f.doc.value, Sections)
  }

  lemma {:induction false} SectionChecksCount(r: Report, fname: string, doc: string, sections: seq<string>)
    ensures |SectionChecks(r, fname, doc, sections).warnings| == |r.warnings| + MissingSections(doc, sections)
    decreases |sections|
  {
    if |sections| > 0 {
      SectionChecksCount(r, fname, doc, sections[..|sections| - 1]);
    }
  }

  /** A missing docstring is one error; a present one is never an error and
      gets one warning per missing `Args:` or `Returns:` section. */
  lemma DocstringCount(r: Report, f: Function)
    ensures f.doc.None? || f.doc.value == "" ==>
              |DocstringChecks(r, f).errors| == |r.errors| + 1 && DocstringChecks(r, f).warnings == r.warnings
    ensures f.doc.Some? && f.doc.value != "" ==>
              DocstringChecks(r, f).errors == r.errors
              && |DocstringChecks(r, f).warnings| == |r.warnings| + MissingSections(f.doc.value, Sections)
  {
    if f.doc.Some? && f.doc.value != "" {
      SectionChecksCount(AddPassed(r, Tick + "Function '" + f.name + "' has docstring"), f.name, f.doc.value, Sections);
    }
  }

  /** The tool loop of `_validate_public_api`: callables are checked,
      anything else is skipped. */
  function ToolChecks(r: Report, tools: seq<Value>): (r': Report)
    ensures Extends(r, r')
    decreases |tools|
  {
    if |tools| == 0 then r
    else
      var before := ToolChecks(r, tools[..|tools| - 1]);
      var tool := tools[|tools| - 1];
      if tool.Callable? then DocstringChecks(SignatureChecks(before, tool.f), tool.f) else before
  }

  /** `_validate_public_api(module)` as written: it calls `.get` on the
      exports and iterates `tools` without checking their types, so exports
      that are not a dict, or a `tools` value that cannot be iterated, raise
      (`None`). */
  function PublicApiAsWritten(r: Report, exports: Option<Value>): (o: Option<Report>)
    ensures o.None? <==>
              (exports.Some? &&
               (!exports.value.Dict? ||
                var tools := Get(exports.value.entries, "tools", List([]));
                !(tools.List? || tools.Str? || tools.Dict?)))
    ensures o.Some? ==> Extends(r, o.value)
  {
    match exports
    case None => Some(r)
    case Some(e) =>
      if !e.Dict? then None
      else match Iterate(Get(e.entries, "tools", List([])))
        case None => None
        case Some(tools) => Some(ToolChecks(r, tools))
  }

  /** `_validate_public_api(module)` skipping what `_validate_exports` has
      already reported: exports that are not a dict and a `tools` value that
      cannot be iterated. */
  function PublicApiChecks(r: Report, exports: Option<Value>): (r': Report)
    ensures Extends(r, r')
    ensures PublicApiAsWritten(r, exports).Some? ==> PublicApiAsWritten(r, exports) == Some(r')
  {
    match exports
    case None => r
    case Some(e) =>
      if !e.Dict? then r
      else match Iterate(Get(e.entries, "tools", List([])))
        case None => r
        case Some(tools) => ToolChecks(r, tools)
  }

  /** `_validate_documentation(module)`: only ever a warning. */
  function DocumentationCheck(r: Report, readme: Option<bool>): (r': Report)
    ensures Extends(r, r') && r'.errors == r.errors
  {
    match readme
    case Some(true) => AddPassed(r, Tick + "Module has documentation (README.md)")
    case Some(false) => AddWarning(r, "Module missing documentation (no README.md found)")
    case None => AddWarning(r, "Module missing documentation (could not determine module path)")
  }

  // ---------------------------------------------------------------------
  // `validate_plugin`
  // ---------------------------------------------------------------------

  /** The module checks after a successful load, starting from `r`. */
  function ModuleChecks(r: Report, m: PluginModule): Outcome {
    var metadata := MetadataChecks(r, m.info);
    if metadata.raised then metadata
    else Outcome(DocumentationCheck(PublicApiChecks(ExportChecks(metadata.report, m.exports), m.exports), m.readme), false)
  }

  /** The stages of `ModuleChecks` when the metadata checks do not raise. */
  lemma ModuleChecksStages(r: Report, m: PluginModule)
    requires !MetadataChecks(r, m.info).raised
    ensures var exported := ExportChecks(MetadataChecks(r, m.info).report, m.exports);
            ModuleChecks(r, m) == Outcome(DocumentationCheck(PublicApiChecks(exported, m.exports), m.readme), false)
  {
  }

  /** `validate_plugin(path)` from empty lists. */
  function Validate(attempt: LoadAttempt): Outcome {
    match attempt
    case MissingInit(_) | LoadRaised(_) => Outcome(AddError(Empty, ErrorOfLoad(attempt)), false)
    case NoSpec => Outcome(Empty, false)
    case Loaded(m) => ModuleChecks(Empty, m)
  }

  /** A loaded module is valid when no stage raises or records an error. */
  lemma StagesClean(m: PluginModule)
    requires !MetadataChecks(Empty, m.info).raised
    requires MetadataChecks(Empty, m.info).report.errors == []
    requires ExportChecks(MetadataChecks(Empty, m.info).report, m.exports).errors == []
    requires PublicApiChecks(ExportChecks(MetadataChecks(Empty, m.info).report, m.exports), m.exports).errors == []
    ensures !Validate(Loaded(m)).raised
    ensures ResultsOf(Validate(Loaded(m)).report).isValid
  {
    ModuleChecksStages(Empty, m);
  }

  /** The module checks as written, with the unchecked public-API pass:
      an exception there escapes with the report as it stood. */
  function ModuleChecksAsWritten(r: Report, m: PluginModule): (o: Outcome)
    ensures Extends(r, o.report)
  {
    var metadata := MetadataChecks(r, m.info);
    if metadata.raised then metadata
    else
      var exported := ExportChecks(metadata.report, m.exports);
      var api := PublicApiAsWritten(exported, m.exports);
      ExtendsTransitive(r, metadata.report, exported);
      if api.None? then Outcome(exported, true)
      else
        ExtendsTransitive(r, exported, api.value);
        ExtendsTransitive(r, api.value, DocumentationCheck(api.value, m.readme));
        Outcome(DocumentationCheck(api.value, m.readme), false)
  }

  /** The stages of `ModuleChecksAsWritten` when the metadata checks do not
      raise. */
  lemma ModuleChecksAsWrittenStages(r: Report, m: PluginModule)
    requires !MetadataChecks(r, m.info).raised
    ensures var exported := ExportChecks(MetadataChecks(r, m.info).report, m.exports);
            var api := PublicApiAsWritten(exported, m.exports);
            ModuleChecksAsWritten(r, m) ==
              if api.None? then Outcome(exported, true) else Outcome(DocumentationCheck(api.value, m.readme), false)
  {
  }

  /** `validate_plugin(path)` as written, from empty lists. */
  function ValidateAsWritten(attempt: LoadAttempt): (o: Outcome)
    ensures o.raised ==> attempt.Loaded?
    ensures attempt.MissingInit? || attempt.LoadRaised? ==> |o.report.errors| == 1
    ensures attempt.NoSpec? ==> o.report == Empty
  {
    if !attempt.Loaded? then Validate(attempt)
    else ModuleChecksAsWritten(Empty, attempt.plugin)
  }

  /** The two agree whenever the written code does not raise. */
  lemma ValidateAgrees(attempt: LoadAttempt)
    requires !ValidateAsWritten(attempt).raised
    ensures Validate(attempt) == ValidateAsWritten(attempt)
  {
    if attempt.Loaded? && !MetadataChecks(Empty, attempt.plugin.info).raised {
      ModuleChecksStages(Empty, attempt.plugin);
      ModuleChecksAsWrittenStages(Empty, attempt.plugin);
    }
  }

  /** For a loaded module whose public-API pass runs through, the written
      and the corrected validator agree. */
  lemma AgreesWhenApiRuns(m: PluginModule)
    requires !MetadataChecks(Empty, m.info).raised
    requires PublicApiAsWritten(ExportChecks(MetadataChecks(Empty, m.info).report, m.exports), m.exports).Some?
    ensures ValidateAsWritten(Loaded(m)) == Validate(Loaded(m))
  {
    ModuleChecksAsWrittenStages(Empty, m);
    ValidateAgrees(Loaded(m));
  }

  /** As written, a module whose `_module_exports` is a list crashes the
      validator after the export check has recorded the error, so the caller
      never sees results. */
  lemma ExportsListCrashesAsWritten(info: Entries, items: seq<Value>, readme: Option<bool>)
    requires !MetadataChecks(Empty, Some(info)).raised
    ensures ValidateAsWritten(Loaded(PluginModule(Some(info), Some(List(items)), readme))).raised
  {
  }

  /** An export value that is not a dict adds exactly its error, whatever
      the report so far. */
  lemma ExportsListError(r: Report, items: seq<Value>, readme: Option<bool>)
    ensures var exports := Some(List(items));
            DocumentationCheck(PublicApiChecks(ExportChecks(r, exports), exports), readme).errors
              == r.errors + ["_module_exports must be a dictionary"]
  {
  }

  /** With the public-API pass skipping exports that are not a dict, the
      results of such a module come back with the export error. */
  lemma ExportsListReported(info: Entries, items: seq<Value>, readme: Option<bool>)
    requires !MetadataChecks(Empty, Some(info)).raised
    ensures !Validate(Loaded(PluginModule(Some(info), Some(List(items)), readme))).raised
    ensures !ResultsOf(Validate(Loaded(PluginModule(Some(info), Some(List(items)), readme))).report).isValid
    ensures "_module_exports must be a dictionary" in Validate(Loaded(PluginModule(Some(info), Some(List(items)), readme))).report.errors
  {
    var m := PluginModule(Some(info), Some(List(items)), readme);
    var metadata := MetadataChecks(Empty, m.info).report;
    ModuleChecksStages(Empty, m);
    ExportsListError(metadata, items, readme);
    var final := Validate(Loaded(m)).report;
    assert final.errors == metadata.errors + ["_module_exports must be a dictionary"];
    assert final.errors[|metadata.errors|] == "_module_exports must be a dictionary";
  }

  // ---------------------------------------------------------------------
  // The validator object (`class PluginValidator`)
  // ---------------------------------------------------------------------

  class PluginValidator {
    var errors: seq<string>
    var warnings: seq<string>
    var passed: seq<string>

    function State(): Report
      reads this
    {
      Report(errors, warnings, passed)
    }

    constructor ()
      ensures State() == Empty
    {
      errors := [];
      warnings := [];
      passed := [];
    }

    /** `_get_results()`. */
    function GetResults(): (res: Results)
      reads this
      ensures res.isValid <==> errors == []
      ensures res == ResultsOf(State())
    {
      ResultsOf(State())
    }

    /** `validate_plugin(path)`: the lists are reset first, so the outcome
        depends on the plugin alone; `None` when an exception escapes. */
    method ValidatePlugin(attempt: LoadAttempt) returns (results: Option<Results>)
      modifies this
      ensures State() == ValidateAsWritten(attempt).report
      ensures results == if ValidateAsWritten(attempt).raised then None else Some(ResultsOf(ValidateAsWritten(attempt).report))
    {
      errors := [];
      warnings := [];
      passed := [];
      ghost var outcome := ValidateAsWritten(attempt);
      var m := LoadPluginModule(attempt);
      if m.None? {
        if attempt.NoSpec? {
          assert outcome == Outcome(Empty, false);
        } else {
          assert outcome == Outcome(AddError(Empty, ErrorOfLoad(attempt)), false);
        }
        return Some(GetResults());
      }
      assert attempt == Loaded(m.value);
      assert outcome == ModuleChecksAsWritten(Empty, m.value);
      var raised := RunChecks(m.value);
      if raised {
        return None;
      }
      results := Some(GetResults());
    }

    /** The checks `validate_plugin` runs on a loaded module, in order. */
    method RunChecks(m: PluginModule) returns (raised: bool)
      modifies this
      ensures State() == ModuleChecksAsWritten(old(State()), m).report
      ensures raised == ModuleChecksAsWritten(old(State()), m).raised
    {
      ghost var start := State();
      raised := ValidateModuleMetadata(m.info);
      ghost var metadata := MetadataChecks(start, m.info);
      if raised {
        return;
      }
      assert State() == metadata.report;
      ValidateExports(m.exports);
      ghost var exported := ExportChecks(metadata.report, m.exports);
      assert State() == exported;
      raised := ValidatePublicApi(m.exports);
      ghost var api := PublicApiAsWritten(exported, m.exports);
      ModuleChecksAsWrittenStages(start, m);
      if raised {
        assert State() == exported;
        return;
      }
      assert State() == api.value;
      ValidateDocumentation(m.readme);
      assert State() == DocumentationCheck(api.value, m.readme);
    }

    /** `_load_plugin_module(path)`. */
    method LoadPluginModule(attempt: LoadAttempt) returns (m: Option<PluginModule>)
      modifies this
      ensures m.Some? <==> attempt.Loaded?
      ensures m.Some? ==> m.value == attempt.plugin
      ensures attempt.Loaded? || attempt.NoSpec? ==> State() == old(State())
      ensures attempt.MissingInit? || attempt.LoadRaised? ==> State() == AddError(old(State()), ErrorOfLoad(attempt))
    {
      match attempt
      case MissingInit(path) =>
        errors := errors + ["Missing __init__.py file in " + path];
        m := None;
      case LoadRaised(message) =>
        errors := errors + ["Failed to load plugin module: " + message];
        m := None;
      case NoSpec =>
        m := None;
      case Loaded(plugin) =>
        m := Some(plugin);
    }

    /** `_validate_module_metadata(module)`; `raised` when an exception
        escapes. */
    method ValidateModuleMetadata(info: Option<Entries>) returns (raised: bool)
      modifies this
      ensures State() == MetadataChecks(old(State()), info).report
      ensures raised == MetadataChecks(old(State()), info).raised
    {
      if info.None? {
        errors := errors + ["Missing _module_info dictionary"];
        return false;
      }
      var entries := info.value;
      passed := passed + [Tick + "_module_info dictionary exists"];
      ghost var start := State();
      for k := 0 to |RequiredFields|
        invariant State() == FieldChecks(start, entries, RequiredFields[..k])
      {
        assert RequiredFields[..k + 1][..k] == RequiredFields[..k];
        var field := RequiredFields[k];
        if field !in Keys(entries) {
          errors := errors + ["Missing required field in _module_info: " + field];
        } else {
          passed := passed + [Tick + "_module_info." + field + " exists"];
        }
      }
      assert RequiredFields[..|RequiredFields|] == RequiredFields;
      VersionAndPlatform(entries);
      raised := ValidateDependencies(entries);
      if raised {
        return;
      }
      ValidateEnvironmentVariables(entries);
    }

    /** The version and platform checks. */
    method VersionAndPlatform(entries: Entries)
      modifies this
      ensures State() == PlatformCheck(VersionCheck(old(State()), entries), entries)
    {
      if "version" in Keys(entries) {
        var version := Get(entries, "version", NoneValue);
        if !version.Str? || '.' !in version.s {
          warnings := warnings + ["Version '" + Show(version) + "' should follow semantic versioning (e.g., '1.0.0')"];
        } else {
          passed := passed + [Tick + "Version format looks valid"];
        }
      }
      if "platform" in Keys(entries) {
        var platform := Get(entries, "platform", NoneValue);
        if platform !in ValidPlatforms {
          warnings := warnings + ["Platform '" + Show(platform) + "' not in recommended values: " + Show(List(ValidPlatforms))];
        } else {
          passed := passed + [Tick + "Platform value is valid"];
        }
      }
    }

    /** The dependencies check. */
    method ValidateDependencies(entries: Entries) returns (raised: bool)
      modifies this
      ensures State() == DependencyCheck(old(State()), entries).report
      ensures raised == DependencyCheck(old(State()), entries).raised
    {
      raised := false;
      if "dependencies" in Keys(entries) {
        var deps := Get(entries, "dependencies", NoneValue);
        if !deps.List? {
          errors := errors + ["dependencies must be a list"];
        } else {
          passed := passed + [Tick + "Dependencies is a list"];
          if Str("pydantic>=2.0.0") !in deps.items {
            var found := AnyContains(deps.items, "pydantic");
            if found.None? {
              return true;
            }
            if found.value {
              warnings := warnings + ["Consider using 'pydantic>=2.0.0' for compatibility"];
            }
          }
        }
      }
    }

    /** The environment-variable checks. */
    method ValidateEnvironmentVariables(entries: Entries)
      modifies this
      ensures State() == EnvChecks(old(State()), entries)
    {
      if "environment_variables" !in Keys(entries) {
        return;
      }
      var declared := Get(entries, "environment_variables", NoneValue);
      if !declared.Dict? {
        errors := errors + ["environment_variables must be a dictionary"];
        return;
      }
      passed := passed + [Tick + "Environment variables is a dictionary"];
      var vars := declared.entries;
      ghost var start := State();
      for i := 0 to |vars|
        invariant State() == VarsChecks(start, vars[..i])
      {
        assert vars[..i + 1][..i] == vars[..i];
        var (name, spec) := vars[i];
        if !spec.Dict? {
          errors := errors + ["Environment variable '" + name + "' must be a dictionary"];
        } else {
          ghost var before := State();
          for k := 0 to |VarFields|
            invariant State() == VarFieldChecks(before, name, spec.entries, VarFields[..k])
          {
            assert VarFields[..k + 1][..k] == VarFields[..k];
            var field := VarFields[k];
            if field !in Keys(spec.entries) {
              errors := errors + ["Missing field '" + field + "' in environment variable '" + name + "'"];
            } else {
              passed := passed + [Tick + "Environment variable '" + name + "." + field + "' exists"];
            }
          }
          assert VarFields[..|VarFields|] == VarFields;
        }
      }
      assert vars[..|vars|] == vars;
    }

    /** `_validate_exports(module)`. */
    method ValidateExports(exports: Option<Value>)
      modifies this
      ensures State() == ExportChecks(old(State()), exports)
    {
      if exports.None? {
        errors := errors + ["Missing _module_exports dictionary"];
        return;
      }
      passed := passed + [Tick + "_module_exports dictionary exists"];
      var e := exports.value;
      if !e.Dict? {
        errors := errors + ["_module_exports must be a dictionary"];
        return;
      }
      if !HasContent(e.entries) {
        warnings := warnings + ["_module_exports has no content in any category"];
      } else {
        passed := passed + [Tick + "_module_exports has content"];
      }
      var categories := e.entries;
      ghost var start := State();
      for c := 0 to |categories|
        invariant State() == CategoryChecks(start, categories[..c])
      {
        assert categories[..c + 1][..c] == categories[..c];
        ValidateCategory(categories[c].0, categories[c].1);
      }
      assert categories[..|categories|] == categories;
    }

    /** One category of the export loop. */
    method ValidateCategory(category: string, items: Value)
      modifies this
      ensures State() == CategoryCheck(old(State()), category, items)
    {
      if !items.List? {
        errors := errors + ["_module_exports['" + category + "'] must be a list"];
        return;
      }
      var list := items.items;
      if |list| > 0 {
        passed := passed + [Tick + "Found " + IntToString(|list|) + " items in '" + category + "' category"];
        ghost var start := State();
        for i := 0 to |list|
          invariant State() == ItemChecks(start, category, list[..i])
        {
          assert list[..i + 1][..i] == list[..i];
          var item := list[i];
          if category == "tools" {
            if !item.Callable? {
              errors := errors + ["Tool " + IntToString(i) + " in '" + category + "' is not callable"];
            } else {
              passed := passed + [Tick + "Tool '" + item.f.name + "' is callable"];
            }
          } else {
            if item.Callable? {
              passed := passed + [Tick + "Item '" + item.f.name + "' in '" + category + "' category"];
            } else {
              passed := passed + [Tick + "Item " + IntToString(i) + " in '" + category + "' category exists"];
            }
          }
        }
        assert list[..|list|] == list;
      }
      if category !in CommonCategories {
        warnings := warnings + ["Custom category '" + category + "' found (this is allowed but uncommon)"];
      }
    }

    /** `_validate_public_api(module)`: `.get` on exports that are not a
        dict, or iterating a `tools` value that cannot be iterated, raises
        before anything is recorded. */
    method ValidatePublicApi(exports: Option<Value>) returns (raised: bool)
      modifies this
      ensures raised == PublicApiAsWritten(old(State()), exports).None?
      ensures raised ==> State() == old(State())
      ensures !raised ==> State() == PublicApiAsWritten(old(State()), exports).value
    {
      if exports.None? {
        return false;
      }
      if !exports.value.Dict? {
        return true;
      }
      var listed := Iterate(Get(exports.value.entries, "tools", List([])));
      if listed.None? {
        return true;
      }
      var tools := listed.value;
      ghost var start := State();
      for t := 0 to |tools|
        invariant State() == ToolChecks(start, tools[..t])
      {
        assert tools[..t + 1][..t] == tools[..t];
        if tools[t].Callable? {
          ValidateFunctionSignature(tools[t].f);
          ValidateFunctionDocstring(tools[t].f);
        }
      }
      assert tools[..|tools|] == tools;
      raised := false;
    }

    /** `_validate_function_signature(func)`. */
    method ValidateFunctionSignature(f: Function)
      modifies this
      ensures State() == SignatureChecks(old(State()), f)
    {
      if f.signatureError.Some? {
        errors := errors + ["Failed to get signature for " + f.name + ": " + f.signatureError.value];
        return;
      }
      if f.hintsError.Some? {
        errors := errors + ["Failed to get signature for " + f.name + ": " + f.hintsError.value];
        return;
      }
      if !f.returnHint {
        warnings := warnings + ["Function '" + f.name + "' missing return type annotation"];
      } else {
        passed := passed + [Tick + "Function '" + f.name + "' has return type annotation"];
      }
      var params := f.params;
      ghost var start := State();
      for k := 0 to |params|
        invariant State() == ParamChecks(start, f.name, params[..k])
      {
        assert params[..k + 1][..k] == params[..k];
        var p := params[k];
        if p.annotation.None? {
          warnings := warnings + ["Parameter '" + p.name + "' in '" + f.name + "' missing type annotation"];
        } else if AnnotationOk(p.annotation.value) {
          passed := passed + [Tick + "Parameter '" + p.name + "' in '" + f.name + "' uses Annotated[Type, Field(...)]"];
        } else {
          warnings := warnings + ["Parameter '" + p.name + "' in '" + f.name + "' should use Annotated[Type, Field(...)]"];
        }
      }
      assert params[..|params|] == params;
    }

    /** `_validate_function_docstring(func)`. */
    method ValidateFunctionDocstring(f: Function)
      modifies this
      ensures State() == DocstringChecks(old(State()), f)
    {
      if f.doc.None? || f.doc.value == "" {
        errors := errors + ["Function '" + f.name + "' missing docstring"];
        return;
      }
      var doc := f.doc.value;
      passed := passed + [Tick + "Function '" + f.name + "' has docstring"];
      ghost var start := State();
      for k := 0 to |Sections|
        invariant State() == SectionChecks(start, f.name, doc, Sections[..k])
      {
        assert Sections[..k + 1][..k] == Sections[..k];
        var section := Sections[k];
        if !Contains(doc, section) {
          warnings := warnings + ["Function '" + f.name + "' docstring missing '" + section + "' section"];
        } else {
          passed := passed + [Tick + "Function '" + f.name + "' docstring has '" + section + "' section"];
        }
      }
      assert Sections[..|Sections|] == Sections;
    }

    /** `_validate_documentation(module)`. */
    method ValidateDocumentation(readme: Option<bool>)
      modifies this
      ensures State() == DocumentationCheck(old(State()), readme)
    {
      match readme
      case Some(true) =>
        passed := passed + [Tick + "Module has documentation (README.md)"];
      case Some(false) =>
        warnings := warnings + ["Module missing documentation (no README.md found)"];
      case None =>
        warnings := warnings + ["Module missing documentation (could not determine module path)"];
    }
  }

  /** The error a failed load records. */
  function ErrorOfLoad(attempt: LoadAttempt): string {
    match attempt
    case MissingInit(path) => "Missing __init__.py file in " + path
    case LoadRaised(message) => "Failed to load plugin module: " + message
    case _ => ""
  }
}
