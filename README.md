# ld-agent plugin core, modelled in Dafny

This project models the plugin machinery of the ld-agent Python repository.

- **Loader** (`ldagent/loader.py`): the `Plugins` registry discovers plugin units in a plugins directory. There are two kinds: single `*.py` files and packages. The registry executes each unit and gates it on its `_module_info` record: the unit needs a non-empty record, true exports and a compatible platform and Python version. It then registers the unit's metadata and its callable tools under `<identifier>.<function name>`, and calls its init hook once. While a package is imported, the plugins directory is put on `sys.path`.
- **Environment aggregator** (`ldagent/env_utils.py`): `PluginEnvManager` merges the `environment_variables` of every loaded plugin. From the merged map it renders a `.env` template, reports the required variables that are unset, summarises the variables per plugin and flags names that share a final `_` segment.
- **Validator** (`plugins/validate_plugin.py`): `PluginValidator` checks one plugin against the plugin conventions. It records errors, warnings and passed checks; a plugin is valid when there are no errors.
- **Dependency checker** (`ldagent/depcheck.py`): it reads the `dependencies` list out of each plugin file's source text with three regular expressions. It then checks that the packages can be imported, or writes a sorted `plugin_requirements.txt`.
- **Documentation generator** (`plugins/generate_docs.py`): it renders one Markdown page per plugin package.
- **Letter counter** (`plugins/letter_counter.py`): the sample plugin, with one case-insensitive counting tool. Its two records serve as a concrete input for the gate, the registry and the validator.

Python values are modelled by `PyValues.Value`: strings, integers, booleans, `None`, lists, dicts and callables. A callable is a `PyValues.Function` record: what reflection (`inspect.signature`, `get_type_hints`, `inspect.getdoc`) reports about it, and whether calling it raises. Dicts are insertion-ordered association lists (`Assoc`): storing an existing key keeps its position, and a new key is appended. An exception that escapes an operation is an explicit `None` or a `raised` flag, never a precondition.

What the program reads from the outside arrives as parameters:
- the file system (directory listings, file contents, whether a `README.md` exists);
- the host's `platform.system()` and `sys.version_info`;
- the process environment;
- the set of importable packages.

Files the program writes become returned values.

Each module states its operations as functions. Where the source loops or mutates an object, the model has a class or method whose `ensures` ties the new state or the result to those functions: `Loader.Plugins`, `EnvUtils.PluginEnvManager`, `Validator.PluginValidator`, and the loops of `depcheck.py` and `generate_docs.py`. Lemmas prove what the source promises about those functions. The classes run the code as written, including the three defects listed under "## Findings"; each corrected behaviour is a separate function, with its intended property proved and related to the written one.

## Model

| member | source | states |
|---|---|---|
| Text.Lower | plugins/letter_counter.py:28-29 | `lower()` keeps the length and maps each character |
| Text.Upper | plugins/letter_counter.py:27 | the case change used to state the promised case-insensitive counting: it keeps the length and maps each character |
| Text.Split | ldagent/loader.py:47 | `split(sep)` yields at least one part and no part holds the separator |
| Text.Strip | ldagent/depcheck.py:86 | `strip()` leaves no white space at either end; `StripSlice` places the result in the input |
| Text.StripSlice | ldagent/depcheck.py:86 | `strip()` returns the slice of the input between a leading and a trailing run of white space |
| Text.LowerUpper | plugins/letter_counter.py:28-29 | lower-casing an upper-cased text gives the lower-cased text: `lower()` folds both cases to one |
| Text.SplitJoin | ldagent/loader.py:47 | `str.split(sep)` inverts joining non-empty-list parts that do not contain `sep` |
| Text.SplitMany | ldagent/env_utils.py:133-134 | `name.split('_')` has more than one part exactly when `_` occurs in the name |
| Text.DigitsRoundTrip | ldagent/loader.py:47 | `int()` of the decimal text of `n` is `n` |
| Text.StripTrimmed | ldagent/depcheck.py:86 | `strip()` leaves a text without surrounding white space unchanged |
| Text.LessTotal | ldagent/depcheck.py:133 | the string order `sorted` uses relates any two different strings |
| Text.LessTransitive | ldagent/depcheck.py:133 | the string order is transitive |
| Text.LessAsymmetric | ldagent/depcheck.py:133 | the string order is asymmetric |
| Text.LessIrreflexive | ldagent/depcheck.py:133 | no string is below itself |
| Assoc.PutLookup | ldagent/loader.py:90 | after `d[k] = v`, `k` holds `v` and every other key what it held |
| Assoc.LookupIn | ldagent/loader.py:206 | in a dict, `get(k)` is `v` exactly when the pair `(k, v)` is stored |
| PyValues.Get | ldagent/loader.py:35 | `d.get(k, default)` is the default for a missing key and the stored value otherwise |
| PyValues.In | plugins/validate_plugin.py:127 | `s in x` raises exactly for a container that is not a string, list or dict |
| PyValues.Iterate | ldagent/loader.py:88 | iteration raises exactly for a value that is not a list, a string or a dict; a list yields its items, a string its characters, a dict its keys; only a list can yield callables |
| Loader.HostName | ldagent/loader.py:37 | the host name in the declared vocabulary: `darwin` becomes `macos`, anything else is lower-cased |
| Loader.HostNameAsWritten | ldagent/loader.py:37 | `platform.system().lower()` lower-cases each character of the system name, so macOS reads `darwin` |
| Loader.MacosRefusedAsWritten | ldagent/loader.py:36-41 | as written, a plugin declaring only `macos` is refused on every macOS host; with the mapped host name it is admitted |
| Loader.HostNameAgrees | ldagent/loader.py:36-41 | off macOS the mapped host name decides as the written one does |
| Loader.MacosPluginRefused | ldagent/loader.py:36-41 | on a macOS host the registry refuses a plugin declaring `platform: "macos"` and changes nothing |
| Loader.PassesAgreesOffMacos | ldagent/loader.py:36-41 | off macOS the written gate and the one with the mapped host name decide alike |
| Loader.PassesIntended | ldagent/loader.py:66-81 | the corrected gate, with `darwin` mapped to `macos`; like the written one it admits only a module with non-empty metadata and true exports; `PassesAgreesOffMacos` relates the two |
| Loader.ListPlatformAdmits | ldagent/loader.py:36-41 | a non-empty platform list admits exactly the hosts it names |
| Loader.PlatformAdmits | ldagent/loader.py:34-41 | the platform test refuses exactly a declared string other than `""`, `any` and the host name, or a non-empty list that does not name the host; `ListPlatformAdmits` and `StringPlatformIsList` state its two forms |
| Loader.VersionAdmits | ldagent/loader.py:43-51 | the version test raises exactly for a true non-string constraint, and refuses exactly a parsed `>=` minimum the host is below; `MinimumVersionGate` and `VersionGateFailsOpen` state it further |
| Loader.IsCompatible | ldagent/loader.py:32-53 | reference definition of the gate: `True` exactly when both tests admit; it can raise only after the platform test has admitted |
| Loader.StringPlatformIsList | ldagent/loader.py:38-39 | a single platform string behaves as the one-element list holding it |
| Loader.ParseVersion | ldagent/loader.py:47 | a parsed version has one component per `.`-separated part |
| Loader.ParseVersionText | ldagent/loader.py:47 | a dotted version parses back to its components |
| Loader.MinimumVersionGate | ldagent/loader.py:44-51 | `>=X.Y` admits exactly the hosts not below `X.Y`; a comparison that raises admits |
| Loader.MinimumVersionAdmitsItself | ldagent/loader.py:48 | a host whose version starts with the minimum is admitted |
| Loader.VersionLessPrefix | ldagent/loader.py:48 | a version is not below any prefix of itself |
| Loader.VersionGateFailsOpen | ldagent/loader.py:45-51 | a constraint that is not `>=`, or whose version does not parse, never refuses |
| Loader.Stem | ldagent/loader.py:84 | the name without its `.py` suffix, and the name itself when it has none |
| Loader.HookCalls | ldagent/loader.py:93-99 | one call exactly when `init_function` is callable, recording the plugin, the tool keys registered by then and whether the hook raised |
| Loader.LastTool | ldagent/loader.py:88-90 | reference definition: the last callable whose qualified name is the key |
| Loader.RegisterToolsLookup | ldagent/loader.py:88-90 | after the tool loop each key holds the last callable registered under it, and every other key keeps its value |
| Loader.LastToolFinds | ldagent/loader.py:88-90 | every callable of `tools` is found under its qualified key |
| Loader.RegisterToolsKeys | ldagent/loader.py:88-90 | registration keeps the existing keys in order and only appends |
| Loader.RegisterOneTool | ldagent/loader.py:87-99 | exports with one callable under `tools` and no init hook store exactly that callable under its qualified key and call no hook |
| Loader.RegisterExportsFrame | ldagent/loader.py:87-99 | registration leaves the metadata alone, keeps every tool key, only appends hook calls and changes only the tools under `<identifier>.` |
| Loader.ToolKeyPrefix | ldagent/loader.py:90 | a qualified key starts with `<identifier>.` |
| Loader.AdmitFrame | ldagent/loader.py:66-104 | a refused unit changes nothing; an admitted one changes only its own metadata and its own `<identifier>.` tools, and is listed with its `_module_info` |
| Loader.AdmitModule | ldagent/loader.py:66-104 | a load succeeds only for a module that passes the gate, and a refused module leaves the registry unchanged; `AdmitFrame` gives the rest |
| Loader.LoadFile | ldagent/loader.py:55-107 | `load_plugin` returns `True` only when the file had a spec, executed and passed the gate; without a spec, or when execution raised, nothing changes |
| Loader.LoadDir | ldagent/loader.py:110-178 | `load_package_plugin` returns `True` only when `__init__.py` exists, the import succeeded and the module passed the gate; otherwise, before admission, nothing changes |
| Loader.HookAfterTools | ldagent/loader.py:87-99 | the init hook runs once, after every tool of the unit is registered |
| Loader.LoadFilesGrows | ldagent/loader.py:188-191 | the file pass never forgets a tool, plugin or hook call and counts at most one load per file |
| Loader.LoadDirsGrows | ldagent/loader.py:194-197 | the package pass likewise |
| Loader.LoadAllGrows | ldagent/loader.py:180-202 | a discovery pass only adds, and counts at most one load per entry |
| Loader.LoadAllSpec | ldagent/loader.py:180-202 | a missing directory loads nothing and changes nothing; `LoadAllGrows` and `LoadedFilesListed` state the rest |
| Loader.LoadedFilesListed | ldagent/loader.py:188-191 | a file reported as loaded is listed afterwards under its stem |
| Loader.RemoveFirst | ldagent/loader.py:133-134 | `list.remove` drops exactly one entry when the value is present and nothing otherwise |
| Loader.PathAsWrittenDropsExistingEntry | ldagent/loader.py:119-134 | as written, a plugins directory already on `sys.path` is gone from it after a package load |
| Loader.PathAsWrittenExample | ldagent/loader.py:119-134 | concrete case: `sys.path == [root]` becomes empty |
| Loader.PathAfterLoadIsRemove | ldagent/loader.py:119-134 | as written, a package load removes the first occurrence of the plugins directory, inserted or not |
| Loader.PathAfterDirsEffect | ldagent/loader.py:194-197 | the package loop never lengthens `sys.path`; it restores it when the plugins directory was absent or no package loads, and drops a pre-existing entry once a package loads |
| Loader.PathRestored | ldagent/loader.py:118-134 | removing only what was inserted leaves `sys.path` as it was |
| Loader.SearchPath.InsertIfAbsent | ldagent/loader.py:120-121 | the directory is put at the front exactly when absent |
| Loader.SearchPath.RemoveAsWritten | ldagent/loader.py:133-134 | the `finally` clause as written removes the first occurrence |
| Loader.SearchPath.Release | ldagent/loader.py:131-134 | the corrected clause removes only an entry the load inserted |
| Loader.Plugins.constructor | ldagent/loader.py:18-25 | an empty registry runs one discovery pass; `sys.path` ends as the written `finally` clauses leave it |
| Loader.Plugins.Admit | ldagent/loader.py:66-104 | the registration steps, equal to `AdmitModule` with the gate on `platform.system().lower()`; keys stay unique |
| Loader.Plugins.Register | ldagent/loader.py:87-99 | the tool loop and the init hook call, equal to `RegisterExports` |
| Loader.Plugins.LoadPlugin | ldagent/loader.py:55-108 | `load_plugin`, equal to `LoadFile` |
| Loader.Plugins.LoadPackagePlugin | ldagent/loader.py:110-178 | `load_package_plugin`, equal to `LoadDir`; afterwards the first occurrence of the plugins directory is gone from `sys.path`, whoever inserted it |
| Loader.Plugins.LoadAll | ldagent/loader.py:180-202 | `load_all`: the files before the packages, returning the count of loads, with `sys.path` as `PathAfterLoadAll` |
| Loader.Plugins.LoadFileUnits | ldagent/loader.py:188-191 | the file loop, equal to `LoadFiles` |
| Loader.Plugins.LoadPackages | ldagent/loader.py:194-197 | the package loop, equal to `LoadDirs`, with `sys.path` as `PathAfterDirs` |
| Loader.Plugins.GetTool | ldagent/loader.py:204-206 | absent exactly for an unlisted name, else the stored function |
| Loader.Plugins.ListTools | ldagent/loader.py:208-210 | the qualified names in registration order |
| Loader.Plugins.GetAllTools | ldagent/loader.py:212-214 | the functions in the same order |
| Loader.Plugins.ListPlugins | ldagent/loader.py:217-219 | a copy with the same keys and lookups as the metadata |
| Loader.Plugins.ToolQueriesAgree | ldagent/loader.py:204-214 | the i-th listed name looks up the i-th listed function |
| EnvUtils.MergeVar | ldagent/env_utils.py:25-29 | a merged specification keeps every declared key |
| EnvUtils.MergeVarLookup | ldagent/env_utils.py:25-29 | `plugin` and `plugin_display_name` override; every other key is the declared value |
| EnvUtils.Declarations | ldagent/env_utils.py:23-29 | a plugin contributes exactly its declared variable names |
| EnvUtils.AllEnvVars | ldagent/env_utils.py:18-31 | the merged map has each variable once |
| EnvUtils.LastDeclared | ldagent/env_utils.py:22-29 | reference definition: the last declaration of a name |
| EnvUtils.PutAllLookup | ldagent/env_utils.py:24-25 | each variable holds its last declaration; others keep their values |
| EnvUtils.PutAllKeys | ldagent/env_utils.py:24-25 | the keys are the old keys and the declared names, old ones in place |
| EnvUtils.PutAllAppend | ldagent/env_utils.py:22-25 | storing two batches is storing their concatenation |
| EnvUtils.MergedIsLastDeclaration | ldagent/env_utils.py:18-31 | the merged map holds exactly the declared names, each with its last declaration |
| EnvUtils.LaterPluginWins | ldagent/env_utils.py:22-29 | a later plugin's declaration of a name replaces an earlier one |
| EnvUtils.DeclaredOnce | ldagent/env_utils.py:24-29 | a variable one plugin declares once holds its merged specification |
| EnvUtils.StoreDeclarations | ldagent/env_utils.py:24-29 | the inner merge loop stores one plugin's merged declarations; it raises exactly when a specification is not a dict |
| EnvUtils.NoDeclarationsPropagates | ldagent/env_utils.py:23-24 | one plugin whose variables cannot be iterated makes the whole merge raise |
| EnvUtils.Header | ldagent/env_utils.py:37-45 | the template header has seven lines; `TemplateStartsWithHeader` proves every template starts with them |
| EnvUtils.Banner | ldagent/env_utils.py:54-58 | a plugin banner has three lines; `BannerOnFirstVariable` proves where it appears |
| EnvUtils.PluginsSeenSnoc | ldagent/env_utils.py:48-59 | the plugins seen grow by the plugin of each variable visited |
| EnvUtils.TemplateLinesSnoc | ldagent/env_utils.py:49-75 | one more variable adds at most a banner and its four lines |
| EnvUtils.TemplateShape | ldagent/env_utils.py:37-75 | the template has seven header lines, three lines per distinct plugin and four per variable |
| EnvUtils.TemplateLines | ldagent/env_utils.py:37-75 | the template lines: at least the header and four lines per variable; `TemplateShape`, `TemplateStartsWithHeader` and `BannerOnFirstVariable` fix their layout |
| EnvUtils.TemplateStartsWithHeader | ldagent/env_utils.py:37-45 | the template begins with the header |
| EnvUtils.BannerOnFirstVariable | ldagent/env_utils.py:53-59 | a plugin's banner comes right before its first variable and only there |
| EnvUtils.MissingEntries | ldagent/env_utils.py:90-93 | only required, unset variables are reported |
| EnvUtils.MissingExactly | ldagent/env_utils.py:90-93 | a variable is reported exactly when it is required and unset or empty |
| EnvUtils.SettingClears | ldagent/env_utils.py:91 | setting a variable to a non-empty value removes it from the report |
| EnvUtils.GroupIndex | ldagent/env_utils.py:107 | finds the group of a display name, or proves there is none |
| EnvUtils.GroupsDistinct | ldagent/env_utils.py:104-109 | each display name heads one group |
| EnvUtils.Groups | ldagent/env_utils.py:103-109 | the display-name grouping: no more groups than variables, and at least one when there is a variable; `GroupsDistinct`, `GroupsMembers`, `GroupsTotal`, `GroupsWithDisplay`, `GroupsPlaced` and `GroupsFirstSeenOrder` state its content |
| EnvUtils.WithDisplay | ldagent/env_utils.py:104-109 | reference definition: the variables bearing one display name, in merged order |
| EnvUtils.FirstBearing | ldagent/env_utils.py:104-109 | reference definition: the index of the first variable bearing a display name, at most the number of variables |
| EnvUtils.FirstBearingFirst | ldagent/env_utils.py:104-109 | `FirstBearing` is the first index bearing the display name, and none before it does |
| EnvUtils.AddToGroupsDisplays | ldagent/env_utils.py:106-109 | one step keeps the earlier groups' display names in place, and either finds the variable's group or opens it at the end |
| EnvUtils.GroupsCover | ldagent/env_utils.py:104-108 | every variable's display name heads a group |
| EnvUtils.GroupsBorne | ldagent/env_utils.py:104-108 | every group's display name is borne by some variable |
| EnvUtils.GroupsUnborne | ldagent/env_utils.py:107 | a display name that heads no group is borne by no variable |
| EnvUtils.GroupsWithDisplay | ldagent/env_utils.py:104-109 | each group holds exactly the variables bearing its display name, in merged order |
| EnvUtils.GroupsPlaced | ldagent/env_utils.py:104-109 | each variable is a member of the group headed by its own display name |
| EnvUtils.GroupsFirstSeenOrder | ldagent/env_utils.py:104-111 | groups come in the order in which their display names first appear |
| EnvUtils.GroupsMembers | ldagent/env_utils.py:104-109 | every group member is a variable carrying that display name |
| EnvUtils.GroupsTotal | ldagent/env_utils.py:104-109 | the groups hold as many members as there are variables |
| EnvUtils.TotalMembersUpdate | ldagent/env_utils.py:109 | appending to one group changes the total by that group's growth |
| EnvUtils.GroupLines | ldagent/env_utils.py:111-117 | a group renders as a heading, one line per member and a blank line |
| EnvUtils.AllGroupLines | ldagent/env_utils.py:111-117 | all groups render to members plus two lines per group |
| EnvUtils.SummaryShape | ldagent/env_utils.py:97-119 | the summary has two title lines, two per group and one per variable |
| EnvUtils.SummaryText | ldagent/env_utils.py:97-119 | the summary text starts with its title line; `SummaryShape` counts its lines |
| EnvUtils.ScanConflicts | ldagent/env_utils.py:130-139 | `seen_bases` never holds a final segment twice |
| EnvUtils.Underscored | ldagent/env_utils.py:133-134 | the names with an underscore, in order |
| EnvUtils.ConflictSeen | ldagent/env_utils.py:130-139 | `seen_bases` holds exactly the distinct final segments, each with the first name ending in it |
| EnvUtils.ConflictCount | ldagent/env_utils.py:121-141 | conflicts = names with an underscore minus distinct final segments |
| EnvUtils.NoUnderscoreNoConflicts | ldagent/env_utils.py:134 | a list in which no name has an underscore yields no message |
| EnvUtils.FirstWithBaseAt | ldagent/env_utils.py:136-139 | the name recorded first for a segment is one of the names, contains `_` and ends in that segment |
| EnvUtils.ConflictMessagesFrom | ldagent/env_utils.py:130-137 | every message names a later name containing `_` and an earlier one containing `_` with the same final segment, so a name without `_` is never examined, in any list |
| EnvUtils.PluginEnvManager.GetAllEnvVars | ldagent/env_utils.py:18-31 | the merge loop computes `AllEnvVars` |
| EnvUtils.PluginEnvManager.GenerateEnvTemplate | ldagent/env_utils.py:33-83 | the text is the template lines joined by newlines |
| EnvUtils.PluginEnvManager.ValidateEnvVars | ldagent/env_utils.py:85-95 | one message per required, unset variable, in merged order |
| EnvUtils.PluginEnvManager.GetPluginEnvSummary | ldagent/env_utils.py:97-119 | the summary text; it raises when a display name cannot be a dict key |
| EnvUtils.PluginEnvManager.CheckConflicts | ldagent/env_utils.py:121-141 | the conflicts of the merged names |
| EnvUtils.RenderTemplate | ldagent/env_utils.py:49-77 | the loop builds the joined template lines |
| EnvUtils.ReportMissing | ldagent/env_utils.py:90-93 | the loop builds the missing-variable messages |
| EnvUtils.RenderSummary | ldagent/env_utils.py:104-119 | the two loops build the summary text |
| EnvUtils.GroupByDisplay | ldagent/env_utils.py:104-109 | the grouping loop is `Groups`; it raises exactly on an unhashable display name |
| EnvUtils.AppendToGroup | ldagent/env_utils.py:106-109 | one variable joins the group of its display name, or opens a new group, as `AddToGroups` |
| EnvUtils.RenderGroup | ldagent/env_utils.py:112-117 | the inner loop renders one group |
| EnvUtils.FindConflicts | ldagent/env_utils.py:130-139 | the loop computes the conflicts |
| Validator.ResultsOf | plugins/validate_plugin.py:284-291 | the results carry the three lists and are valid exactly when there is no error |
| Validator.NoneMissing | plugins/validate_plugin.py:98-100 | no field is missing exactly when every required field is a key |
| Validator.MissingFields | plugins/validate_plugin.py:98-100 | at most one missing entry per field |
| Validator.FieldChecks | plugins/validate_plugin.py:98-102 | each field is either one error or one passed check, never a warning |
| Validator.FieldChecksCount | plugins/validate_plugin.py:98-100 | exactly one error per missing field |
| Validator.AnyContainsStrings | plugins/validate_plugin.py:127 | over strings, the scan is substring search in some dependency |
| Validator.AnyContainsRaises | plugins/validate_plugin.py:127 | the scan raises only on an element with no membership test |
| Validator.PydanticAdvice | plugins/validate_plugin.py:121-128 | a list of strings is never an error; the pydantic warning appears exactly when the exact specifier is absent and some dependency mentions pydantic |
| Validator.DependencyCheck | plugins/validate_plugin.py:120-128 | the dependency check only appends, and can raise only on a `dependencies` list; `DependencyCheckCount` and `PydanticAdvice` state its messages |
| Validator.VersionCheck | plugins/validate_plugin.py:104-110 | the version check never records an error, and adds one warning exactly for a declared version that is not a string or has no `.` |
| Validator.PlatformCheck | plugins/validate_plugin.py:112-118 | the platform check never records an error, and adds one warning exactly for a declared platform outside `any`, `linux`, `windows` and `macos` |
| Validator.VarFieldChecks | plugins/validate_plugin.py:142-147 | the variable field loop never warns |
| Validator.VarFieldChecksCount | plugins/validate_plugin.py:142-145 | one error per missing variable field |
| Validator.VarsChecks | plugins/validate_plugin.py:137-147 | the variable loop never warns |
| Validator.VarsChecksCount | plugins/validate_plugin.py:137-147 | one error per non-dict specification and per missing field |
| Validator.EnvChecks | plugins/validate_plugin.py:131-147 | the environment checks never warn |
| Validator.EnvChecksCount | plugins/validate_plugin.py:131-147 | the environment checks' errors are `EnvErrors` |
| Validator.DependencyCheckCount | plugins/validate_plugin.py:121-124 | the dependency check has one error for a non-list and none otherwise |
| Validator.MissingInfoOneError | plugins/validate_plugin.py:86-88 | a missing `_module_info` is one error and nothing else |
| Validator.MetadataChecks | plugins/validate_plugin.py:84-147 | the metadata checks only append, and can raise only when `_module_info` exists; `MissingInfoOneError` and `MetadataErrorCount` count the errors |
| Validator.MetadataErrorCount | plugins/validate_plugin.py:84-147 | metadata errors = missing fields + non-list dependencies + environment errors; version and platform only warn |
| Validator.ItemChecks | plugins/validate_plugin.py:181-198 | the item loop never warns |
| Validator.ItemChecksCount | plugins/validate_plugin.py:185-188 | one error per non-callable item of `tools` and none elsewhere |
| Validator.CategoryCheck | plugins/validate_plugin.py:176-202 | one category check only appends |
| Validator.CategoryChecks | plugins/validate_plugin.py:176-202 | the category loop only appends |
| Validator.CategoryChecksCount | plugins/validate_plugin.py:176-202 | one error per non-list category or non-callable tool; one warning per custom list category |
| Validator.ExportChecks | plugins/validate_plugin.py:149-202 | the export checks only append |
| Validator.ExportsNotDictOneError | plugins/validate_plugin.py:151-160 | missing or non-dict exports are one error and stop the export checks |
| Validator.ExportChecksCount | plugins/validate_plugin.py:162-202 | dict exports: the category errors, and warnings = custom categories + one when nothing has content |
| Validator.ParamChecks | plugins/validate_plugin.py:238-247 | the parameter loop never records an error |
| Validator.ParamChecksCount | plugins/validate_plugin.py:238-247 | a parameter warns exactly when it is unannotated or lacks `Annotated` and `Field`, and passes otherwise |
| Validator.SignatureChecks | plugins/validate_plugin.py:219-247 | the signature check only appends |
| Validator.SignatureErrors | plugins/validate_plugin.py:224-229 | the signature check records an error exactly when reflection fails, and at most one |
| Validator.SectionChecks | plugins/validate_plugin.py:261-266 | the section loop never records an error |
| Validator.SectionChecksCount | plugins/validate_plugin.py:261-264 | one warning per missing `Args:` or `Returns:` section |
| Validator.DocstringChecks | plugins/validate_plugin.py:249-266 | the docstring check only appends |
| Validator.DocstringCount | plugins/validate_plugin.py:249-266 | a missing docstring is one error; a present one is never an error and warns once per missing section |
| Validator.ToolChecks | plugins/validate_plugin.py:212-217 | the tool loop only appends |
| Validator.PublicApiChecks | plugins/validate_plugin.py:204-217 | the public-API pass agrees with the written one wherever that one does not raise |
| Validator.PublicApiAsWritten | plugins/validate_plugin.py:204-217 | the public-API pass as written raises exactly when exports are present and are not a dict, or hold a `tools` value that is not a list, a string or a dict; otherwise it only appends |
| Validator.DocumentationCheck | plugins/validate_plugin.py:268-282 | the documentation check never records an error |
| Validator.ValidateAgrees | plugins/validate_plugin.py:25-50 | the corrected run equals the written one whenever the written one does not raise |
| Validator.ModuleChecksAsWritten | plugins/validate_plugin.py:44-50 | the four checks as written only append, and stop at the first exception |
| Validator.ValidateAsWritten | plugins/validate_plugin.py:25-50 | `validate_plugin` as written: a failed load is one error and never raises, a file without a spec gives empty lists; only a loaded module's checks can raise |
| Validator.AgreesWhenApiRuns | plugins/validate_plugin.py:44-50 | when the public-API pass does not raise, the written and the corrected validator give the same results |
| Validator.StagesClean | plugins/validate_plugin.py:44-50 | a loaded module is valid when no stage raises or records an error |
| Validator.ExportsListCrashesAsWritten | plugins/validate_plugin.py:204-210 | as written, list exports make `validate_plugin` raise |
| Validator.ExportsListReported | plugins/validate_plugin.py:151-160 | corrected, list exports give results that are invalid and carry the `_module_exports must be a dictionary` error |
| Validator.PluginValidator.constructor | plugins/validate_plugin.py:20-23 | the three lists start empty |
| Validator.PluginValidator.GetResults | plugins/validate_plugin.py:284-291 | valid exactly when the error list is empty |
| Validator.PluginValidator.ValidatePlugin | plugins/validate_plugin.py:25-50 | the lists are reset, then the state is `ValidateAsWritten`; results are returned unless a check raised, which list exports, a non-iterable `tools`, or a `dependencies` list without `pydantic>=2.0.0` holding a non-container before any match do |
| Validator.PluginValidator.RunChecks | plugins/validate_plugin.py:44-48 | the four checks in order: the state is `ModuleChecksAsWritten` and the flag says whether a check raised |
| Validator.PluginValidator.LoadPluginModule | plugins/validate_plugin.py:52-82 | a module exactly for a successful load; one error for a missing `__init__.py` or a load that raised |
| Validator.PluginValidator.ValidateModuleMetadata | plugins/validate_plugin.py:84-147 | the state after the metadata checks, and whether they raised |
| Validator.PluginValidator.VersionAndPlatform | plugins/validate_plugin.py:104-118 | the version and platform checks |
| Validator.PluginValidator.ValidateDependencies | plugins/validate_plugin.py:120-128 | the dependency check |
| Validator.PluginValidator.ValidateEnvironmentVariables | plugins/validate_plugin.py:130-147 | the environment-variable checks |
| Validator.PluginValidator.ValidateExports | plugins/validate_plugin.py:149-202 | the export checks |
| Validator.PluginValidator.ValidateCategory | plugins/validate_plugin.py:176-202 | one category |
| Validator.PluginValidator.ValidatePublicApi | plugins/validate_plugin.py:204-217 | the public-API pass as written: it raises, recording nothing, exactly when `PublicApiAsWritten` does, and otherwise runs the tool loop |
| Validator.PluginValidator.ValidateFunctionSignature | plugins/validate_plugin.py:219-247 | the signature check |
| Validator.PluginValidator.ValidateFunctionDocstring | plugins/validate_plugin.py:249-266 | the docstring check |
| Validator.PluginValidator.ValidateDocumentation | plugins/validate_plugin.py:268-282 | the documentation check |
| DepCheck.SkipSpace | ldagent/depcheck.py:25 | `\s*` consumes exactly the white space run |
| DepCheck.RunEnd | ldagent/depcheck.py:25 | `[^}]+`-style runs stop at the first closing character |
| DepCheck.MatchAt | ldagent/depcheck.py:24-28 | a match starts with the key, and its group is non-empty and free of the closing character |
| DepCheck.Search | ldagent/depcheck.py:24-28 | `re.search`'s group is non-empty and free of the closing character |
| DepCheck.SearchNeedsKey | ldagent/depcheck.py:24-28 | there is a match only where the key occurs |
| DepCheck.MatchLayout | ldagent/depcheck.py:24-39 | a text that starts with the key, then blanks, the separator, blanks, the opening bracket, a run free of the closing bracket and the closing bracket is matched with that run as the group |
| DepCheck.BlockLayout | ldagent/depcheck.py:24-39 | an opening laid out as the pattern reads it, a body free of the closing bracket and the closing bracket yield the body |
| DepCheck.InfoBlock | ldagent/depcheck.py:24-33 | a `_module_info = {...}` block yields its body |
| DepCheck.DepsBlock | ldagent/depcheck.py:36-39 | a `"dependencies": [...]` entry yields its list |
| DepCheck.QuotedStrings | ldagent/depcheck.py:47 | `findall(r'"([^"]+)"')` yields non-empty strings without quotes |
| DepCheck.QuotedListing | ldagent/depcheck.py:47 | the quoted strings of a written list are the list |
| DepCheck.ExtractDependencies | ldagent/depcheck.py:15-52 | every extracted dependency is non-empty and free of `"` |
| DepCheck.DependenciesBeforeFirstBrace | ldagent/depcheck.py:24-39 | dependencies are found only when `"dependencies"` precedes the first `}` after `_module_info = {` |
| DepCheck.NestedDictHidesDependencies | ldagent/depcheck.py:24-39 | a nested dict before `"dependencies"` hides them |
| DepCheck.ExtractRoundTrip | ldagent/depcheck.py:15-52 | a `_module_info` written with a dependency list extracts to exactly that list |
| DepCheck.SpecifierStart | ldagent/depcheck.py:86 | the first version-specifier character, or the end |
| DepCheck.PackageName | ldagent/depcheck.py:86 | the package name holds no specifier character |
| DepCheck.PackageNameOf | ldagent/depcheck.py:86 | the package name of `name + specifier` is `name` stripped |
| DepCheck.DeclaredDepsOf | ldagent/depcheck.py:69-75 | every dependency of a non-`__` file is collected |
| DepCheck.CollectDependencies | ldagent/depcheck.py:69-75 | the collection loop computes `DeclaredDeps` |
| DepCheck.DeclaredDeps | ldagent/depcheck.py:69-75 | every collected dependency comes from a scanned file whose name does not start with `__`; `DeclaredDepsOf` gives the converse |
| DepCheck.ImportCheck | ldagent/depcheck.py:84-90 | the import loop collects exactly the dependencies that cannot be imported; it raises exactly when an import fails other than with `ImportError` |
| DepCheck.MissingDeps | ldagent/depcheck.py:84-90 | the missing dependencies are declared ones whose package cannot be imported; `MissingDepsStep` and `ImportCheck` give the loop's account |
| DepCheck.CheckPluginDependencies | ldagent/depcheck.py:55-98 | true for a missing directory; raises on an empty or relative package name; otherwise true exactly when every package is importable |
| DepCheck.LeastExists | ldagent/depcheck.py:133 | a non-empty set of strings has a least element |
| DepCheck.LeastUnique | ldagent/depcheck.py:133 | the least element is unique |
| DepCheck.SortedList | ldagent/depcheck.py:133 | `sorted(set)`: strictly increasing, the same elements, the same size |
| DepCheck.SortedUnique | ldagent/depcheck.py:133 | two strictly sorted lists with the same elements are equal |
| DepCheck.GeneratePluginRequirements | ldagent/depcheck.py:101-141 | nothing for a missing directory; the file removed when there are no dependencies; else the header and the sorted dependencies, one per line |
| DepCheck.RenderRequirements | ldagent/depcheck.py:130-134 | the write loop produces `RequirementsText` |
| DepCheck.DependencyLinesJoin | ldagent/depcheck.py:133-134 | the dependency lines are the dependencies joined by newlines, newline-terminated |
| DepCheck.DependencyLinesSplit | ldagent/depcheck.py:133-134 | splitting the written lines gives the dependencies back |
| DepCheck.RequirementsText | ldagent/depcheck.py:131-134 | the requirements file is its two comment lines, a blank line and the dependencies joined by line breaks, with a final line break |
| DepCheck.RequirementsTextLines | ldagent/depcheck.py:131-134 | read back line by line, the file gives the two comment lines, the blank line and the dependencies in order |
| GenerateDocs.ExtractPluginInfo | plugins/generate_docs.py:44-56 | raises exactly when `_module_exports` is not a dict |
| GenerateDocs.ExtractDefaults | plugins/generate_docs.py:47-51 | missing info is `{}`, missing tools `[]`, present info is passed through |
| GenerateDocs.GenerateFunctionDocs | plugins/generate_docs.py:59-78 | raises exactly for a non-callable or a failed signature; the docstring falls back to `No description available.` |
| GenerateDocs.Description | plugins/generate_docs.py:89-90 | the description paragraph is empty exactly when there is no `description` key |
| GenerateDocs.DependencyBullets | plugins/generate_docs.py:102-103 | one bullet per dependency |
| GenerateDocs.DependencyBulletsInOrder | plugins/generate_docs.py:102-103 | one bullet per dependency, in order |
| GenerateDocs.DependencySection | plugins/generate_docs.py:100-104 | empty exactly when the key is absent or false |
| GenerateDocs.EnvRowsInOrder | plugins/generate_docs.py:112-116 | one row per variable in order; raises exactly on a non-dict specification |
| GenerateDocs.EnvRowsFail | plugins/generate_docs.py:112-116 | the environment rows raise exactly when some specification is not a dict |
| GenerateDocs.EnvSection | plugins/generate_docs.py:107-117 | empty exactly when the key is absent or false |
| GenerateDocs.ToolBlocksInOrder | plugins/generate_docs.py:123-126 | one block per tool in order; raises exactly when one tool's docs raise |
| GenerateDocs.FunctionsSection | plugins/generate_docs.py:120-126 | empty exactly when `tools` is false |
| GenerateDocs.TitleFallsBack | plugins/generate_docs.py:86 | without `name` the page is titled with the directory name |
| GenerateDocs.InfoAlwaysPresent | plugins/generate_docs.py:92-97 | every page has the Plugin Information block |
| GenerateDocs.InfoBulletsPresent | plugins/generate_docs.py:94-97 | the block has the author and Python bullets |
| GenerateDocs.UnknownAuthor | plugins/generate_docs.py:94 | a missing author reads `Unknown` |
| GenerateDocs.GenerateMarkdownDocs | plugins/generate_docs.py:81-128 | the appending builder produces `MarkdownDocs` |
| GenerateDocs.MarkdownDocs | plugins/generate_docs.py:81-128 | a page exists only for dict metadata, and always for one with no dependencies, no environment variables and no tools; `TitleFallsBack`, `InfoAlwaysPresent` and the section lemmas state its content |
| GenerateDocs.RenderHeader | plugins/generate_docs.py:86-97 | title, description and information block |
| GenerateDocs.RenderDependencies | plugins/generate_docs.py:100-104 | the dependency loop |
| GenerateDocs.RenderEnvironment | plugins/generate_docs.py:107-117 | the environment loop |
| GenerateDocs.RenderFunctions | plugins/generate_docs.py:120-126 | the tool loop |
| GenerateDocs.DocumentedDirs | plugins/generate_docs.py:140-141 | exactly the directories not starting with `_` and not named `docs`, in order |
| GenerateDocs.AllDocs | plugins/generate_docs.py:143-163 | at most one page per directory |
| GenerateDocs.PagesNamedAfterDirs | plugins/generate_docs.py:143-163 | every page is `<directory>.md` for a loaded directory |
| GenerateDocs.AllDocsStopped | plugins/generate_docs.py:143-163 | once a directory raises, later directories change nothing |
| GenerateDocs.GenerateAllDocs | plugins/generate_docs.py:131-165 | the loop produces the pages of `AllDocs` and stops at the first exception |
| GenerateDocs.DocumentDir | plugins/generate_docs.py:147-161 | a page exactly when extraction and rendering do not raise |
| LetterCounter.Occurrences | plugins/letter_counter.py:36 | `str.count` of one character is at most the length |
| LetterCounter.CountLetterInWord | plugins/letter_counter.py:22-38 | 0 for a letter that is not one character; never more than the word's length |
| LetterCounter.OccurrencesConcat | plugins/letter_counter.py:36 | counts add up over a concatenation |
| LetterCounter.OccurrencesPositive | plugins/letter_counter.py:36 | the count is positive exactly when the character occurs |
| LetterCounter.CountPositive | plugins/letter_counter.py:28-36 | the result is positive exactly when the letter is one character occurring in the word, case aside |
| LetterCounter.LowerIdempotent | plugins/letter_counter.py:28-29 | lower-casing twice is lower-casing once |
| LetterCounter.CaseInsensitive | plugins/letter_counter.py:27-29 | changing the case of the word or the letter does not change the count |
| LetterCounter.InfoKeys | plugins/letter_counter.py:4-13 | the record has the eight required fields as keys, each once |
| LetterCounter.InfoLookups | plugins/letter_counter.py:4-13 | the record's version, platform, Python requirement, dependencies and variables |
| LetterCounter.ExportsLookups | plugins/letter_counter.py:61-63 | the exports hold the counting tool and no init hook |
| LetterCounter.DeclaresRequiredFields | plugins/letter_counter.py:4-13 | no required field is missing |
| LetterCounter.MinimumIs310 | plugins/letter_counter.py:10 | `>=3.10` is the minimum `(3, 10)` |
| LetterCounter.Below310 | plugins/letter_counter.py:10 | below `(3, 10)` exactly for major below 3 or 3 with minor below 10 |
| LetterCounter.Requires310 | plugins/letter_counter.py:10 | `>=3.10` admits exactly Python 3.10 and later |
| LetterCounter.GateAdmitsFrom310 | plugins/letter_counter.py:9-10 | the gate admits the plugin on every platform, exactly from Python 3.10 |
| LetterCounter.RegistersExports | plugins/letter_counter.py:61-63 | the exports register one tool, `letter_counter.count_letter_in_word`, and no init hook |
| LetterCounter.RegistersOneTool | plugins/letter_counter.py:4-13 | on Python 3.10 or later the loader admits the plugin, storing its metadata and exactly its one tool |
| LetterCounter.DependenciesClean | plugins/letter_counter.py:11 | the exact pydantic specifier: no error, no raise |
| LetterCounter.EnvironmentClean | plugins/letter_counter.py:12 | no variables, no errors |
| LetterCounter.MetadataClean | plugins/letter_counter.py:4-13 | the metadata checks record no error |
| LetterCounter.ExportsClean | plugins/letter_counter.py:61-63 | the export checks record no error |
| LetterCounter.ToolClean | plugins/letter_counter.py:22-26 | the signature and docstring checks record no error |
| LetterCounter.ValidatesClean | plugins/letter_counter.py:4-13 | the validator finds the plugin valid, and the written and the corrected validator agree on it |

## Left out

- Importing and executing plugin code: each outcome is an input (`Loader.Exec`, `Validator.LoadAttempt`, `GenerateDocs.DocDir.loaded`).
- File system, `platform.system()`, `sys.version_info`, `os.getenv`, `importlib.import_module`: all become parameters.
- `print` and `_log` output, and the `silent` flag: diagnostics are only printed, never kept.
- `open(...).write` of `.env.template`, `plugin_requirements.txt` and `docs/*.md`: the text is returned instead. A failure to write, and the `False` that `generate_plugin_requirements` returns for it, are not modelled.
- `Text.Lower`: ASCII case mapping only; Python's full Unicode `lower()` is not modelled.
- `LetterCounter.CountLetterInWord`: counts with the ASCII `Text.Lower`; a one-character letter whose Unicode lower case is longer than one character is not modelled. The function is `async` in the source; the coroutine wrapper is not modelled.
- `PyValues.Show` and `PyValues.Repr`: they render a callable by its name only, and do not escape quotes inside strings the way `repr` does.
- `Text.DigitsValue`: `int()` is modelled on plain ASCII digit strings only. `int()` also accepts signs, white space, `_` and non-ASCII digits; those inputs take the model's parse-failure path.
- `Validator.PluginValidator.LoadPluginModule`: the validator's own `sys.path` insertion is not modelled; it is never undone.
- `GenerateDocs.DocumentDir`: the generator's `sys.path` insertion in `load_plugin_module` is not modelled either.
- `PyValues.Function`: the reflection texts (`str(signature)`, annotation texts, the docstring) are inputs. `LetterCounter.CountLetterTool` approximates what Python prints for them.
- `Validator.PluginValidator.ValidateDocumentation`: whether `README.md` exists next to the module file is an input.
- `DepCheck.CheckPluginDependencies`: importing a package is modelled as membership in a set of importable names. `import_module` errors other than `ImportError` are only modelled for empty and relative names.
- `ldagent/cli.py`, `ldagent/setup.py`, the examples and `plugins/simple_calculator.py`: these are callers and another sample plugin, not part of this model.
- Dict keys are strings throughout: a `_module_info` or `environment_variables` with non-string keys is not modelled.

## Notes on the code's behaviour

The model follows the code in each case. Where the code looks wrong, the corrected behaviour is stated beside it (see "## Findings").

- The compatibility gate is not total. `_is_compatible` calls `.startswith` on `python_requires` whenever it is true (ldagent/loader.py:44-45), so a true non-string raises `AttributeError`. The loader's `except` refuses the unit (ldagent/loader.py:106-108), and `Loader.VersionAdmits` returns `None` there.
- Only the bare string `"any"` admits everywhere. A platform list `["any"]` is compared with the host name like any other list.
- Discovery takes the order of `glob("*.py")` and `iterdir()` as it comes, with no sorting (ldagent/loader.py:188-195), so the model takes the listing order as input.
- The loader checks only that `_module_info` is non-empty (ldagent/loader.py:67-70). Missing required fields do not stop a load; only the validator reports them (plugins/validate_plugin.py:93-101).
- The loader's diagnostics go only to `print` through `_log` (ldagent/loader.py:27-30), so the model keeps none of them.

## Findings

| source | as written | input that shows it | evidently intended | confidence | as-written member | corrected member |
|---|---|---|---|---|---|---|
| ldagent/loader.py:37-41 | the gate compares declared platforms with `platform.system().lower()`, which is `darwin` on macOS, while `plugins/validate_plugin.py:114` recommends `macos` | `platform: "macos"` on a macOS host is refused | `macos` admits macOS hosts | not executed | Loader.HostNameAsWritten, Loader.MacosRefusedAsWritten, Loader.MacosPluginRefused | Loader.HostName, Loader.PassesIntended, Loader.PassesAgreesOffMacos |
| ldagent/loader.py:120-134 | the `finally` clause removes the plugins directory from `sys.path` even when the load did not insert it | `sys.path == [root]` before loading a package plugin; afterwards `sys.path == []` | remove only the entry the load inserted | not executed | Loader.SearchPath.RemoveAsWritten, Loader.PathAsWrittenDropsExistingEntry, Loader.PathAfterDirsEffect | Loader.SearchPath.Release, Loader.PathRestored |
| plugins/validate_plugin.py:204-212 | `_validate_public_api` calls `.get` on `_module_exports` without checking its type, after `_validate_exports` has already reported it | `_module_exports = []`: `validate_plugin` raises `AttributeError` instead of returning results | skip exports that are not a dict and report the plugin invalid | not executed | Validator.PublicApiAsWritten, Validator.ExportsListCrashesAsWritten, Validator.PluginValidator.ValidatePublicApi | Validator.PublicApiChecks, Validator.ExportsListReported, Validator.AgreesWhenApiRuns |
