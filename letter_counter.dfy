/** The sample plugin `plugins/letter_counter.py`: one tool that counts a
    letter in a word regardless of case, and the metadata and exports records
    through which the loader, the validator and the documentation generator
    see it. */
module LetterCounter {

  import opened Wrappers
  import opened Text
  import opened Assoc
  import opened PyValues
  import Loader
  import Validator

  // ---------------------------------------------------------------------
  // `count_letter_in_word`
  // ---------------------------------------------------------------------

  /** `s.count(c)` for a one-character `c`. */
  function Occurrences(s: string, c: char): (n: nat)
    ensures n <= |s|
    decreases |s|
  {
    if |s| == 0 then 0 else Occurrences(s[..|s| - 1], c) + (if s[|s| - 1] == c then 1 else 0)
  }

  /** `count_letter_in_word(word, letter)`: 0 unless `letter` is a single
      character; otherwise the occurrences of the lower-cased letter in the
      lower-cased word. */
  function CountLetterInWord(word: string, letter: string): (n: nat)
    ensures |letter| != 1 ==> n == 0
    ensures n <= |word|
  {
    if |letter| != 1 then 0 else Occurrences(Lower(word), Lower(letter)[0])
  }

  /** Occurrences add up over a concatenation. */
  lemma {:induction false} OccurrencesConcat(a: string, b: string, c: char)
    ensures Occurrences(a + b, c) == Occurrences(a, c) + Occurrences(b, c)
    decreases |b|
  {
    if |b| == 0 {
      assert a + b == a;
    } else {
      OccurrencesConcat(a, b[..|b| - 1], c);
      assert (a + b)[..|a + b| - 1] == a + b[..|b| - 1];
    }
  }

  /** There is an occurrence exactly when the character is in the string. */
  lemma {:induction false} OccurrencesPositive(s: string, c: char)
    ensures Occurrences(s, c) > 0 <==> c in s
    decreases |s|
  {
    if |s| > 0 {
      OccurrencesPositive(s[..|s| - 1], c);
      assert s == s[..|s| - 1] + [s[|s| - 1]];
    }
  }

  /** The count is positive exactly when the letter is a single character
      that occurs in the word, case aside. */
  lemma CountPositive(word: string, letter: string)
    ensures CountLetterInWord(word, letter) > 0 <==> |letter| == 1 && LowerChar(letter[0]) in Lower(word)
  {
    if |letter| == 1 {
      OccurrencesPositive(Lower(word), Lower(letter)[0]);
    }
  }

  lemma LowerIdempotent(s: string)
    ensures Lower(Lower(s)) == Lower(s)
  {
  }

  /** Counting ignores case: changing the case of the word or of the letter
      changes nothing. */
  lemma CaseInsensitive(word: string, letter: string)
    ensures CountLetterInWord(Upper(word), letter) == CountLetterInWord(word, letter)
    ensures CountLetterInWord(Lower(word), letter) == CountLetterInWord(word, letter)
    ensures CountLetterInWord(word, Upper(letter)) == CountLetterInWord(word, letter)
    ensures CountLetterInWord(word, Lower(letter)) == CountLetterInWord(word, letter)
  {
    LowerUpper(word);
    LowerUpper(letter);
    LowerIdempotent(word);
    LowerIdempotent(letter);
  }

  // ---------------------------------------------------------------------
  // The plugin's records
  // ---------------------------------------------------------------------

  /** The annotation texts of the two parameters. */
  const WordAnnotation := "typing.Annotated[str, FieldInfo(annotation=NoneType, required=True, description='The word to search in')]"
  const LetterAnnotation := "typing.Annotated[str, FieldInfo(annotation=NoneType, required=True, description='The letter to count (single character)')]"

  /** The exported tool as reflection sees it. */
  const CountLetterTool := Function(
    "count_letter_in_word",
    Some("Count how many times a specific letter appears in a word."),
    "(word: " + WordAnnotation + ", letter: " + LetterAnnotation + ") -> int",
    None,
    None,
    true,
    [Param("word", Some(WordAnnotation)), Param("letter", Some(LetterAnnotation))],
    false)

  /** `_module_info`. */
  const Info: Entries := [
    ("name", Str("Letter Counter")),
    ("description", Str("Count occurrences of specific letters in words")),
    ("author", Str("BatteryShark")),
    ("version", Str("1.0.0")),
    ("platform", Str("any")),
    ("python_requires", Str(">=3.10")),
    ("dependencies", List([Str("pydantic>=2.0.0")])),
    ("environment_variables", Dict([]))
  ]

  /** `_module_exports`. */
  const Exports := Dict([("tools", List([Callable(CountLetterTool)]))])

  /** `_module_info` has the required fields as its keys, each once. */
  lemma InfoKeys()
    ensures Keys(Info) == Validator.RequiredFields
    ensures UniqueKeys(Info)
  {
    var ks := Keys(Info);
    assert forall i :: 0 <= i < |ks| ==> ks[i] == Validator.RequiredFields[i];
  }

  lemma InfoAt(i: nat)
    requires i < |Info|
    ensures Get(Info, Info[i].0, NoneValue) == Info[i].1
  {
    InfoKeys();
    LookupAt(Info, i);
  }

  /** The entries of `_module_info` as lookups see them. */
  lemma InfoLookups()
    ensures Get(Info, "version", NoneValue) == Str("1.0.0")
    ensures Get(Info, "platform", NoneValue) == Str("any")
    ensures Get(Info, "python_requires", NoneValue) == Str(">=3.10")
    ensures Get(Info, "dependencies", NoneValue) == List([Str("pydantic>=2.0.0")])
    ensures Get(Info, "environment_variables", NoneValue) == Dict([])
  {
    InfoAt(3);
    InfoAt(4);
    InfoAt(5);
    InfoAt(6);
    InfoAt(7);
  }

  /** The one entry of `_module_exports`, and no init hook. */
  lemma ExportsLookups()
    ensures Get(Exports.entries, "tools", List([])) == List([Callable(CountLetterTool)])
    ensures Get(Exports.entries, "init_function", NoneValue) == NoneValue
  {
    LookupAt(Exports.entries, 0);
    assert Keys(Exports.entries) == ["tools"];
  }

  /** The metadata declares every field the validator requires. */
  lemma DeclaresRequiredFields()
    ensures Validator.MissingFields(Info, Validator.RequiredFields) == []
  {
    InfoKeys();
    Validator.NoneMissing(Info, Validator.RequiredFields);
  }

  /** `">=3.10"` is read as the minimum `(3, 10)`. */
  lemma MinimumIs310()
    ensures ">=3.10" == ">=" + Loader.VersionText([3, 10])
  {
    var parts := seq(2, k requires 0 <= k < 2 => NatDigits([3, 10][k]));
    assert NatDigits(3) == "3";
    assert NatDigits(10) == "10";
    assert parts == ["3", "10"];
    assert Join(parts, ".") == "3" + "." + Join(["10"], ".");
  }

  /** Python 3.10 or later is exactly what is not below `(3, 10)`. */
  lemma Below310(version: seq<nat>)
    requires |version| >= 2
    ensures Loader.VersionLess(version, [3, 10]) == Some(version[0] < 3 || (version[0] == 3 && version[1] < 10))
  {
    assert [3, 10][1..] == [10];
    assert [10][1..] == [];
    if version[0] == 3 {
      assert Loader.VersionLess(version, [3, 10]) == Loader.VersionLess(version[1..], [10]);
      if version[1] == 10 {
        assert Loader.VersionLess(version[1..], [10]) == Loader.VersionLess(version[2..], []);
      }
    }
  }

  /** The plugin's `python_requires` admits exactly Python 3.10 and later. */
  lemma Requires310(version: seq<nat>)
    requires |version| >= 2
    ensures Loader.VersionAdmits(Str(">=3.10"), version) == Some(version[0] > 3 || (version[0] == 3 && version[1] >= 10))
  {
    MinimumIs310();
    Loader.MinimumVersionGate([3, 10], version);
    Below310(version);
  }

  /** The gate admits the plugin on every platform, exactly from Python 3.10
      on. */
  lemma GateAdmitsFrom310(hostName: string, version: seq<nat>)
    requires |version| >= 2
    ensures Loader.IsCompatible(Info, hostName, version) == Some(version[0] > 3 || (version[0] == 3 && version[1] >= 10))
  {
    InfoLookups();
    assert Loader.PlatformAdmits(Str("any"), hostName);
    Requires310(version);
  }

  /** The exports register the one tool under its qualified key and no
      init hook. */
  lemma RegistersExports(reg: Loader.Registry, exports: Value)
    requires exports == Exports
    ensures Loader.RegisterExports(reg, "letter_counter", exports)
            == (reg.(tools := Put(reg.tools, "letter_counter.count_letter_in_word", CountLetterTool)), true)
  {
    Loader.RegisterOneTool(reg, "letter_counter", CountLetterTool);
    ToolKeyOfCountLetter(CountLetterTool.name);
  }

  lemma ToolKeyOfCountLetter(name: string)
    requires name == "count_letter_in_word"
    ensures Loader.ToolKey("letter_counter", name) == "letter_counter.count_letter_in_word"
  {
  }

  /** Loaded as `letter_counter` on a host with Python 3.10 or later, a
      module carrying these records registers its metadata and exactly its
      one tool, under `letter_counter.count_letter_in_word`, and calls no
      init hook. */
  lemma RegistersOneTool(reg: Loader.Registry, m: Loader.Module, host: Loader.Host)
    requires m.info == Some(Info) && m.exports == Some(Exports)
    requires |host.version| >= 2 && (host.version[0] > 3 || (host.version[0] == 3 && host.version[1] >= 10))
    ensures Loader.AdmitModule(reg, "letter_counter", m, host).1
    ensures Loader.AdmitModule(reg, "letter_counter", m, host).0
            == reg.(tools := Put(reg.tools, "letter_counter.count_letter_in_word", CountLetterTool),
                    metadata := Put(reg.metadata, "letter_counter", Info))
  {
    var info := m.info.GetOr([]);
    GateAdmitsFrom310(Loader.HostNameAsWritten(host.system), host.version);
    assert Loader.IsCompatible(info, Loader.HostNameAsWritten(host.system), host.version) == Some(true);
    assert info != [] by { assert |Info| == 8; }
    assert Truthy(m.exports.GetOr(Dict([]))) by { assert Exports.entries != []; }
    RegistersExports(reg.(metadata := Put(reg.metadata, "letter_counter", Info)), Exports);
  }

  /** The dependency check neither raises nor records an error: the exact
      recommended pydantic specifier is declared. */
  lemma DependenciesClean(r: Validator.Report, info: Entries)
    requires info == Info
    ensures !Validator.DependencyCheck(r, info).raised
    ensures Validator.DependencyCheck(r, info).report.errors == r.errors
  {
    InfoKeys();
    assert "dependencies" in Keys(info) by { assert Validator.RequiredFields[6] == "dependencies"; }
    InfoAt(6);
    var deps := Get(info, "dependencies", NoneValue);
    assert deps == List([Str("pydantic>=2.0.0")]);
    assert Str("pydantic>=2.0.0") in deps.items;
  }

  /** No environment variable is declared, so none is in error. */
  lemma EnvironmentClean(info: Entries)
    requires info == Info
    ensures Validator.EnvErrors(info) == 0
  {
    InfoLookups();
  }

  /** The metadata checks raise nothing and record no error. */
  lemma MetadataClean(info: Entries)
    requires info == Info
    ensures !Validator.MetadataChecks(Validator.Empty, Some(info)).raised
    ensures Validator.MetadataChecks(Validator.Empty, Some(info)).report.errors == []
  {
    DeclaresRequiredFields();
    var r1 := Validator.FieldChecks(Validator.AddPassed(Validator.Empty, Validator.Tick + "_module_info dictionary exists"), info, Validator.RequiredFields);
    var r2 := Validator.PlatformCheck(Validator.VersionCheck(r1, info), info);
    DependenciesClean(r2, info);
    EnvironmentClean(info);
    Validator.MetadataErrorCount(Validator.Empty, info);
  }

  /** The export checks record no error. */
  lemma ExportsClean(r: Validator.Report, exports: Value)
    requires exports == Exports
    ensures Validator.ExportChecks(r, Some(exports)).errors == r.errors
  {
    var categories := exports.entries;
    Validator.ExportChecksCount(r, categories);
    var items := [Callable(CountLetterTool)];
    assert items[..0] == [];
    assert Validator.NotCallable(items) == 0;
    assert categories[..0] == [];
    assert Validator.CategoryErrors(categories) == 0;
  }

  /** Checking the tool's signature and docstring records no error. */
  lemma ToolClean(r: Validator.Report, exports: Value)
    requires exports == Exports
    ensures Validator.PublicApiChecks(r, Some(exports)).errors == r.errors
    ensures Validator.PublicApiAsWritten(r, Some(exports)).Some?
  {
    ExportsLookups();
    var f := CountLetterTool;
    var tools := [Callable(f)];
    assert Validator.PublicApiChecks(r, Some(exports)) == Validator.ToolChecks(r, tools);
    assert Validator.PublicApiAsWritten(r, Some(exports)) == Some(Validator.ToolChecks(r, tools));
    assert Validator.ToolChecks(r, tools) == Validator.DocstringChecks(Validator.SignatureChecks(r, f), f) by {
      assert tools[..0] == [];
    }
    Validator.SignatureErrors(r, f);
    Validator.DocstringCount(Validator.SignatureChecks(r, f), f);
  }

  /** The validator finds a module carrying these two records valid,
      whatever it finds about its documentation. */
  lemma ValidatesClean(m: Validator.PluginModule)
    requires m.info == Some(Info) && m.exports == Some(Exports)
    ensures !Validator.Validate(Validator.Loaded(m)).raised
    ensures Validator.ResultsOf(Validator.Validate(Validator.Loaded(m)).report).isValid
    ensures Validator.ValidateAsWritten(Validator.Loaded(m)) == Validator.Validate(Validator.Loaded(m))
  {
    MetadataClean(m.info.value);
    var metadata := Validator.MetadataChecks(Validator.Empty, m.info);
    ExportsClean(metadata.report, m.exports.value);
    ToolClean(Validator.ExportChecks(metadata.report, m.exports), m.exports.value);
    Validator.StagesClean(m);
    Validator.AgreesWhenApiRuns(m);
  }
}
