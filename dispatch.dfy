/** Extension-based dispatch of a file to its syntactic checker, and the listing of the files
    under a directory tree (validators/__init__.py, validators.py and validate.py). */
module Dispatch {
  import opened Wrappers
  import opened Strings
  import opened Paths
  import opened Glob

  datatype Checker = Turtle | JsonLd | OpenApi | JsonSchema | FramingContext

  /** One entry of a dispatch table: a name pattern and the checker it selects. */
  datatype Rule = Rule(pattern: string, checker: Checker)

  /** Which of the two dispatchers: the package one (validators/__init__.py, whose table
      validators.py repeats) or the stand-alone script (validate.py). */
  datatype Variant = Package | Script

  /** The rule whose pattern is "*" followed by the extension `ext`. */
  function Ending(ext: string, checker: Checker): Rule { Rule("*" + ext, checker) }

  /** The tables in their declaration order, which is the order they are tried in. */

  function Table(v: Variant): seq<Rule>
  {
    match v
    case Package =>
      [Ending(".ttl", Turtle), Ending(".shacl", Turtle), Ending(".ld.yaml", JsonLd),
       Ending(".oas3.yaml", OpenApi), Ending(".schema.yaml", JsonSchema),
       Rule("context-*.ld.yaml", FramingContext)]
    case Script =>
      [Ending(".ttl", Turtle), Ending(".ld.yaml", JsonLd), Ending(".oas3.yaml", OpenApi),
       Ending(".schema.yaml", JsonSchema), Rule("context-*.ld.yaml", FramingContext)]
  }

  function SkipSuffixes(v: Variant): seq<string>
  {
    match v
    case Package => [".md", ".csv", ".png", ".xml", ".xsd", ".html", ".gitignore", ".git", ".example.yaml"]
    case Script => [".md", ".csv", ".png", ".xml", ".xsd"]
  }

  /** The size ceiling in bytes: 4 << 20 for the package, 1 << 20 for the script. */
  function SizeLimit(v: Variant): nat
  {
    match v
    case Package => 4 * 1048576
    case Script => 1048576
  }

  /** What a checker did with the file's text: returned a truthy or falsy value, or raised. */
  datatype Verdict = Truthy | Falsy | Raised(error: string)

  datatype Outcome =
    | Valid                        // returned True
    | InvalidFile                  // ValueError "Invalid file: ..."
    | Unsupported                  // ValueError "Unsupported file ..."
    | TooBig(size: nat)            // ValueError "File too big: ..."
    | SizeAttributeError           // AttributeError while formatting the size message
    | CheckerRaised(error: string) // the checker's own exception, propagated

  /** The index of the first rule whose pattern matches the name. */
  function FirstMatch(rules: seq<Rule>, name: string): (r: Option<nat>)
    ensures r.Some? ==> r.value < |rules| && Matches(rules[r.value].pattern, name)
    ensures r.Some? ==> forall j :: 0 <= j < r.value ==> !Matches(rules[j].pattern, name)
    ensures r.None? <==> forall j :: 0 <= j < |rules| ==> !Matches(rules[j].pattern, name)
  {
    if rules == [] then None
    else if Matches(rules[0].pattern, name) then Some(0)
    else match FirstMatch(rules[1..], name)
      case None => None
      case Some(k) => Some(k + 1)
  }

  function FromVerdict(verdict: Verdict): Outcome
  {
    match verdict
    case Truthy => Valid
    case Falsy => InvalidFile
    case Raised(e) => CheckerRaised(e)
  }

  /** validate_file: size ceiling first, then the first matching rule's checker decides.
      `verdict` is what each checker does with this file's text; `called` lists the
      checkers actually run. */
  method ValidateFile(v: Variant, name: string, size: nat, verdict: Checker -> Verdict)
    returns (r: Outcome, called: seq<Checker>)
    ensures size > SizeLimit(v) ==> called == [] && r == (if v == Script then SizeAttributeError else TooBig(size))
    ensures size <= SizeLimit(v) && FirstMatch(Table(v), name).None? ==> called == [] && r == Unsupported
    ensures size <= SizeLimit(v) && FirstMatch(Table(v), name).Some? ==>
      var c := Table(v)[FirstMatch(Table(v), name).value].checker;
      called == [c] && r == FromVerdict(verdict(c))
    ensures |called| <= 1
  {
    called := [];
    if size > SizeLimit(v) {
      r := if v == Script then SizeAttributeError else TooBig(size);
      return;
    }
    var table := Table(v);
    var k := MatchingRule(table, name);
    if k.Some? {
      called := [table[k.value].checker];
      r := FromVerdict(verdict(table[k.value].checker));
      return;
    }
    r := Unsupported;
  }

  /** How many positional parameters the checker bound in validators/__init__.py declares: the
      `validate(fpath, errors)` of the turtle, openapi and json_schema modules take two, is_jsonld
      and is_framing_context one. (`from dati_playground.validators import ...` resolves to that
      package, not to validators.py, whose checkers all take the text alone.) */
  function PackageArity(c: Checker): nat
  {
    match c
    case Turtle => 2
    case OpenApi => 2
    case JsonSchema => 2
    case _ => 1
  }

  const MissingErrors := "validate() missing 1 required positional argument: 'errors'"

  /** `is_valid(f.read_text())` in validators/__init__.py: a checker declaring two parameters
      raises TypeError before it runs; the others decide as `verdict` says. */
  function CalledWithText(c: Checker, verdict: Checker -> Verdict): (r: Verdict)
    ensures PackageArity(c) == 1 ==> r == verdict(c)
  {
    if PackageArity(c) == 2 then Raised(MissingErrors) else verdict(c)
  }

  /** validate_file of validators/__init__.py as written: the size ceiling, then the first
      matching rule's checker called with the file's text only. */
  function PackageAsWritten(name: string, size: nat, verdict: Checker -> Verdict): Outcome
  {
    if size > SizeLimit(Package) then TooBig(size)
    else match FirstMatch(Table(Package), name)
      case None => Unsupported
      case Some(k) => FromVerdict(CalledWithText(Table(Package)[k].checker, verdict))
  }

  /** As written, every file routed to a two-parameter checker raises TypeError whatever its
      content, while the others get the verdict ValidateFile specifies; in particular every
      `.ttl` file under the ceiling fails, where the intended dispatch lets the turtle checker
      decide. */
  lemma PackageAsWrittenMeaning(name: string, size: nat, verdict: Checker -> Verdict)
    requires size <= SizeLimit(Package) && FirstMatch(Table(Package), name).Some?
    ensures var c := Table(Package)[FirstMatch(Table(Package), name).value].checker;
      && (PackageArity(c) == 2 ==> PackageAsWritten(name, size, verdict) == CheckerRaised(MissingErrors))
      && (PackageArity(c) == 1 ==> PackageAsWritten(name, size, verdict) == FromVerdict(verdict(c)))
  {
  }

  lemma TurtleFilesRaiseAsWritten(name: string, size: nat, verdict: Checker -> Verdict)
    requires size <= SizeLimit(Package) && EndsWith(name, ".ttl")
    ensures PackageAsWritten(name, size, verdict) == CheckerRaised(MissingErrors)
    ensures FirstMatch(Table(Package), name) == Some(0) && Table(Package)[0].checker == Turtle
  {
    StarSuffixMatches(".ttl", name);
    assert Table(Package)[0].pattern == "*" + ".ttl";
  }

  /** The `for pattern, checker in ...` loop: the index of the first rule whose pattern matches. */
  method MatchingRule(table: seq<Rule>, name: string) returns (k: Option<nat>)
    ensures k == FirstMatch(table, name)
  {
    var i := 0;
    while i < |table|
      invariant 0 <= i <= |table|
      invariant forall j :: 0 <= j < i ==> !Matches(table[j].pattern, name)
    {
      if Matches(table[i].pattern, name) {
        return Some(i);
      }
      i := i + 1;
    }
    return None;
  }

  /** The extensions a table recognises; the framing-context pattern adds none of its own. */
  const Extensions: seq<string> := [".ttl", ".shacl", ".ld.yaml", ".oas3.yaml", ".schema.yaml"]

  function VariantExtensions(v: Variant): seq<string>
  {
    match v
    case Package => Extensions
    case Script => [".ttl", ".ld.yaml", ".oas3.yaml", ".schema.yaml"]
  }

  /** Every framing-context name also ends with ".ld.yaml". */
  lemma ContextNamesAreJsonLdNames(name: string)
    ensures Matches("context-*.ld.yaml", name) ==> Matches("*.ld.yaml", name)
  {
    assert "context-*.ld.yaml" == "context-" + "*" + ".ld.yaml";
    assert "*.ld.yaml" == "*" + ".ld.yaml";
    PrefixStarSuffixMatches("context-", ".ld.yaml", name);
    StarSuffixMatches(".ld.yaml", name);
  }

  /** The framing-context checker is never selected: the earlier "*.ld.yaml" rule shadows it. */
  lemma FramingContextShadowed(v: Variant, name: string)
    ensures FirstMatch(Table(v), name).Some? ==>
      Table(v)[FirstMatch(Table(v), name).value].checker != FramingContext
  {
    ContextNamesAreJsonLdNames(name);
    var t := Table(v);
    var jsonLd := if v == Package then 2 else 1;
    assert t[jsonLd].pattern == "*.ld.yaml";
  }

  /** A file is supported exactly when its name ends with one of the table's extensions. */
  lemma SupportedIffExtension(v: Variant, name: string)
    ensures FirstMatch(Table(v), name).Some? <==> EndsWithAny(name, VariantExtensions(v))
  {
    TableShape(v);
    ExtensionTable(Table(v), VariantExtensions(v), name);
  }

  /** Each table is its extensions' "*" patterns closed by the framing-context pattern. */
  lemma TableShape(v: Variant)
    ensures |Table(v)| == |VariantExtensions(v)| + 1
    ensures forall k :: 0 <= k < |VariantExtensions(v)| ==>
      Table(v)[k].pattern == "*" + VariantExtensions(v)[k] && StarFree(VariantExtensions(v)[k])
    ensures Table(v)[|VariantExtensions(v)|].pattern == "context-*.ld.yaml"
    ensures ".ld.yaml" in VariantExtensions(v)
  {
    var t, exts := Table(v), VariantExtensions(v);
    forall k | 0 <= k < |exts|
      ensures t[k].pattern == "*" + exts[k]
    {
    }
    forall k | 0 <= k < |exts|
      ensures StarFree(exts[k])
    {
    }
    assert exts[if v == Package then 2 else 1] == ".ld.yaml";
  }

  /** A table of "*" + extension rules closed by the framing-context rule matches a name
      exactly when the name ends with one of the extensions, provided ".ld.yaml" is one. */
  lemma ExtensionTable(t: seq<Rule>, exts: seq<string>, name: string)
    requires |t| == |exts| + 1
    requires forall k :: 0 <= k < |exts| ==> t[k].pattern == "*" + exts[k]
    requires t[|exts|].pattern == "context-*.ld.yaml"
    requires ".ld.yaml" in exts
    requires forall k :: 0 <= k < |exts| ==> StarFree(exts[k])
    ensures FirstMatch(t, name).Some? <==> EndsWithAny(name, exts)
  {
    if EndsWithAny(name, exts) {
      var k :| 0 <= k < |exts| && EndsWith(name, exts[k]);
      StarSuffixMatches(exts[k], name);
      assert Matches(t[k].pattern, name);
    }
    var first := FirstMatch(t, name);
    if first.Some? {
      MatchedRuleHasExtension(t, exts, name, first.value);
    }
  }

  lemma MatchedRuleHasExtension(t: seq<Rule>, exts: seq<string>, name: string, k: nat)
    requires |t| == |exts| + 1
    requires forall k :: 0 <= k < |exts| ==> t[k].pattern == "*" + exts[k]
    requires t[|exts|].pattern == "context-*.ld.yaml"
    requires ".ld.yaml" in exts
    requires forall k :: 0 <= k < |exts| ==> StarFree(exts[k])
    requires k < |t| && Matches(t[k].pattern, name)
    ensures EndsWithAny(name, exts)
  {
    if k < |exts| {
      StarSuffixMatches(exts[k], name);
      assert EndsWith(name, exts[k]);
    } else {
      assert Matches("context-*.ld.yaml", name);
      ContextNamesAreJsonLdNames(name);
      var m :| 0 <= m < |exts| && exts[m] == ".ld.yaml";
      StarSuffixMatches(exts[m], name);
      assert "*" + exts[m] == "*.ld.yaml";
      assert EndsWith(name, exts[m]);
    }
  }

  /** One directory visited by os.walk: its path and the names of the files in it. */
  datatype WalkStep = WalkStep(root: Path, files: seq<string>)

  /** A file list_files keeps: no skipped suffix, and not an index. */
  predicate Keeps(skip: seq<string>, f: string)
  {
    !EndsWithAny(f, skip) && f != "index.ttl"
  }

  predicate Listed(v: Variant, f: string)
  {
    Keeps(SkipSuffixes(v), f)
  }

  /** The paths list_files yields for a walk: every kept file, in walk order. */
  function ListedPaths(v: Variant, walk: seq<WalkStep>): seq<Path>
  {
    Walked(SkipSuffixes(v), walk)
  }

  function Walked(skip: seq<string>, walk: seq<WalkStep>): seq<Path>
  {
    if walk == [] then []
    else
      var last := walk[|walk| - 1];
      Walked(skip, walk[..|walk| - 1]) + KeptIn(skip, last.root, last.files)
  }

  function KeptIn(skip: seq<string>, root: Path, files: seq<string>): seq<Path>
  {
    if files == [] then []
    else
      var f := files[|files| - 1];
      KeptIn(skip, root, files[..|files| - 1]) + (if Keeps(skip, f) then [Child(root, f)] else [])
  }

  /** list_files: walk the tree and yield every file that is neither skipped nor an index. */
  method ListFiles(v: Variant, walk: seq<WalkStep>) returns (r: seq<Path>)
    ensures r == ListedPaths(v, walk)
  {
    var skip := SkipSuffixes(v);
    r := [];
    var i := 0;
    while i < |walk|
      invariant 0 <= i <= |walk|
      invariant r == Walked(skip, walk[..i])
    {
      var kept := KeepFiles(v, walk[i].root, walk[i].files);
      assert walk[..i + 1][..i] == walk[..i];
      r := r + kept;
      i := i + 1;
    }
    assert walk[..i] == walk;
  }

  /** The inner loop of list_files over one directory's files. */
  method KeepFiles(v: Variant, root: Path, files: seq<string>) returns (kept: seq<Path>)
    ensures kept == KeptIn(SkipSuffixes(v), root, files)
  {
    var skip := SkipSuffixes(v);
    kept := [];
    var j := 0;
    while j < |files|
      invariant 0 <= j <= |files|
      invariant kept == KeptIn(skip, root, files[..j])
    {
      assert files[..j + 1][..j] == files[..j];
      if Keeps(skip, files[j]) {
        kept := kept + [Child(root, files[j])];
      }
      j := j + 1;
    }
    assert files[..j] == files;
  }

  lemma {:induction false} KeptInIff(skip: seq<string>, root: Path, files: seq<string>, p: Path)
    ensures p in KeptIn(skip, root, files) <==>
      (exists j :: 0 <= j < |files| && Keeps(skip, files[j]) && p == Child(root, files[j]))
    decreases |files|
  {
    if files != [] {
      var init := files[..|files| - 1];
      KeptInIff(skip, root, init, p);
      if exists j :: 0 <= j < |init| && Keeps(skip, files[j]) && p == Child(root, files[j]) {
        var j :| 0 <= j < |init| && Keeps(skip, files[j]) && p == Child(root, files[j]);
        assert init[j] == files[j];
      }
    }
  }

  /** A path is in the walk's listing exactly when one directory's kept files hold it. */
  lemma {:induction false} WalkedSteps(skip: seq<string>, walk: seq<WalkStep>, p: Path)
    ensures p in Walked(skip, walk) <==>
      exists i :: 0 <= i < |walk| && p in KeptIn(skip, walk[i].root, walk[i].files)
    decreases |walk|
  {
    if walk != [] {
      var init := walk[..|walk| - 1];
      var last := walk[|walk| - 1];
      WalkedSteps(skip, init, p);
      assert Walked(skip, walk) == Walked(skip, init) + KeptIn(skip, last.root, last.files);
      if exists i :: 0 <= i < |init| && p in KeptIn(skip, walk[i].root, walk[i].files) {
        var i :| 0 <= i < |init| && p in KeptIn(skip, walk[i].root, walk[i].files);
        assert init[i] == walk[i];
      }
      if exists i :: 0 <= i < |init| && p in KeptIn(skip, init[i].root, init[i].files) {
        var i :| 0 <= i < |init| && p in KeptIn(skip, init[i].root, init[i].files);
        assert init[i] == walk[i];
      }
    }
  }

  /** A path is listed exactly when some visited directory holds a kept file of that name. */
  lemma ListedPathsIff(v: Variant, walk: seq<WalkStep>, p: Path)
    ensures p in ListedPaths(v, walk) <==>
      (exists i, j :: 0 <= i < |walk| && 0 <= j < |walk[i].files| && Listed(v, walk[i].files[j]) &&
        p == Child(walk[i].root, walk[i].files[j]))
  {
    var skip := SkipSuffixes(v);
    WalkedSteps(skip, walk, p);
    if p in ListedPaths(v, walk) {
      var i :| 0 <= i < |walk| && p in KeptIn(skip, walk[i].root, walk[i].files);
      KeptInIff(skip, walk[i].root, walk[i].files, p);
    }
    if exists i, j :: 0 <= i < |walk| && 0 <= j < |walk[i].files| && Listed(v, walk[i].files[j]) &&
        p == Child(walk[i].root, walk[i].files[j])
    {
      var i, j :| 0 <= i < |walk| && 0 <= j < |walk[i].files| && Listed(v, walk[i].files[j]) &&
        p == Child(walk[i].root, walk[i].files[j]);
      KeptInIff(skip, walk[i].root, walk[i].files, p);
    }
  }

  /** The script skips fewer suffixes: whatever the package lists, the script lists too. */
  lemma {:induction false} PackageListingWithinScript(walk: seq<WalkStep>, p: Path)
    ensures p in ListedPaths(Package, walk) ==> p in ListedPaths(Script, walk)
  {
    ListedPathsIff(Package, walk, p);
    ListedPathsIff(Script, walk, p);
    if p in ListedPaths(Package, walk) {
      var i, j :| 0 <= i < |walk| && 0 <= j < |walk[i].files| && Listed(Package, walk[i].files[j]) &&
        p == Child(walk[i].root, walk[i].files[j]);
      var f := walk[i].files[j];
      assert !EndsWithAny(f, SkipSuffixes(Script)) by {
        forall k | 0 <= k < |SkipSuffixes(Script)| ensures !EndsWith(f, SkipSuffixes(Script)[k]) {
          assert SkipSuffixes(Package)[k] == SkipSuffixes(Script)[k];
        }
      }
    }
  }

  /** is_jsonld: the content parses as JSON-LD (the parser raises otherwise). */
  function IsJsonLd(parses: Result<()>): (r: Verdict)
    ensures r == Truthy <==> parses.Ok?
    ensures r != Falsy
  {
    if parses.Ok? then Truthy else Raised(parses.error)
  }

  /** is_framing_context: returns right after the JSON-LD check, so the framing-context schema
      never takes part in the verdict. */
  function IsFramingContext(parses: Result<()>, schemaCheck: Result<()>): (r: Verdict)
    ensures r == IsJsonLd(parses)
  {
    IsJsonLd(parses)
  }

  /** is_valid_sqlite: not implemented, for every input. */
  function IsValidSqlite(datafile: Path): (r: Verdict)
    ensures r.Raised?
  {
    Raised("NotImplementedError")
  }
}
