/** The nearest-ancestor search for a `rules.shacl` file and the SHACL validators built on it
    (validators/shacl.py and precommit_validators.py). */
module RuleLookup {
  import opened Wrappers
  import opened Strings
  import opened Paths
  import opened FileSystem
  import opened Rdf
  import opened ErrorLog

  /** MAX_DEPTH: at most this many directories are examined. */
  const MaxDepth: nat := 5
  const RulesFile := "rules.shacl"

  /** When the upward search gives up early: on reaching the module's own directory
      (validators, pre-commit hooks), or a directory without a name (assets). */
  datatype Stop = AtBaseDir(basedir: Path) | AtNameless

  predicate HasRules(fs: Fs, d: Path) { Child(d, RulesFile) in fs }

  predicate Stops(stop: Stop, d: Path)
  {
    match stop
    case AtBaseDir(b) => d == b
    case AtNameless => Name(d) == ""
  }

  /** The k-th ancestor: `.parent` applied k times. */
  function Ancestor(p: Path, k: nat): Path
    decreases k
  {
    if k == 0 then p else Ancestor(Parent(p), k - 1)
  }

  /** The directories examined, in order, and the one holding the rules file if any. */
  datatype Lookup = Lookup(examined: seq<Path>, found: Option<Path>)

  /** The search from `dir` upwards with `budget` directories left to examine. */
  function Search(fs: Fs, dir: Path, stop: Stop, budget: nat): Lookup
    decreases budget
  {
    if budget == 0 then Lookup([], None)
    else if HasRules(fs, dir) then Lookup([dir], Some(dir))
    else if Stops(stop, dir) then Lookup([dir], None)
    else
      var rest := Search(fs, Parent(dir), stop, budget - 1);
      Lookup([dir] + rest.examined, rest.found)
  }

  function Last(s: seq<Path>): Path
    requires s != []
  {
    s[|s| - 1]
  }

  /** The search examines successive ancestors, never more than the budget, passes over only
      directories that neither hold rules nor stop it, and reports the rules directory exactly
      when it ended on one. */
  lemma SearchShape(fs: Fs, dir: Path, stop: Stop, budget: nat)
    ensures var r := Search(fs, dir, stop, budget);
      && |r.examined| <= budget
      && (budget > 0 ==> r.examined != [])
      && (forall k :: 0 <= k < |r.examined| ==> r.examined[k] == Ancestor(dir, k))
      && (forall k :: 0 <= k < |r.examined| - 1 ==> !HasRules(fs, r.examined[k]) && !Stops(stop, r.examined[k]))
      && (r.found.Some? <==> r.examined != [] && HasRules(fs, Last(r.examined)))
      && (r.found.Some? ==> r.found.value == Last(r.examined))
      && (0 < |r.examined| < budget ==> HasRules(fs, Last(r.examined)) || Stops(stop, Last(r.examined)))
  {
    SearchAncestors(fs, dir, stop, budget);
    SearchPassesOver(fs, dir, stop, budget);
    SearchEnds(fs, dir, stop, budget);
  }

  lemma {:induction false} SearchAncestors(fs: Fs, dir: Path, stop: Stop, budget: nat)
    ensures var r := Search(fs, dir, stop, budget);
      && |r.examined| <= budget
      && (budget > 0 ==> r.examined != [])
      && AncestorsFrom(dir, r.examined)
    decreases budget
  {
    if budget > 0 && !HasRules(fs, dir) && !Stops(stop, dir) {
      var rest := Search(fs, Parent(dir), stop, budget - 1);
      SearchAncestors(fs, Parent(dir), stop, budget - 1);
      AncestorsCons(dir, rest.examined);
    }
  }

  /** The k-th directory of `ex` is the k-th ancestor of `dir`. */
  predicate AncestorsFrom(dir: Path, ex: seq<Path>)
  {
    forall k :: 0 <= k < |ex| ==> ex[k] == Ancestor(dir, k)
  }

  lemma AncestorsCons(dir: Path, rest: seq<Path>)
    requires AncestorsFrom(Parent(dir), rest)
    ensures AncestorsFrom(dir, [dir] + rest)
  {
    var ex := [dir] + rest;
    forall k | 0 <= k < |ex| ensures ex[k] == Ancestor(dir, k) {
      if k > 0 {
        assert ex[k] == rest[k - 1];
      }
    }
  }

  /** Every examined directory but the last neither holds rules nor stops the search. */
  predicate PassedOver(fs: Fs, stop: Stop, ex: seq<Path>)
  {
    forall k :: 0 <= k < |ex| - 1 ==> !HasRules(fs, ex[k]) && !Stops(stop, ex[k])
  }

  lemma {:induction false} SearchPassesOver(fs: Fs, dir: Path, stop: Stop, budget: nat)
    ensures PassedOver(fs, stop, Search(fs, dir, stop, budget).examined)
    decreases budget
  {
    if budget > 0 && !HasRules(fs, dir) && !Stops(stop, dir) {
      var rest := Search(fs, Parent(dir), stop, budget - 1).examined;
      SearchPassesOver(fs, Parent(dir), stop, budget - 1);
      var ex := [dir] + rest;
      assert Search(fs, dir, stop, budget).examined == ex;
      forall k | 0 <= k < |ex| - 1 ensures !HasRules(fs, ex[k]) && !Stops(stop, ex[k]) {
        if k > 0 {
          assert ex[k] == rest[k - 1];
        }
      }
    }
  }

  lemma SearchEnds(fs: Fs, dir: Path, stop: Stop, budget: nat)
    ensures var r := Search(fs, dir, stop, budget);
      && (r.found.Some? <==> r.examined != [] && HasRules(fs, Last(r.examined)))
      && (r.found.Some? ==> r.found.value == Last(r.examined))
      && (0 < |r.examined| < budget ==> HasRules(fs, Last(r.examined)) || Stops(stop, Last(r.examined)))
  {
    SearchFound(fs, dir, stop, budget);
    SearchEndsEarly(fs, dir, stop, budget);
  }

  /** The search reports the last examined directory exactly when that one holds the rules. */
  predicate FoundLast(fs: Fs, r: Lookup)
  {
    && (r.found.Some? <==> r.examined != [] && HasRules(fs, Last(r.examined)))
    && (r.found.Some? ==> r.found.value == Last(r.examined))
  }

  lemma {:induction false} SearchFound(fs: Fs, dir: Path, stop: Stop, budget: nat)
    ensures FoundLast(fs, Search(fs, dir, stop, budget))
    decreases budget
  {
    var r := Search(fs, dir, stop, budget);
    if budget == 0 {
    } else if HasRules(fs, dir) {
      assert r == Lookup([dir], Some(dir));
    } else if Stops(stop, dir) {
      assert r == Lookup([dir], None);
    } else {
      var rest := Search(fs, Parent(dir), stop, budget - 1);
      SearchFound(fs, Parent(dir), stop, budget - 1);
      var ex := [dir] + rest.examined;
      assert r == Lookup(ex, rest.found);
      if rest.examined != [] {
        assert Last(ex) == Last(rest.examined);
      } else {
        assert rest.found == None;
        assert Last(ex) == dir;
      }
    }
  }

  /** A search that examined fewer directories than its budget ended on rules or a stop. */
  predicate EndedEarly(fs: Fs, stop: Stop, r: Lookup, budget: nat)
  {
    0 < |r.examined| < budget ==> HasRules(fs, Last(r.examined)) || Stops(stop, Last(r.examined))
  }

  lemma {:induction false} SearchEndsEarly(fs: Fs, dir: Path, stop: Stop, budget: nat)
    ensures EndedEarly(fs, stop, Search(fs, dir, stop, budget), budget)
    decreases budget
  {
    var r := Search(fs, dir, stop, budget);
    if budget == 0 {
    } else if HasRules(fs, dir) {
      assert r == Lookup([dir], Some(dir));
    } else if Stops(stop, dir) {
      assert r == Lookup([dir], None);
    } else {
      var rest := Search(fs, Parent(dir), stop, budget - 1);
      SearchEndsEarly(fs, Parent(dir), stop, budget - 1);
      var ex := [dir] + rest.examined;
      assert r == Lookup(ex, rest.found);
      if rest.examined != [] {
        assert Last(ex) == Last(rest.examined);
      } else {
        assert budget - 1 == 0;
      }
    }
  }

  /** The nearest ancestor (within the depth limit, before any stop) holding a rules file wins. */
  lemma NearestRulesWin(fs: Fs, dir: Path, stop: Stop, k: nat)
    requires k < MaxDepth
    requires HasRules(fs, Ancestor(dir, k))
    requires forall j :: 0 <= j < k ==> !HasRules(fs, Ancestor(dir, j)) && !Stops(stop, Ancestor(dir, j))
    ensures Search(fs, dir, stop, MaxDepth).found == Some(Ancestor(dir, k))
  {
    SearchShape(fs, dir, stop, MaxDepth);
    var r := Search(fs, dir, stop, MaxDepth);
    var n := |r.examined|;
    assert k < n by {
      if n < MaxDepth {
        var last := n - 1;
        assert r.examined[last] == Ancestor(dir, last);
      }
    }
    assert r.examined[k] == Ancestor(dir, k);
    assert k == n - 1;
  }

  /** No rules file among the examined directories means the search found none. */
  lemma NoRulesNotFound(fs: Fs, dir: Path, stop: Stop)
    requires forall k :: 0 <= k < MaxDepth ==> !HasRules(fs, Ancestor(dir, k))
    ensures Search(fs, dir, stop, MaxDepth).found == None
  {
    SearchShape(fs, dir, stop, MaxDepth);
  }

  lemma AppendStep(whole: seq<Path>, before: seq<Path>, d: Path, rest: seq<Path>)
    requires whole == before + ([d] + rest)
    ensures whole == (before + [d]) + rest
  {
  }

  /** The `for _ in range(MAX_DEPTH)` loop of the validators. */
  method FindRules(fs: Fs, start: Path, stop: Stop, depth: nat) returns (found: Option<Path>, examined: seq<Path>)
    ensures Lookup(examined, found) == Search(fs, start, stop, depth)
  {
    ghost var whole := Search(fs, start, stop, depth);
    var ruleDir := start;
    var left := depth;
    examined := [];
    found := None;
    while left > 0
      invariant whole.examined == examined + Search(fs, ruleDir, stop, left).examined
      invariant whole.found == Search(fs, ruleDir, stop, left).found
      invariant found == None
    {
      ghost var here := Search(fs, ruleDir, stop, left);
      ghost var prior := examined;
      examined := examined + [ruleDir];
      if HasRules(fs, ruleDir) {
        assert here == Lookup([ruleDir], Some(ruleDir));
        found := Some(ruleDir);
        return;
      }
      if Stops(stop, ruleDir) {
        assert here == Lookup([ruleDir], None);
        return;
      }
      ghost var rest := Search(fs, Parent(ruleDir), stop, left - 1);
      assert here == Lookup([ruleDir] + rest.examined, rest.found);
      AppendStep(whole.examined, prior, ruleDir, rest.examined);
      ruleDir := Parent(ruleDir);
      left := left - 1;
    }
  }

  /** Path.absolute() against the working directory. */
  function Absolute(cwd: Path, p: Path): (r: Path)
    requires cwd.absolute
    ensures r.absolute
  {
    if p.absolute then p else Concat(cwd, p)
  }

  /** The string the validators hand to get_shacl_graph for a rules directory. */
  function RulesPathString(cwd: Path, d: Path): (r: string)
    requires cwd.absolute
    ensures StartsWith(r, "/")
  {
    AsPosix(Absolute(cwd, Child(d, RulesFile)))
  }

  /** get_shacl_graph: refuses a relative path, otherwise parses once per path. */
  method GetShaclGraph(cache: Memo, absolutePath: string, parse: string -> Result<Graph>)
    returns (r: Result<Graph>)
    modifies cache
    ensures !StartsWith(absolutePath, "/") ==>
      r == Raise(absolutePath + " is not an absolute path") && cache.table == old(cache.table)
    ensures StartsWith(absolutePath, "/") && absolutePath in old(cache.table) ==>
      r == Ok(old(cache.table)[absolutePath])
    ensures StartsWith(absolutePath, "/") && absolutePath !in old(cache.table) ==> r == parse(absolutePath)
    ensures forall k :: k in old(cache.table) ==> k in cache.table && cache.table[k] == old(cache.table)[k]
  {
    if !StartsWith(absolutePath, "/") {
      r := Raise(absolutePath + " is not an absolute path");
      return;
    }
    r := cache.Get(absolutePath, parse);
  }

  /** What pyshacl reports for a data file and a shapes graph. */
  datatype Conformance = Conformance(conforms: bool, reportText: string)

  /** The verdict of validators/shacl.py's validate once the rules are loaded, and the messages it
      appends to the caller's errors. */
  datatype Reported = Reported(valid: bool, messages: seq<string>)

  function ShaclReport(fpath: Path, rulePath: Option<string>, validation: Result<Conformance>): (r: Reported)
    ensures r.valid <==> validation.Ok? && validation.value.conforms
    ensures r.valid <==> r.messages == []
    ensures |r.messages| <= 1
  {
    match validation
    case Raise(e) =>
      var shown := if rulePath.Some? then rulePath.value else "None";
      Reported(false, ["Error validating " + AsPosix(fpath) + ": " + shown + " " + e])
    case Ok(c) =>
      if c.conforms then Reported(true, [])
      else Reported(false, ["The file '" + AsPosix(fpath) + "' is not valid: " + c.reportText])
  }

  /** validators/shacl.py validate. A rules file that fails to load raises past the try block;
      everything pyshacl raises becomes one appended message. */
  method ValidateShacl(fs: Fs, cwd: Path, basedir: Path, fpath: Path, cache: Memo,
                       parse: string -> Result<Graph>,
                       pyshacl: (string, Option<Graph>) -> Result<Conformance>, log: Errors)
    returns (r: Result<bool>)
    requires cwd.absolute
    modifies log, cache
    ensures var lookup := Search(fs, Parent(fpath), AtBaseDir(basedir), MaxDepth);
      lookup.found.None? ==>
        var rep := ShaclReport(fpath, None, pyshacl(AsPosix(fpath), None));
        r == Ok(rep.valid) && log.entries == old(log.entries) + rep.messages
    ensures var lookup := Search(fs, Parent(fpath), AtBaseDir(basedir), MaxDepth);
      lookup.found.Some? ==>
        var key := RulesPathString(cwd, lookup.found.value);
        var loaded := if key in old(cache.table) then Ok(old(cache.table)[key]) else parse(key);
        (loaded.Raise? ==> r == Raise(loaded.error) && log.entries == old(log.entries)) &&
        (loaded.Ok? ==>
          var rep := ShaclReport(fpath, Some(key), pyshacl(AsPosix(fpath), Some(loaded.value)));
          r == Ok(rep.valid) && log.entries == old(log.entries) + rep.messages)
    ensures forall k :: k in old(cache.table) ==> k in cache.table && cache.table[k] == old(cache.table)[k]
  {
    var found, examined := FindRules(fs, Parent(fpath), AtBaseDir(basedir), MaxDepth);
    var shapes: Option<Graph> := None;
    var rulePath: Option<string> := None;
    if found.Some? {
      var key := RulesPathString(cwd, found.value);
      assert StartsWith(key, "/");
      var loaded := GetShaclGraph(cache, key, parse);
      if loaded.Raise? {
        r := Raise(loaded.error);
        return;
      }
      shapes := Some(loaded.value);
      rulePath := Some(key);
    }
    var rep := ShaclReport(fpath, rulePath, pyshacl(AsPosix(fpath), shapes));
    if rep.messages != [] {
      log.Append(rep.messages[0]);
      assert rep.messages == [rep.messages[0]];
    }
    r := Ok(rep.valid);
  }

  /** The argument of the pre-commit validate_shacl: annotated as a string, used as a Path. */
  datatype FileArg = Text(s: string) | PathArg(p: Path)

  function ArgPath(f: FileArg): Path
  {
    match f
    case Text(s) => Parse(s)
    case PathArg(p) => p
  }

  /** How the pre-commit hook ends: normally, through exit(code), or with an exception. */
  datatype HookEnd = Conforming | Exit(code: int) | Raised(error: string)

  const StrAsPosixError := "'str' object has no attribute 'as_posix'"

  /** The rules graph the hook passes to pyshacl (None when no rules file is found), or the
      loader's exception, which is raised before the try block. */
  function HookShapes(fs: Fs, cwd: Path, basedir: Path, f: Path, table: map<string, Graph>,
                      parse: string -> Result<Graph>): Result<Option<Graph>>
    requires cwd.absolute
  {
    var lookup := Search(fs, Parent(f), AtBaseDir(basedir), MaxDepth);
    if lookup.found.None? then Ok(None)
    else
      var key := RulesPathString(cwd, lookup.found.value);
      var loaded := if key in table then Ok(table[key]) else parse(key);
      if loaded.Raise? then Raise(loaded.error) else Ok(Some(loaded.value))
  }

  /** pyshacl's verdict inside the try block: a non-conforming file exits with status 1 (SystemExit
      is not caught by `except Exception`), an exception is logged and re-raised. */
  function HookVerdict(validation: Result<Conformance>): HookEnd
  {
    match validation
    case Raise(e) => Raised(e)
    case Ok(c) => if c.conforms then Conforming else Exit(1)
  }

  /** precommit validate_shacl as written: `file.as_posix()` is evaluated inside the try block,
      so a string argument raises AttributeError there. */
  function HookAsWritten(fs: Fs, cwd: Path, basedir: Path, file: FileArg, table: map<string, Graph>,
                         parse: string -> Result<Graph>,
                         pyshacl: (string, Option<Graph>) -> Result<Conformance>): HookEnd
    requires cwd.absolute
  {
    match HookShapes(fs, cwd, basedir, ArgPath(file), table, parse)
    case Raise(e) => Raised(e)
    case Ok(shapes) =>
      if file.Text? then Raised(StrAsPosixError)
      else HookVerdict(pyshacl(AsPosix(file.p), shapes))
  }

  /** The hook as evidently intended: the file is converted with Path(file) before as_posix. */
  function HookIntended(fs: Fs, cwd: Path, basedir: Path, file: FileArg, table: map<string, Graph>,
                        parse: string -> Result<Graph>,
                        pyshacl: (string, Option<Graph>) -> Result<Conformance>): HookEnd
    requires cwd.absolute
  {
    match HookShapes(fs, cwd, basedir, ArgPath(file), table, parse)
    case Raise(e) => Raised(e)
    case Ok(shapes) => HookVerdict(pyshacl(AsPosix(ArgPath(file)), shapes))
  }

  /** A string argument, as the annotation asks for, never reaches pyshacl as written; the
      corrected hook treats it like the equivalent Path, and both agree on Path arguments. */
  lemma HookStringArgument(fs: Fs, cwd: Path, basedir: Path, s: string, p: Path, table: map<string, Graph>,
                           parse: string -> Result<Graph>,
                           pyshacl: (string, Option<Graph>) -> Result<Conformance>)
    requires cwd.absolute
    ensures HookAsWritten(fs, cwd, basedir, Text(s), table, parse, pyshacl).Raised?
    ensures HookShapes(fs, cwd, basedir, Parse(s), table, parse).Ok? ==>
      HookAsWritten(fs, cwd, basedir, Text(s), table, parse, pyshacl) == Raised(StrAsPosixError)
    ensures HookIntended(fs, cwd, basedir, Text(s), table, parse, pyshacl) ==
      HookIntended(fs, cwd, basedir, PathArg(Parse(s)), table, parse, pyshacl)
    ensures HookIntended(fs, cwd, basedir, PathArg(p), table, parse, pyshacl) ==
      HookAsWritten(fs, cwd, basedir, PathArg(p), table, parse, pyshacl)
  {
  }

  /** The hook exits with status 1 exactly when the rules load, the file is a Path and pyshacl
      reports non-conformance. */
  lemma HookExitMeaning(fs: Fs, cwd: Path, basedir: Path, file: FileArg, table: map<string, Graph>,
                        parse: string -> Result<Graph>,
                        pyshacl: (string, Option<Graph>) -> Result<Conformance>)
    requires cwd.absolute
    ensures var r := HookAsWritten(fs, cwd, basedir, file, table, parse, pyshacl);
      var shapes := HookShapes(fs, cwd, basedir, ArgPath(file), table, parse);
      (r.Exit? <==> shapes.Ok? && file.PathArg? && pyshacl(AsPosix(file.p), shapes.value).Ok? &&
                    !pyshacl(AsPosix(file.p), shapes.value).value.conforms) &&
      (r.Exit? ==> r.code == 1)
  {
  }

  /** precommit_validators.validate_shacl. */
  method PrecommitValidateShacl(fs: Fs, cwd: Path, basedir: Path, file: FileArg, cache: Memo,
                                parse: string -> Result<Graph>,
                                pyshacl: (string, Option<Graph>) -> Result<Conformance>)
    returns (r: HookEnd)
    requires cwd.absolute
    modifies cache
    ensures r == HookAsWritten(fs, cwd, basedir, file, old(cache.table), parse, pyshacl)
  {
    var f := ArgPath(file);
    var found, examined := FindRules(fs, Parent(f), AtBaseDir(basedir), MaxDepth);
    var shapes: Option<Graph> := None;
    if found.Some? {
      var key := RulesPathString(cwd, found.value);
      assert StartsWith(key, "/");
      var loaded := GetShaclGraph(cache, key, parse);
      if loaded.Raise? {
        return Raised(loaded.error);
      }
      shapes := Some(loaded.value);
    }
    if file.Text? {
      return Raised(StrAsPosixError);
    }
    r := HookVerdict(pyshacl(AsPosix(file.p), shapes));
  }
}
