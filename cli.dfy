/** The command line of the package: `validate` runs the enabled checks over the given files,
    appending to one shared error list that ends in a deduplicated report and exit status 1;
    `build` selects the catalogue's files by name and hands them to the builders by suffix. */
module Cli {
  import opened Wrappers
  import opened Strings
  import opened Paths
  import opened ErrorLog
  import Dispatch

  /** The checks `validate` can enable, one option each. */
  datatype Check = Shacl | Oas3 | JsonSchema | VersionedDirectory | Turtle | Csv | RepoStructure
    | FilenameFormat | FilenameMatchUri | FilenameMatchDirectory | DirectoryVersioningPattern
    | MandatoryFiles | Utf8Encoding

  /** The order in which the enabled checks run on each file. */
  const CheckOrder: seq<Check> := [Shacl, Oas3, JsonSchema, VersionedDirectory, Turtle, Csv,
    RepoStructure, FilenameFormat, FilenameMatchUri, FilenameMatchDirectory,
    DirectoryVersioningPattern, MandatoryFiles, Utf8Encoding]

  lemma CheckOrderLists(c: Check)
    ensures c in CheckOrder
  {
    match c
    case Shacl => assert CheckOrder[0] == c;
    case Oas3 => assert CheckOrder[1] == c;
    case JsonSchema => assert CheckOrder[2] == c;
    case VersionedDirectory => assert CheckOrder[3] == c;
    case Turtle => assert CheckOrder[4] == c;
    case Csv => assert CheckOrder[5] == c;
    case RepoStructure => assert CheckOrder[6] == c;
    case FilenameFormat => assert CheckOrder[7] == c;
    case FilenameMatchUri => assert CheckOrder[8] == c;
    case FilenameMatchDirectory => assert CheckOrder[9] == c;
    case DirectoryVersioningPattern => assert CheckOrder[10] == c;
    case MandatoryFiles => assert CheckOrder[11] == c;
    case Utf8Encoding => assert CheckOrder[12] == c;
  }

  /** What one check does when called on one file: the messages it appends to the shared list,
      and the exception it lets escape, if any. */
  datatype Effect = Effect(appended: seq<string>, raised: Option<string>)

  /** The shared error list so far, and the exception that ended the run, if any. */
  datatype Run = Run(errors: seq<string>, raised: Option<string>)

  /** One `if option: check.validate(f, errors)`. */
  function Apply(r: Run, c: Check, f: Path, enabled: set<Check>, effect: (Check, Path) -> Effect): Run
  {
    if c in enabled then Run(r.errors + effect(c, f).appended, effect(c, f).raised) else r
  }

  /** The checks `checks`, in order, on one file, until one raises. */
  function FileRun(r: Run, f: Path, checks: seq<Check>, enabled: set<Check>, effect: (Check, Path) -> Effect): Run
    decreases |checks|
  {
    if checks == [] || r.raised.Some? then r
    else FileRun(Apply(r, checks[0], f, enabled, effect), f, checks[1..], enabled, effect)
  }

  /** The loop over the file arguments, in argument order, until a check raises. */
  function FilesRun(r: Run, files: seq<string>, enabled: set<Check>, effect: (Check, Path) -> Effect): Run
    decreases |files|
  {
    if files == [] || r.raised.Some? then r
    else FilesRun(FileRun(r, Parse(files[0]), CheckOrder, enabled, effect), files[1..], enabled, effect)
  }

  /** The end of `validate`: an escaped exception, exit 1 with the report, or a plain return. */
  datatype Ending = Raised(error: string) | Exit(code: int, printed: set<string>) | Returned

  /** One report line: `print("ERROR: ", error)` separates its two arguments with a space. */
  function ErrorLine(e: string): string
  {
    "ERROR: " + " " + e
  }

  /** `list(set(errors))`, one line per distinct message; the order is the set's and is not
      modelled. */
  function Report(errors: seq<string>): set<string>
  {
    set e | e in errors :: ErrorLine(e)
  }

  function ValidateEnding(files: seq<string>, enabled: set<Check>, effect: (Check, Path) -> Effect): Ending
  {
    var run := FilesRun(Run([], None), files, enabled, effect);
    if run.raised.Some? then Raised(run.raised.value)
    else if run.errors != [] then Exit(1, Report(run.errors))
    else Returned
  }

  /** One step of the per-file sequence. */
  method Step(c: Check, f: Path, enabled: set<Check>, effect: (Check, Path) -> Effect, errors: Errors)
    returns (raised: Option<string>)
    modifies errors
    ensures Run(errors.entries, raised) == Apply(Run(old(errors.entries), None), c, f, enabled, effect)
  {
    raised := None;
    if c in enabled {
      var e := effect(c, f);
      errors.Extend(e.appended);
      raised := e.raised;
    }
  }

  lemma Advance(start: Run, base: nat, cur: Run, next: Run, f: Path, k: nat, enabled: set<Check>, effect: (Check, Path) -> Effect)
    requires base <= k < |CheckOrder| && cur.raised.None?
    requires FileRun(start, f, CheckOrder[base..], enabled, effect) == FileRun(cur, f, CheckOrder[k..], enabled, effect)
    requires next == Apply(cur, CheckOrder[k], f, enabled, effect)
    ensures FileRun(start, f, CheckOrder[base..], enabled, effect) == FileRun(next, f, CheckOrder[k + 1..], enabled, effect)
    ensures next.raised.Some? ==> FileRun(start, f, CheckOrder[base..], enabled, effect) == next
  {
    assert CheckOrder[k..][1..] == CheckOrder[k + 1..];
  }

  /** The body of the loop over the files: the enabled checks in their fixed order, each
      appending to the shared list; an exception ends the sequence. */
  method CheckFile(f: Path, enabled: set<Check>, effect: (Check, Path) -> Effect, errors: Errors)
    returns (raised: Option<string>)
    modifies errors
    ensures Run(errors.entries, raised) == FileRun(Run(old(errors.entries), None), f, CheckOrder, enabled, effect)
  {
    ghost var start := Run(errors.entries, None);
    assert CheckOrder[0..] == CheckOrder;
    raised := None;
    var k := 0;
    while k < |CheckOrder|
      invariant 0 <= k <= |CheckOrder| && raised == None
      invariant FileRun(start, f, CheckOrder[0..], enabled, effect) ==
        FileRun(Run(errors.entries, None), f, CheckOrder[k..], enabled, effect)
    {
      ghost var cur := Run(errors.entries, None);
      raised := Step(CheckOrder[k], f, enabled, effect, errors);
      Advance(start, 0, cur, Run(errors.entries, raised), f, k, enabled, effect);
      if raised.Some? {
        return;
      }
      k := k + 1;
    }
    assert CheckOrder[k..] == [];
  }

  /** `validate`: the checks on every file argument, then the report and the exit status. */
  method Validate(files: seq<string>, enabled: set<Check>, effect: (Check, Path) -> Effect)
    returns (ending: Ending)
    ensures ending == ValidateEnding(files, enabled, effect)
  {
    var errors := new Errors();
    var i := 0;
    while i < |files|
      invariant 0 <= i <= |files|
      invariant FilesRun(Run([], None), files, enabled, effect) ==
        FilesRun(Run(errors.entries, None), files[i..], enabled, effect)
    {
      var raised := CheckFile(Parse(files[i]), enabled, effect, errors);
      assert files[i..][1..] == files[i + 1..];
      if raised.Some? {
        return Raised(raised.value);
      }
      i := i + 1;
    }
    assert files[i..] == [];
    if errors.entries != [] {
      return Exit(1, set e | e in errors.entries :: ErrorLine(e));
    }
    return Returned;
  }

  /** The checks only append: what was on the list stays, in place. */
  lemma {:induction false} FileRunExtends(r: Run, f: Path, checks: seq<Check>, enabled: set<Check>, effect: (Check, Path) -> Effect)
    ensures r.errors <= FileRun(r, f, checks, enabled, effect).errors
    decreases |checks|
  {
    if checks != [] && r.raised.None? {
      FileRunExtends(Apply(r, checks[0], f, enabled, effect), f, checks[1..], enabled, effect);
    }
  }

  /** A file's checks end in an exception exactly when one of the enabled checks raises. */
  lemma {:induction false} FileRunRaises(r: Run, f: Path, checks: seq<Check>, enabled: set<Check>, effect: (Check, Path) -> Effect)
    requires r.raised.None?
    ensures FileRun(r, f, checks, enabled, effect).raised.None? <==>
      forall k :: 0 <= k < |checks| && checks[k] in enabled ==> effect(checks[k], f).raised.None?
    decreases |checks|
  {
    if checks != [] {
      var next := Apply(r, checks[0], f, enabled, effect);
      if next.raised.None? {
        FileRunRaises(next, f, checks[1..], enabled, effect);
        assert forall k :: 1 <= k < |checks| ==> checks[k] == checks[1..][k - 1];
      }
    }
  }

  /** When no check raises, the list gains exactly the messages of the enabled checks. */
  lemma {:induction false} FileRunMessages(r: Run, f: Path, checks: seq<Check>, enabled: set<Check>, effect: (Check, Path) -> Effect, m: string)
    requires r.raised.None? && FileRun(r, f, checks, enabled, effect).raised.None?
    ensures m in FileRun(r, f, checks, enabled, effect).errors <==>
      m in r.errors || exists k :: 0 <= k < |checks| && checks[k] in enabled && m in effect(checks[k], f).appended
    decreases |checks|
  {
    if checks != [] {
      var next := Apply(r, checks[0], f, enabled, effect);
      FileRunMessages(next, f, checks[1..], enabled, effect, m);
      if exists k :: 1 <= k < |checks| && checks[k] in enabled && m in effect(checks[k], f).appended {
        var k :| 1 <= k < |checks| && checks[k] in enabled && m in effect(checks[k], f).appended;
        assert checks[1..][k - 1] == checks[k];
      }
      if exists k :: 0 <= k < |checks[1..]| && checks[1..][k] in enabled && m in effect(checks[1..][k], f).appended {
        var k :| 0 <= k < |checks[1..]| && checks[1..][k] in enabled && m in effect(checks[1..][k], f).appended;
        assert checks[k + 1] == checks[1..][k];
      }
    }
  }

  /** For the fixed check order: a file's checks raise exactly when an enabled check raises. */
  lemma FileChecksRaise(r: Run, f: Path, enabled: set<Check>, effect: (Check, Path) -> Effect)
    requires r.raised.None?
    ensures FileRun(r, f, CheckOrder, enabled, effect).raised.None? <==>
      forall c :: c in enabled ==> effect(c, f).raised.None?
  {
    FileRunRaises(r, f, CheckOrder, enabled, effect);
    forall c | c in enabled
      ensures exists k :: 0 <= k < |CheckOrder| && CheckOrder[k] == c
    {
      CheckOrderLists(c);
    }
  }

  /** For the fixed check order: without an exception, a file adds exactly the messages of its
      enabled checks. */
  lemma FileChecksMessages(r: Run, f: Path, enabled: set<Check>, effect: (Check, Path) -> Effect, m: string)
    requires r.raised.None? && FileRun(r, f, CheckOrder, enabled, effect).raised.None?
    ensures m in FileRun(r, f, CheckOrder, enabled, effect).errors <==>
      m in r.errors || exists c :: c in enabled && m in effect(c, f).appended
  {
    FileRunMessages(r, f, CheckOrder, enabled, effect, m);
    if exists c :: c in enabled && m in effect(c, f).appended {
      var c :| c in enabled && m in effect(c, f).appended;
      CheckOrderLists(c);
      var k :| 0 <= k < |CheckOrder| && CheckOrder[k] == c;
    }
  }

  lemma {:induction false} FilesRunExtends(r: Run, files: seq<string>, enabled: set<Check>, effect: (Check, Path) -> Effect)
    ensures r.errors <= FilesRun(r, files, enabled, effect).errors
    decreases |files|
  {
    if files != [] && r.raised.None? {
      var next := FileRun(r, Parse(files[0]), CheckOrder, enabled, effect);
      FileRunExtends(r, Parse(files[0]), CheckOrder, enabled, effect);
      FilesRunExtends(next, files[1..], enabled, effect);
    }
  }

  /** The run ends in an exception exactly when some enabled check raises on some file. */
  lemma {:induction false} FilesRunRaises(r: Run, files: seq<string>, enabled: set<Check>, effect: (Check, Path) -> Effect)
    requires r.raised.None?
    ensures FilesRun(r, files, enabled, effect).raised.None? <==>
      forall j, c :: 0 <= j < |files| && c in enabled ==> effect(c, Parse(files[j])).raised.None?
    decreases |files|
  {
    if files != [] {
      var next := FileRun(r, Parse(files[0]), CheckOrder, enabled, effect);
      FileChecksRaise(r, Parse(files[0]), enabled, effect);
      QuietSplit(files, enabled, effect);
      if next.raised.None? {
        FilesRunRaises(next, files[1..], enabled, effect);
      }
    }
  }

  /** No enabled check raises on any file: on the first file, and on the rest. */
  lemma QuietSplit(files: seq<string>, enabled: set<Check>, effect: (Check, Path) -> Effect)
    requires files != []
    ensures (forall j, c :: 0 <= j < |files| && c in enabled ==> effect(c, Parse(files[j])).raised.None?) <==>
      (forall c :: c in enabled ==> effect(c, Parse(files[0])).raised.None?) &&
      (forall j, c :: 0 <= j < |files[1..]| && c in enabled ==> effect(c, Parse(files[1..][j])).raised.None?)
  {
    assert forall j :: 1 <= j < |files| ==> files[j] == files[1..][j - 1];
  }

  /** Without an exception, the shared list holds exactly the messages of the enabled checks
      over all the files. */
  lemma {:induction false} FilesRunMessages(r: Run, files: seq<string>, enabled: set<Check>, effect: (Check, Path) -> Effect, m: string)
    requires r.raised.None? && FilesRun(r, files, enabled, effect).raised.None?
    ensures m in FilesRun(r, files, enabled, effect).errors <==>
      m in r.errors || exists j, c :: 0 <= j < |files| && c in enabled && m in effect(c, Parse(files[j])).appended
    decreases |files|
  {
    if files != [] {
      var next := FileRun(r, Parse(files[0]), CheckOrder, enabled, effect);
      FileChecksMessages(r, Parse(files[0]), enabled, effect, m);
      FilesRunMessages(next, files[1..], enabled, effect, m);
      AppendedSplit(files, enabled, effect, m);
    }
  }

  /** Some enabled check appends `m` for some file: for the first file, or for one of the rest. */
  lemma AppendedSplit(files: seq<string>, enabled: set<Check>, effect: (Check, Path) -> Effect, m: string)
    requires files != []
    ensures (exists j, c :: 0 <= j < |files| && c in enabled && m in effect(c, Parse(files[j])).appended) <==>
      (exists c :: c in enabled && m in effect(c, Parse(files[0])).appended) ||
      (exists j, c :: 0 <= j < |files[1..]| && c in enabled && m in effect(c, Parse(files[1..][j])).appended)
  {
    if exists j, c :: 1 <= j < |files| && c in enabled && m in effect(c, Parse(files[j])).appended {
      var j, c :| 1 <= j < |files| && c in enabled && m in effect(c, Parse(files[j])).appended;
      assert files[1..][j - 1] == files[j];
    }
    if exists j, c :: 0 <= j < |files[1..]| && c in enabled && m in effect(c, Parse(files[1..][j])).appended {
      var j, c :| 0 <= j < |files[1..]| && c in enabled && m in effect(c, Parse(files[1..][j])).appended;
      assert files[j + 1] == files[1..][j];
    }
  }

  lemma ErrorLineInjective(a: string, b: string)
    requires ErrorLine(a) == ErrorLine(b)
    ensures a == b
  {
    assert a == ErrorLine(a)[8..];
    assert b == ErrorLine(b)[8..];
  }

  /** The report has one line per distinct message of the list, and nothing else. */
  lemma ReportLines(errors: seq<string>, m: string)
    ensures ErrorLine(m) in Report(errors) <==> m in errors
  {
    if ErrorLine(m) in Report(errors) {
      var e :| e in errors && ErrorLine(e) == ErrorLine(m);
      ErrorLineInjective(e, m);
    }
  }

  /** How `validate` ends: it raises exactly when an enabled check raises on some file; otherwise
      it exits 1 when some enabled check appended a message, reporting exactly those messages,
      and returns when none did. */
  lemma ValidateEndingMeaning(files: seq<string>, enabled: set<Check>, effect: (Check, Path) -> Effect, m: string)
    ensures ValidateEnding(files, enabled, effect).Raised? <==>
      exists j, c :: 0 <= j < |files| && c in enabled && effect(c, Parse(files[j])).raised.Some?
    ensures ValidateEnding(files, enabled, effect).Exit? ==> ValidateEnding(files, enabled, effect).code == 1
    ensures ValidateEnding(files, enabled, effect).Exit? ==>
      (ErrorLine(m) in ValidateEnding(files, enabled, effect).printed <==>
        exists j, c :: 0 <= j < |files| && c in enabled && m in effect(c, Parse(files[j])).appended)
    ensures ValidateEnding(files, enabled, effect).Returned? <==>
      !ValidateEnding(files, enabled, effect).Raised? &&
      forall j, c :: 0 <= j < |files| && c in enabled ==> effect(c, Parse(files[j])).appended == []
  {
    var start := Run([], None);
    var run := FilesRun(start, files, enabled, effect);
    FilesRunRaises(start, files, enabled, effect);
    if run.raised.None? {
      FilesRunMessages(start, files, enabled, effect, m);
      ReportLines(run.errors, m);
      if run.errors != [] {
        FilesRunMessages(start, files, enabled, effect, run.errors[0]);
      }
      if exists j, c :: 0 <= j < |files| && c in enabled && effect(c, Parse(files[j])).appended != [] {
        var j, c :| 0 <= j < |files| && c in enabled && effect(c, Parse(files[j])).appended != [];
        FilesRunMessages(start, files, enabled, effect, effect(c, Parse(files[j])).appended[0]);
      }
    }
  }

  lemma {:induction false} FileRunIgnoresDisabled(r: Run, f: Path, checks: seq<Check>, enabled: set<Check>,
                                                   e1: (Check, Path) -> Effect, e2: (Check, Path) -> Effect)
    requires forall c :: c in enabled ==> e1(c, f) == e2(c, f)
    ensures FileRun(r, f, checks, enabled, e1) == FileRun(r, f, checks, enabled, e2)
    decreases |checks|
  {
    if checks != [] && r.raised.None? {
      FileRunIgnoresDisabled(Apply(r, checks[0], f, enabled, e1), f, checks[1..], enabled, e1, e2);
    }
  }

  /** Disabled checks are never called: what they would do does not matter. */
  lemma {:induction false} DisabledNeverCalled(r: Run, files: seq<string>, enabled: set<Check>,
                                               e1: (Check, Path) -> Effect, e2: (Check, Path) -> Effect)
    requires forall c, f :: c in enabled ==> e1(c, f) == e2(c, f)
    ensures FilesRun(r, files, enabled, e1) == FilesRun(r, files, enabled, e2)
    decreases |files|
  {
    if files != [] && r.raised.None? {
      FileRunIgnoresDisabled(r, Parse(files[0]), CheckOrder, enabled, e1, e2);
      DisabledNeverCalled(FileRun(r, Parse(files[0]), CheckOrder, enabled, e1), files[1..], enabled, e1, e2);
    }
  }

  /** The worker tasks: validation, and the builders of `build` and of the script. */
  datatype Task = ValidateTask | SemanticTask | CsvTask | JsonTask | SchemaTask | AssetTask

  /** One worker call: the worker task, the file, and the build directory handed with it, if any. */
  datatype Call = Call(task: Task, file: Path, dest: Option<Path>)

  /** The files each task is given: all of them for validation, `.ttl` for the semantic, CSV and
      asset builders, a last suffix `.yaml` for the JSON builder, names ending `.oas3.yaml` for
      the schema index. */
  predicate Routes(t: Task, f: Path)
  {
    match t
    case ValidateTask => true
    case SemanticTask => Suffix(Name(f)) == ".ttl"
    case CsvTask => Suffix(Name(f)) == ".ttl"
    case AssetTask => Suffix(Name(f)) == ".ttl"
    case JsonTask => Suffix(Name(f)) == ".yaml"
    case SchemaTask => EndsWith(Name(f), ".oas3.yaml")
  }

  /** An OpenAPI schema is handed to the JSON builder too: its last suffix is `.yaml`. */
  lemma SchemaAlsoJson(f: Path)
    requires Routes(SchemaTask, f)
    ensures Routes(JsonTask, f)
  {
    var n := Name(f);
    var i := |n| - 5;
    assert n[i..] == ".yaml";
    assert n[i] == '.';
    assert forall j :: i < j < |n| ==> n[j] == n[i..][j - i];
    assert LastIndexOf(n, '.') == i;
    assert n[i..] == ".yaml";
  }

  /** The file-list filter of `build`: the pattern occurs in the name and no excluded item does. */
  predicate Selected(f: Path, pattern: string, exclude: seq<string>)
  {
    Contains(Name(f), pattern) && forall e :: e in exclude ==> !Contains(Name(f), e)
  }

  /** The comprehension over the listed files, in listing order. */
  function Selection(files: seq<Path>, pattern: string, exclude: seq<string>): (r: seq<Path>)
    ensures forall f :: f in r <==> f in files && Selected(f, pattern, exclude)
    decreases |files|
  {
    if files == [] then []
    else
      var init := files[..|files| - 1];
      var f := files[|files| - 1];
      assert forall g :: g in files <==> g in init || g == f;
      Selection(init, pattern, exclude) + (if Selected(f, pattern, exclude) then [f] else [])
  }

  /** With the default options (pattern "" and exclude ["NoneString"]) a file is selected exactly
      when its name does not contain "NoneString". */
  lemma DefaultSelection(f: Path)
    ensures Selected(f, "", ["NoneString"]) <==> !Contains(Name(f), "NoneString")
  {
    EmptyContained(Name(f));
  }

  /** One starmap's argument generator: `(f, dest) for f in file_list if ...`. */
  function Batch(t: Task, files: seq<Path>, dest: Option<Path>): (r: seq<Call>)
    ensures forall c :: c in r <==> c.task == t && c.dest == dest && c.file in files && Routes(t, c.file)
    decreases |files|
  {
    if files == [] then []
    else
      var init := files[..|files| - 1];
      var f := files[|files| - 1];
      assert forall g :: g in files <==> g in init || g == f;
      Batch(t, init, dest) + (if Routes(t, f) then [Call(t, f, dest)] else [])
  }

  /** The exception a map over the calls re-raises: the first failing call's. */
  function FirstFailure(calls: seq<Call>, outcome: Call -> Result<()>): (r: Option<string>)
    ensures r.None? <==> forall c :: c in calls ==> outcome(c).Ok?
  {
    if calls == [] then None
    else if outcome(calls[0]).Raise? then Some(outcome(calls[0]).error)
    else
      assert forall c :: c in calls <==> c == calls[0] || c in calls[1..];
      FirstFailure(calls[1..], outcome)
  }

  /** The worker processes of every pool the tools create. */
  const Workers := 4

  /** The chunk size Pool.map and Pool.starmap choose for `n` calls: `n / (4 * workers)`, rounded
      up. */
  function ChunkSize(n: nat): (r: nat)
    ensures n > 0 ==> r >= 1 && (r - 1) * (4 * Workers) < n <= r * (4 * Workers)
  {
    if n % (4 * Workers) == 0 then n / (4 * Workers) else n / (4 * Workers) + 1
  }

  /** One chunk run by a worker as `list(map(f, chunk))`: its calls up to and including the first
      that raises. */
  function RunChunk(chunk: seq<Call>, outcome: Call -> Result<()>): (r: seq<Call>)
    ensures r <= chunk
    decreases |chunk|
  {
    if chunk == [] then []
    else if outcome(chunk[0]).Raise? then [chunk[0]]
    else [chunk[0]] + RunChunk(chunk[1..], outcome)
  }

  /** A call of a chunk is made exactly when every call before it in the chunk succeeded. */
  lemma {:induction false} RunChunkReaches(chunk: seq<Call>, outcome: Call -> Result<()>, i: nat)
    requires i < |chunk|
    ensures i < |RunChunk(chunk, outcome)| <==> forall j :: 0 <= j < i ==> outcome(chunk[j]).Ok?
    decreases i
  {
    if i > 0 && outcome(chunk[0]).Ok? {
      RunChunkReaches(chunk[1..], outcome, i - 1);
      assert forall j :: 0 < j < i ==> chunk[j] == chunk[1..][j - 1];
    }
  }

  /** The calls a pool makes for a batch cut into chunks of `size`: every chunk is run, each up to
      its first failure. */
  function Issued(b: seq<Call>, size: nat, outcome: Call -> Result<()>): (r: seq<Call>)
    requires size >= 1
    decreases |b|
  {
    if |b| <= size then RunChunk(b, outcome)
    else RunChunk(b[..size], outcome) + Issued(b[size..], size, outcome)
  }

  /** The calls `map`/`starmap` on a pool of four workers makes for a batch. */
  function PoolCalls(b: seq<Call>, outcome: Call -> Result<()>): seq<Call>
  {
    if b == [] then [] else Issued(b, ChunkSize(|b|), outcome)
  }

  /** A chunk with no failure is run in full; with one, its first failure is among the calls made,
      and it is the first failure of what was made. */
  lemma {:induction false} RunChunkFailure(chunk: seq<Call>, outcome: Call -> Result<()>)
    ensures FirstFailure(chunk, outcome).None? ==> RunChunk(chunk, outcome) == chunk
    ensures FirstFailure(RunChunk(chunk, outcome), outcome) == FirstFailure(chunk, outcome)
    decreases |chunk|
  {
    if chunk != [] && outcome(chunk[0]).Ok? {
      RunChunkFailure(chunk[1..], outcome);
      FirstFailureCons(chunk[0], RunChunk(chunk[1..], outcome), outcome);
    }
  }

  lemma FirstFailureCons(c: Call, rest: seq<Call>, outcome: Call -> Result<()>)
    requires outcome(c).Ok?
    ensures FirstFailure([c] + rest, outcome) == FirstFailure(rest, outcome)
  {
    assert ([c] + rest)[1..] == rest;
  }

  /** The failure a map over two runs re-raises: the first run's, if it has one. */
  lemma {:induction false} FirstFailureAppend(a: seq<Call>, b: seq<Call>, outcome: Call -> Result<()>)
    ensures FirstFailure(a + b, outcome) == if FirstFailure(a, outcome).Some? then FirstFailure(a, outcome) else FirstFailure(b, outcome)
    decreases |a|
  {
    if a == [] {
      assert a + b == b;
    } else {
      assert (a + b)[0] == a[0];
      assert (a + b)[1..] == a[1..] + b;
      FirstFailureAppend(a[1..], b, outcome);
    }
  }

  /** The pool makes only calls of the batch; with no failure it makes all of them; and the first
      failure of the batch in list order is always among the calls made, as the first failure of
      what was made. */
  lemma {:induction false} IssuedMeaning(b: seq<Call>, size: nat, outcome: Call -> Result<()>)
    requires size >= 1
    ensures forall c :: c in Issued(b, size, outcome) ==> c in b
    ensures FirstFailure(b, outcome).None? ==> Issued(b, size, outcome) == b
    ensures FirstFailure(Issued(b, size, outcome), outcome) == FirstFailure(b, outcome)
    decreases |b|
  {
    if |b| <= size {
      RunChunkFailure(b, outcome);
    } else {
      var head, tail := b[..size], b[size..];
      assert head + tail == b;
      RunChunkFailure(head, outcome);
      IssuedMeaning(tail, size, outcome);
      FirstFailureAppend(head, tail, outcome);
      FirstFailureAppend(RunChunk(head, outcome), Issued(tail, size, outcome), outcome);
      assert forall c :: c in Issued(b, size, outcome) ==> c in head || c in Issued(tail, size, outcome);
    }
  }

  /** The same for the chunk size the pool chooses. */
  lemma PoolCallsMeaning(b: seq<Call>, outcome: Call -> Result<()>)
    ensures forall c :: c in PoolCalls(b, outcome) ==> c in b
    ensures FirstFailure(b, outcome).None? ==> PoolCalls(b, outcome) == b
    ensures FirstFailure(PoolCalls(b, outcome), outcome) == FirstFailure(b, outcome)
  {
    if b != [] {
      IssuedMeaning(b, ChunkSize(|b|), outcome);
    }
  }

  const DefaultBase := Path(false, ["assets"])
  const DefaultBuild := Path(false, ["_build"])
  /** `Path(".")`. */
  const Here := Path(false, [])

  /** What `build` (or the script) did: its directories, its file list, the worker calls in the
      order they were issued, and the exit status or the exception re-raised from a worker. */
  datatype BuildRun = BuildRun(basepath: Path, buildpath: Path, files: seq<Path>, calls: seq<Call>, result: Result<int>)

  /** The destination a task's calls carry; the schema index also gets a second batch into ".". */
  function DestOf(t: Task, buildpath: Path): Option<Path>
  {
    if t == ValidateTask then None else Some(buildpath)
  }

  /** The position of a call's batch: validation, semantic, CSV, JSON, schema into the build
      directory, schema into ".". */
  function Rank(c: Call): nat
  {
    match c.task
    case ValidateTask => 0
    case SemanticTask => 1
    case CsvTask => 2
    case JsonTask => 3
    case SchemaTask => if c.dest == Some(Here) then 5 else 4
    case AssetTask => 1
  }

  predicate Ordered(calls: seq<Call>)
  {
    forall i, j :: 0 <= i < j < |calls| ==> Rank(calls[i]) <= Rank(calls[j])
  }

  /** Where a call of `build` may go: an enabled task, on a selected file it routes, into its
      destination (or "." for the second schema batch). */
  predicate Sound(c: Call, tasks: set<Task>, files: seq<Path>, buildpath: Path)
  {
    c.task in tasks && c.task != AssetTask && c.file in files && Routes(c.task, c.file) &&
    (c.dest == DestOf(c.task, buildpath) || (c.task == SchemaTask && c.dest == Some(Here)))
  }

  lemma OrderedAppend(a: seq<Call>, b: seq<Call>, lo: nat, r: nat)
    requires Ordered(a) && forall c :: c in a ==> Rank(c) <= lo
    requires lo <= r && forall c :: c in b ==> Rank(c) == r
    ensures Ordered(a + b) && forall c :: c in a + b ==> Rank(c) <= r
  {
    forall i, j | 0 <= i < j < |a + b| ensures Rank((a + b)[i]) <= Rank((a + b)[j]) {
      if j >= |a| {
        assert (a + b)[j] in b;
        if i < |a| {
          assert (a + b)[i] in a;
        } else {
          assert (a + b)[i] in b;
        }
      }
    }
  }

  /** One `if option: workers.starmap(task, generator)`: the pool makes the calls of the batch
      (all of them unless one fails), and the first failure among them is re-raised; after an
      exception nothing more is issued. */
  function Issue(prev: BuildRun, enabled: bool, t: Task, dest: Option<Path>, outcome: Call -> Result<()>): BuildRun
  {
    if prev.result.Raise? || !enabled then prev
    else
      var b := Batch(t, prev.files, dest);
      var made := PoolCalls(b, outcome);
      match FirstFailure(b, outcome)
      case None => prev.(calls := prev.calls + made)
      case Some(e) => prev.(calls := prev.calls + made, result := Raise(e))
  }

  /** One `if option: workers.starmap(...)` of `build`: whether it is enabled, its task and the
      destination its calls carry. */
  datatype Stage = Stage(enabled: bool, task: Task, dest: Option<Path>)

  /** The batches of `build`, in the order the source issues them. */
  function Stages(tasks: set<Task>, buildpath: Path): seq<Stage>
  {
    [Stage(ValidateTask in tasks, ValidateTask, None),
     Stage(SemanticTask in tasks, SemanticTask, Some(buildpath)),
     Stage(CsvTask in tasks, CsvTask, Some(buildpath)),
     Stage(JsonTask in tasks, JsonTask, Some(buildpath)),
     Stage(SchemaTask in tasks, SchemaTask, Some(buildpath)),
     Stage(SchemaTask in tasks, SchemaTask, Some(Here))]
  }

  function RunStages(r: BuildRun, stages: seq<Stage>, outcome: Call -> Result<()>): BuildRun
    decreases |stages|
  {
    if stages == [] then r
    else RunStages(Issue(r, stages[0].enabled, stages[0].task, stages[0].dest, outcome), stages[1..], outcome)
  }

  function BuildPlan(args: seq<string>, walkOf: Path -> seq<Dispatch.WalkStep>, tasks: set<Task>,
                     pattern: string, exclude: seq<string>, outcome: Call -> Result<()>): BuildRun
  {
    var basepath := if args == [] then DefaultBase else Parse(args[0]);
    var buildpath := if |args| < 2 then DefaultBuild else Parse(args[1]);
    var files := Selection(Dispatch.ListedPaths(Dispatch.Package, walkOf(basepath)), pattern, exclude);
    RunStages(BuildRun(basepath, buildpath, files, [], Ok(0)), Stages(tasks, buildpath), outcome)
  }

  lemma AdvanceBuild(plan: BuildRun, r: BuildRun, stages: seq<Stage>, k: nat, outcome: Call -> Result<()>)
    requires k < |stages| && plan == RunStages(r, stages[k..], outcome)
    ensures plan == RunStages(Issue(r, stages[k].enabled, stages[k].task, stages[k].dest, outcome), stages[k + 1..], outcome)
  {
    assert stages[k..][1..] == stages[k + 1..];
  }

  lemma RaisedStays(r: BuildRun, stages: seq<Stage>, outcome: Call -> Result<()>)
    requires r.result.Raise?
    ensures RunStages(r, stages, outcome) == r
    decreases |stages|
  {
    if stages != [] {
      RaisedStays(r, stages[1..], outcome);
    }
  }

  /** `build`: the base and build directories from the arguments, the selected catalogue files,
      one worker batch per enabled task in a fixed order, and exit 0 unless a worker raised. */
  method BuildMode(args: seq<string>, walkOf: Path -> seq<Dispatch.WalkStep>, tasks: set<Task>,
                   pattern: string, exclude: seq<string>, outcome: Call -> Result<()>)
    returns (r: BuildRun)
    ensures r == BuildPlan(args, walkOf, tasks, pattern, exclude, outcome)
  {
    var basepath := if args == [] then DefaultBase else Parse(args[0]);
    var buildpath := if |args| < 2 then DefaultBuild else Parse(args[1]);
    var files := Selection(Dispatch.ListedPaths(Dispatch.Package, walkOf(basepath)), pattern, exclude);
    r := BuildRun(basepath, buildpath, files, [], Ok(0));
    var stages := Stages(tasks, buildpath);
    ghost var plan := RunStages(r, stages, outcome);
    assert stages[0..] == stages;
    var k := 0;
    while k < |stages|
      invariant 0 <= k <= |stages| && r.result.Ok?
      invariant plan == RunStages(r, stages[k..], outcome)
    {
      ghost var before := r;
      if stages[k].enabled {
        r := Starmap(r, stages[k].task, stages[k].dest, outcome);
      }
      AdvanceBuild(plan, before, stages, k, outcome);
      if r.result.Raise? {
        RaisedStays(r, stages[k + 1..], outcome);
        return;
      }
      k := k + 1;
    }
    assert stages[k..] == [];
  }

  /** One `workers.starmap` over the selected files. */
  method Starmap(prev: BuildRun, t: Task, dest: Option<Path>, outcome: Call -> Result<()>) returns (next: BuildRun)
    requires prev.result.Ok?
    ensures next == Issue(prev, true, t, dest, outcome)
  {
    var b := Batch(t, prev.files, dest);
    var failure := FirstFailure(b, outcome);
    next := prev.(calls := prev.calls + PoolCalls(b, outcome));
    if failure.Some? {
      next := next.(result := Raise(failure.value));
    }
  }

  /** What holds of a `build` run after each batch: every call is sound, the batches are in
      order and none ranks above `top`, and the run is still going exactly when no call failed. */
  predicate Good(r: BuildRun, tasks: set<Task>, outcome: Call -> Result<()>, top: nat)
  {
    (forall c :: c in r.calls ==> Sound(c, tasks, r.files, r.buildpath)) &&
    Ordered(r.calls) && (forall c :: c in r.calls ==> Rank(c) <= top) &&
    (r.result.Ok? <==> forall c :: c in r.calls ==> outcome(c).Ok?) &&
    (r.result.Ok? ==> r.result.value == 0)
  }

  lemma IssueGood(prev: BuildRun, enabled: bool, t: Task, dest: Option<Path>, outcome: Call -> Result<()>,
                  tasks: set<Task>, top: nat, rank: nat)
    requires Good(prev, tasks, outcome, top) && top <= rank
    requires enabled ==> t in tasks && t != AssetTask
    requires dest == DestOf(t, prev.buildpath) || (t == SchemaTask && dest == Some(Here))
    requires Rank(Call(t, Path(false, []), dest)) == rank
    ensures Good(Issue(prev, enabled, t, dest, outcome), tasks, outcome, rank)
  {
    if !prev.result.Raise? && enabled {
      var b := Batch(t, prev.files, dest);
      var made := PoolCalls(b, outcome);
      PoolCallsMeaning(b, outcome);
      assert forall c :: c in made ==> Rank(c) == rank;
      OrderedAppend(prev.calls, made, top, rank);
      assert forall c :: c in prev.calls + made <==> c in prev.calls || c in made;
    } else {
      assert forall c :: c in prev.calls ==> Rank(c) <= rank;
    }
  }

  /** The batches still to come may be issued by `build`: an enabled stage's task is one it
      was asked for, each carries its task's destination (or "."), and their ranks only grow. */
  predicate Fits(stages: seq<Stage>, tasks: set<Task>, buildpath: Path, top: nat)
    decreases |stages|
  {
    stages == [] ||
    var s := stages[0];
    var rank := Rank(Call(s.task, Here, s.dest));
    (s.enabled ==> s.task in tasks && s.task != AssetTask) &&
    (s.dest == DestOf(s.task, buildpath) || (s.task == SchemaTask && s.dest == Some(Here))) &&
    top <= rank && Fits(stages[1..], tasks, buildpath, rank)
  }

  lemma {:induction false} RunStagesGood(r: BuildRun, stages: seq<Stage>, tasks: set<Task>,
                                         outcome: Call -> Result<()>, top: nat)
    requires top <= 5 && Good(r, tasks, outcome, top) && Fits(stages, tasks, r.buildpath, top)
    ensures Good(RunStages(r, stages, outcome), tasks, outcome, 5)
    ensures RunStages(r, stages, outcome).files == r.files
    ensures RunStages(r, stages, outcome).buildpath == r.buildpath
    decreases |stages|
  {
    if stages == [] {
      assert forall c :: c in r.calls ==> Rank(c) <= 5;
    } else {
      var s := stages[0];
      var rank := Rank(Call(s.task, Here, s.dest));
      IssueGood(r, s.enabled, s.task, s.dest, outcome, tasks, top, rank);
      RunStagesGood(Issue(r, s.enabled, s.task, s.dest, outcome), stages[1..], tasks, outcome, rank);
    }
  }

  /** Every call `build` issues is an enabled task on a selected file it routes, into its
      destination; the batches come in the source's order; and it exits 0 exactly when no worker
      call failed, re-raising the failure otherwise. */
  lemma BuildPlanSound(args: seq<string>, walkOf: Path -> seq<Dispatch.WalkStep>, tasks: set<Task>,
                       pattern: string, exclude: seq<string>, outcome: Call -> Result<()>)
    ensures Good(BuildPlan(args, walkOf, tasks, pattern, exclude, outcome), tasks, outcome, 5)
  {
    var basepath := if args == [] then DefaultBase else Parse(args[0]);
    var buildpath := if |args| < 2 then DefaultBuild else Parse(args[1]);
    var files := Selection(Dispatch.ListedPaths(Dispatch.Package, walkOf(basepath)), pattern, exclude);
    var r := BuildRun(basepath, buildpath, files, [], Ok(0));
    StagesFit(tasks, buildpath);
    RunStagesGood(r, Stages(tasks, buildpath), tasks, outcome, 0);
  }

  /** The source's batches come in non-decreasing rank, each with its own destination. */
  lemma StagesFit(tasks: set<Task>, buildpath: Path)
    ensures Fits(Stages(tasks, buildpath), tasks, buildpath, 0)
  {
    var stages := Stages(tasks, buildpath);
    assert Fits(stages[5..], tasks, buildpath, 5);
    assert Fits(stages[4..], tasks, buildpath, 4);
    assert Fits(stages[3..], tasks, buildpath, 3);
    assert Fits(stages[2..], tasks, buildpath, 2);
    assert Fits(stages[1..], tasks, buildpath, 1);
  }

  /** Running further batches keeps the directories and the file list, only appends calls, and
      a run that ends without an exception had none before. */
  lemma {:induction false} RunStagesGrows(r: BuildRun, stages: seq<Stage>, outcome: Call -> Result<()>)
    ensures var e := RunStages(r, stages, outcome);
      e.files == r.files && e.buildpath == r.buildpath && r.calls <= e.calls &&
      (e.result.Ok? ==> r.result.Ok?)
    decreases |stages|
  {
    if stages != [] {
      RunStagesGrows(Issue(r, stages[0].enabled, stages[0].task, stages[0].dest, outcome), stages[1..], outcome);
    }
  }

  /** A run that ends without an exception issued every enabled batch in full. */
  lemma {:induction false} RunStagesIssues(r: BuildRun, stages: seq<Stage>, outcome: Call -> Result<()>, k: nat, c: Call)
    requires k < |stages| && stages[k].enabled
    requires RunStages(r, stages, outcome).result.Ok?
    requires c in Batch(stages[k].task, r.files, stages[k].dest)
    ensures c in RunStages(r, stages, outcome).calls
    decreases k
  {
    var s := stages[0];
    var next := Issue(r, s.enabled, s.task, s.dest, outcome);
    var e := RunStages(next, stages[1..], outcome);
    assert RunStages(r, stages, outcome) == e;
    RunStagesGrows(next, stages[1..], outcome);
    assert next.files == r.files;
    if k == 0 {
      PoolCallsMeaning(Batch(s.task, r.files, s.dest), outcome);
      assert next.calls == r.calls + Batch(s.task, r.files, s.dest);
      KeptInLonger(c, next.calls, e.calls);
    } else {
      assert stages[1..][k - 1] == stages[k];
      RunStagesIssues(next, stages[1..], outcome, k - 1, c);
    }
  }

  lemma KeptInLonger(c: Call, shorter: seq<Call>, longer: seq<Call>)
    requires shorter <= longer && c in shorter
    ensures c in longer
  {
    var i :| 0 <= i < |shorter| && shorter[i] == c;
    assert longer[i] == c;
  }

  /** When `build` exits normally, every task asked for has been run on every selected file it
      routes, into the build directory (validation with none), and the schema index into "." as
      well. */
  lemma BuildPlanComplete(args: seq<string>, walkOf: Path -> seq<Dispatch.WalkStep>, tasks: set<Task>,
                          pattern: string, exclude: seq<string>, outcome: Call -> Result<()>, t: Task, f: Path)
    requires BuildPlan(args, walkOf, tasks, pattern, exclude, outcome).result.Ok?
    requires t in tasks && t != AssetTask && Routes(t, f)
    requires f in BuildPlan(args, walkOf, tasks, pattern, exclude, outcome).files
    ensures var e := BuildPlan(args, walkOf, tasks, pattern, exclude, outcome);
      Call(t, f, DestOf(t, e.buildpath)) in e.calls &&
      (t == SchemaTask ==> Call(t, f, Some(Here)) in e.calls)
  {
    var basepath := if args == [] then DefaultBase else Parse(args[0]);
    var buildpath := if |args| < 2 then DefaultBuild else Parse(args[1]);
    var files := Selection(Dispatch.ListedPaths(Dispatch.Package, walkOf(basepath)), pattern, exclude);
    var r := BuildRun(basepath, buildpath, files, [], Ok(0));
    var stages := Stages(tasks, buildpath);
    RunStagesGrows(r, stages, outcome);
    var k := match t
      case ValidateTask => 0
      case SemanticTask => 1
      case CsvTask => 2
      case JsonTask => 3
      case _ => 4;
    assert stages[k].task == t && stages[k].enabled && stages[k].dest == DestOf(t, buildpath);
    RunStagesIssues(r, stages, outcome, k, Call(t, f, DestOf(t, buildpath)));
    if t == SchemaTask {
      RunStagesIssues(r, stages, outcome, 5, Call(t, f, Some(Here)));
    }
  }

  /** The batches of the `validate.py` script: every listed file validated, then the `.ttl`
      files built as assets into `_build`. */
  function ScriptStages(): seq<Stage>
  {
    [Stage(true, ValidateTask, None), Stage(true, AssetTask, Some(DefaultBuild))]
  }

  function ScriptPlan(walkOf: Path -> seq<Dispatch.WalkStep>, outcome: Call -> Result<()>): BuildRun
  {
    var files := Dispatch.ListedPaths(Dispatch.Script, walkOf(DefaultBase));
    RunStages(BuildRun(DefaultBase, DefaultBuild, files, [], Ok(0)), ScriptStages(), outcome)
  }

  /** The script's main block: a map of the validator over the listed files, then a starmap of
      the asset builder over the `.ttl` ones; a worker's exception is re-raised. */
  method ScriptMain(walkOf: Path -> seq<Dispatch.WalkStep>, outcome: Call -> Result<()>) returns (r: BuildRun)
    ensures r == ScriptPlan(walkOf, outcome)
  {
    var files := Dispatch.ListFiles(Dispatch.Script, walkOf(DefaultBase));
    r := BuildRun(DefaultBase, DefaultBuild, files, [], Ok(0));
    ghost var stages := ScriptStages();
    ghost var plan := ScriptPlan(walkOf, outcome);
    assert stages[0..] == stages;
    ghost var before := r;
    r := Starmap(r, ValidateTask, None, outcome);
    AdvanceBuild(plan, before, stages, 0, outcome);
    if r.result.Raise? {
      RaisedStays(r, stages[1..], outcome);
      return;
    }
    before := r;
    r := Starmap(r, AssetTask, Some(DefaultBuild), outcome);
    AdvanceBuild(plan, before, stages, 1, outcome);
    assert stages[2..] == [];
  }

  /** The script validates every listed file and builds exactly the `.ttl` ones, into `_build`;
      it ends normally exactly when no worker call failed, and a failing validation stops it
      before any asset is built. */
  lemma ScriptPlanMeaning(walkOf: Path -> seq<Dispatch.WalkStep>, outcome: Call -> Result<()>, f: Path)
    ensures ScriptPlan(walkOf, outcome).files == Dispatch.ListedPaths(Dispatch.Script, walkOf(DefaultBase))
    ensures var r := ScriptPlan(walkOf, outcome);
      r.result.Ok? <==> forall c :: c in r.calls ==> outcome(c).Ok?
    ensures var r := ScriptPlan(walkOf, outcome);
      r.result.Ok? ==> (Call(ValidateTask, f, None) in r.calls <==> f in r.files) &&
                       (Call(AssetTask, f, Some(DefaultBuild)) in r.calls <==>
                          f in r.files && Suffix(Name(f)) == ".ttl")
    ensures var r := ScriptPlan(walkOf, outcome);
      FirstFailure(Batch(ValidateTask, r.files, None), outcome).Some? ==>
        forall c :: c in r.calls ==> c.task == ValidateTask
  {
    var files := Dispatch.ListedPaths(Dispatch.Script, walkOf(DefaultBase));
    var r0 := BuildRun(DefaultBase, DefaultBuild, files, [], Ok(0));
    ScriptStagesMeaning(r0, outcome);
    ScriptCalls(RunStages(r0, ScriptStages(), outcome), files, outcome, f);
  }

  /** Which calls a finished script run holds, from the two batches it issues. */
  lemma ScriptCalls(r: BuildRun, files: seq<Path>, outcome: Call -> Result<()>, f: Path)
    requires var v := Batch(ValidateTask, files, None);
      var a := Batch(AssetTask, files, Some(DefaultBuild));
      r.files == files &&
      (r.result.Ok? <==> forall c :: c in r.calls ==> outcome(c).Ok?) &&
      (FirstFailure(v, outcome).Some? ==> r.calls == PoolCalls(v, outcome)) &&
      (FirstFailure(v, outcome).None? ==> r.calls == v + PoolCalls(a, outcome))
    ensures r.result.Ok? ==> (Call(ValidateTask, f, None) in r.calls <==> f in r.files) &&
                             (Call(AssetTask, f, Some(DefaultBuild)) in r.calls <==>
                                f in r.files && Suffix(Name(f)) == ".ttl")
    ensures FirstFailure(Batch(ValidateTask, files, None), outcome).Some? ==>
      forall c :: c in r.calls ==> c.task == ValidateTask
  {
    var v := Batch(ValidateTask, files, None);
    var a := Batch(AssetTask, files, Some(DefaultBuild));
    PoolCallsMeaning(v, outcome);
    PoolCallsMeaning(a, outcome);
    if FirstFailure(v, outcome).None? && r.result.Ok? {
      assert FirstFailure(PoolCalls(a, outcome), outcome).None? by {
        assert forall c :: c in PoolCalls(a, outcome) ==> c in r.calls;
      }
      var vc, ac := Call(ValidateTask, f, None), Call(AssetTask, f, Some(DefaultBuild));
      assert vc in v + a <==> vc in v;
      assert ac in v + a <==> ac in a;
    }
  }

  lemma ScriptStagesMeaning(r0: BuildRun, outcome: Call -> Result<()>)
    requires r0.calls == [] && r0.result.Ok? && r0.buildpath == DefaultBuild
    ensures var r := RunStages(r0, ScriptStages(), outcome);
      var v := Batch(ValidateTask, r0.files, None);
      var a := Batch(AssetTask, r0.files, Some(r0.buildpath));
      r.files == r0.files &&
      (r.result.Ok? <==> forall c :: c in r.calls ==> outcome(c).Ok?) &&
      (FirstFailure(v, outcome).Some? ==> r.calls == PoolCalls(v, outcome)) &&
      (FirstFailure(v, outcome).None? ==> r.calls == v + PoolCalls(a, outcome))
  {
    var stages := ScriptStages();
    var v := Batch(ValidateTask, r0.files, None);
    var a := Batch(AssetTask, r0.files, Some(DefaultBuild));
    var r1 := Issue(r0, true, ValidateTask, None, outcome);
    var r2 := Issue(r1, true, AssetTask, Some(DefaultBuild), outcome);
    assert stages[1..][1..] == [];
    assert RunStages(r0, stages, outcome) == r2;
    PoolCallsMeaning(v, outcome);
    PoolCallsMeaning(a, outcome);
    if FirstFailure(v, outcome).None? {
      assert r1.calls == v && r1.result.Ok?;
      assert forall c :: c in v + PoolCalls(a, outcome) <==> c in v || c in PoolCalls(a, outcome);
    }
  }
}
