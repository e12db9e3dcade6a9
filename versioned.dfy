/** The "latest mirrors the newest version" rule: validators/versioned_directory.py and
    validate_directory of precommit_validators.py. */
module Versioned {
  import opened Wrappers
  import opened Strings
  import opened Paths
  import opened FileSystem
  import opened LooseVersion
  import opened Utf8
  import opened ErrorLog

  const Latest := "latest"

  predicate IsCandidate(fs: Fs, gp: Path, n: string)
  {
    n != Latest && IsDir(fs, Child(gp, n)) && !StartsWith(n, "v.")
  }

  /** The sibling version directories, in enumeration order: directories of the grandparent other
      than "latest" whose name does not start with "v.". */
  function Candidates(fs: Fs, gp: Path): (r: seq<string>)
    ensures forall n :: n in r <==> n in Entries(fs, gp) && IsCandidate(fs, gp, n)
  {
    CandidatesAmong(fs, gp, Entries(fs, gp))
  }

  function CandidatesAmong(fs: Fs, gp: Path, names: seq<string>): (r: seq<string>)
    ensures forall n :: n in r <==> n in names && IsCandidate(fs, gp, n)
  {
    if names == [] then []
    else (if IsCandidate(fs, gp, names[0]) then [names[0]] else []) + CandidatesAmong(fs, gp, names[1..])
  }

  /** The file the latest copy is compared with: same name, in the chosen version directory. */
  function Counterpart(fpath: Path, version: string): Path
  {
    Child(Child(Parent(Parent(fpath)), version), Name(fpath))
  }

  const DecodeErrorText := "'utf-8' codec can't decode bytes"

  function OpenErrorText(r: TextRead, p: Path): string
  {
    if r.IsADirectory? then "[Errno 21] Is a directory: " + Quote(AsPosix(p))
    else "[Errno 2] No such file or directory: " + Quote(AsPosix(p))
  }

  /** Outcome of the comparison step: both files open before either is read. */
  datatype Comparison = Identical | Different | Unreadable(message: string) | Undecodable

  function Compare2(fs: Fs, cpath: Path, fpath: Path): (r: Comparison)
    ensures r == Identical <==>
      IsFile(fs, cpath) && IsFile(fs, fpath) && WellFormed(fs[cpath].content) && WellFormed(fs[fpath].content) &&
      Translate(Decode(fs[cpath].content).value) == Translate(Decode(fs[fpath].content).value)
  {
    var a := ReadLines(fs, cpath);
    var b := ReadLines(fs, fpath);
    if a.NotFound? || a.IsADirectory? then Unreadable(OpenErrorText(a, cpath))
    else if b.NotFound? || b.IsADirectory? then Unreadable(OpenErrorText(b, fpath))
    else if a.UndecodableText? || b.UndecodableText? then Undecodable
    else
      LinesInjective(Translate(Decode(fs[cpath].content).value), Translate(Decode(fs[fpath].content).value));
      if a.lines == b.lines then Identical else Different
  }

  function ScanMessage(names: seq<string>, gp: Path): string
  {
    "Exception scanning versioned directories " + ReprList(names) + " in path " + AsPosix(gp)
  }

  function DiffMessage(cpath: Path, fpath: Path): string
  {
    "files are different: " + AsPosix(cpath) + " " + AsPosix(fpath)
  }

  function ReadMessage(cpath: Path, fpath: Path): string
  {
    "Error reading files " + AsPosix(cpath) + " or " + AsPosix(fpath) + ": " + DecodeErrorText
  }

  /** What validate returns (None when the file is not under "latest") and what it appends. */
  datatype Report = Report(result: Option<bool>, messages: seq<string>)

  function VersionedReport(fs: Fs, fpath: Path): Report
  {
    if Name(Parent(fpath)) != Latest then Report(None, [])
    else
      var gp := Parent(Parent(fpath));
      var names := Candidates(fs, gp);
      if names == [] then Report(Some(true), []) else NewestReport(fs, fpath, gp, names)
  }

  /** The verdict once there are version directories to compare with. */
  function NewestReport(fs: Fs, fpath: Path, gp: Path, names: seq<string>): Report
  {
    match HighestVersion(names)
    case Raise(_) =>
      Report(Some(false), [ScanMessage(names, gp)])
    case Ok(m) =>
      var cpath := Counterpart(fpath, names[m]);
      match Compare2(fs, cpath, fpath)
      case Identical => Report(Some(true), [])
      case Different => Report(Some(false), [DiffMessage(cpath, fpath)])
      case Undecodable => Report(Some(false), [ReadMessage(cpath, fpath)])
      case Unreadable(e) => Report(Some(false), [e])
  }

  /** The newest version directory exists and holds an identical copy of the file. */
  predicate NewestIdentical(fs: Fs, fpath: Path, names: seq<string>)
  {
    && HighestVersion(names).Ok?
    && HighestVersion(names).value < |names|
    && Compare2(fs, Counterpart(fpath, names[HighestVersion(names).value]), fpath) == Identical
  }

  lemma NewestReportMeaning(fs: Fs, fpath: Path, gp: Path, names: seq<string>)
    ensures var r := NewestReport(fs, fpath, gp, names);
      && r.result.Some?
      && (r.result == Some(true) <==> NewestIdentical(fs, fpath, names))
      && |r.messages| == (if r.result == Some(false) then 1 else 0)
  {
    var h := HighestVersion(names);
    if h.Ok? {
      assert h.value < |names|;
      var cmp := Compare2(fs, Counterpart(fpath, names[h.value]), fpath);
      assert NewestReport(fs, fpath, gp, names).result == Some(cmp == Identical);
    }
  }

  /** The file passes when it is outside "latest"'s reach, when there is no version to compare
      with, or when the newest version holds an identical copy; every failure appends one
      message. */
  lemma VersionedReportMeaning(fs: Fs, fpath: Path)
    ensures var r := VersionedReport(fs, fpath);
      && (r.result == None <==> Name(Parent(fpath)) != Latest)
      && (r.result == Some(true) <==>
          Name(Parent(fpath)) == Latest &&
          var names := Candidates(fs, Parent(Parent(fpath)));
          names == [] || NewestIdentical(fs, fpath, names))
      && |r.messages| == (if r.result == Some(false) then 1 else 0)
  {
    var gp := Parent(Parent(fpath));
    NewestReportMeaning(fs, fpath, gp, Candidates(fs, gp));
  }

  /** validators/versioned_directory.py validate. */
  method Validate(fs: Fs, fpath: Path, log: Errors) returns (r: Option<bool>)
    modifies log
    ensures r == VersionedReport(fs, fpath).result
    ensures log.entries == old(log.entries) + VersionedReport(fs, fpath).messages
  {
    if Name(Parent(fpath)) != Latest {
      return None;
    }
    var gp := Parent(Parent(fpath));
    var names := Candidates(fs, gp);
    if names == [] {
      return Some(true);
    }
    var highest := HighestVersion(names);
    if highest.Raise? {
      log.Append(ScanMessage(names, gp));
      return Some(false);
    }
    var cpath := Counterpart(fpath, names[highest.value]);
    var cmp := Compare2(fs, cpath, fpath);
    assert HighestVersion(names) == Ok(highest.value);
    match cmp {
      case Identical =>
        r := Some(true);
      case Different =>
        log.Append(DiffMessage(cpath, fpath));
        r := Some(false);
      case Undecodable =>
        log.Append(ReadMessage(cpath, fpath));
        r := Some(false);
      case Unreadable(e) =>
        log.Append(e);
        r := Some(false);
    }
  }

  /** validate_directory of precommit_validators.py: no guard against an empty candidate list,
      and every failure but a difference raises. */
  datatype PrecommitReport = PrecommitReport(outcome: Result<()>, messages: seq<string>)

  function PrecommitDirectoryReport(fs: Fs, fpath: Path): (r: PrecommitReport)
    ensures Name(Parent(fpath)) != Latest ==> r == PrecommitReport(Ok(()), [])
    ensures Name(Parent(fpath)) == Latest && Candidates(fs, Parent(Parent(fpath))) == [] ==>
      r.outcome == Raise(IndexErrorText)
    ensures r.outcome.Raise? ==> r.messages == []
    ensures r.outcome.Ok? && Name(Parent(fpath)) == Latest ==>
      var names := Candidates(fs, Parent(Parent(fpath)));
      HighestVersion(names).Ok? &&
      var cmp := Compare2(fs, Counterpart(fpath, names[HighestVersion(names).value]), fpath);
      (cmp == Identical && r.messages == []) || (cmp == Different && |r.messages| == 1)
  {
    if Name(Parent(fpath)) != Latest then PrecommitReport(Ok(()), [])
    else
      var gp := Parent(Parent(fpath));
      var names := Candidates(fs, gp);
      match HighestVersion(names)
      case Raise(e) => PrecommitReport(Raise(e), [])
      case Ok(m) =>
        var cpath := Counterpart(fpath, names[m]);
        match Compare2(fs, cpath, fpath)
        case Identical => PrecommitReport(Ok(()), [])
        case Different => PrecommitReport(Ok(()), ["ERROR: files are different: " + AsPosix(cpath) + " " + AsPosix(fpath)])
        case Undecodable => PrecommitReport(Raise("UnicodeDecodeError: " + DecodeErrorText), [])
        case Unreadable(e) => PrecommitReport(Raise(e), [])
  }

  method PrecommitValidateDirectory(fs: Fs, fpath: Path, log: Errors) returns (r: Result<()>)
    modifies log
    ensures r == PrecommitDirectoryReport(fs, fpath).outcome
    ensures log.entries == old(log.entries) + PrecommitDirectoryReport(fs, fpath).messages
  {
    var rep := PrecommitDirectoryReport(fs, fpath);
    if rep.messages != [] {
      log.Append(rep.messages[0]);
      assert rep.messages == [rep.messages[0]];
    }
    r := rep.outcome;
  }

  /** Only an identical copy passes: when the newest version can be chosen and both files read,
      the latest file passes exactly when its lines equal the counterpart's. */
  lemma PassIffSameLines(fs: Fs, fpath: Path)
    requires Name(Parent(fpath)) == Latest
    requires Candidates(fs, Parent(Parent(fpath))) != []
    requires HighestVersion(Candidates(fs, Parent(Parent(fpath)))).Ok?
    ensures var names := Candidates(fs, Parent(Parent(fpath)));
      var cpath := Counterpart(fpath, names[HighestVersion(names).value]);
      ReadLines(fs, cpath).TextLines? && ReadLines(fs, fpath).TextLines? ==>
        (VersionedReport(fs, fpath).result == Some(true) <==> ReadLines(fs, cpath) == ReadLines(fs, fpath))
  {
    var names := Candidates(fs, Parent(Parent(fpath)));
    var cpath := Counterpart(fpath, names[HighestVersion(names).value]);
    var a := ReadLines(fs, cpath);
    var b := ReadLines(fs, fpath);
    if a.TextLines? && b.TextLines? {
      LinesInjective(Translate(Decode(fs[cpath].content).value), Translate(Decode(fs[fpath].content).value));
    }
  }
}
