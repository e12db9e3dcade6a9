/** Files every leaf asset directory must hold (validators/mandatory_files_presence.py). */
module MandatoryFiles {
  import opened Wrappers
  import opened Strings
  import opened Paths
  import opened FileSystem
  import opened ErrorLog
  import DirectoryVersioning

  /** `any(pred(file) for file in directory.iterdir() if file.is_file())`. */
  predicate AnyFile(fs: Fs, d: Path, pred: string -> bool)
  {
    exists k :: 0 <= k < |Entries(fs, d)| && IsFile(fs, Child(d, Entries(fs, d)[k])) && pred(Entries(fs, d)[k])
  }

  predicate IsTurtleName(n: string) { Suffix(n) == ".ttl" }
  predicate IsOas3Name(n: string) { EndsWith(n, ".oas3.yaml") }
  predicate IsIndexName(n: string) { n == "index.ttl" }

  function NoTurtleMessage(d: Path): string
  {
    "Leaf directory " + Quote(AsPosix(d)) + " does not contain any turtle (.ttl) file"
  }

  function NoOas3Message(d: Path): string
  {
    "The 'schemas' directory " + Quote(AsPosix(d)) + " does not contain a .oas3.yaml file"
  }

  function NoIndexMessage(d: Path): string
  {
    "The 'schemas' directory " + Quote(AsPosix(d)) + " does not contain any 'index.ttl' file"
  }

  /** The error `iterdir()` raises for a directory that is missing or is not a directory. */
  function IterdirError(fs: Fs, d: Path): string
  {
    if d in fs then "[Errno 20] Not a directory: " + Quote(AsPosix(d))
    else "[Errno 2] No such file or directory: " + Quote(AsPosix(d))
  }

  /** The checks in order, the first failure ending the check: the message, if any. */
  function MandatoryReport(fs: Fs, fpath: Path): seq<string>
  {
    var d := Parent(fpath);
    if !IsLeaf(fs, d) then []
    else if !AnyFile(fs, d, IsTurtleName) then [NoTurtleMessage(d)]
    else if "schemas" in PyParts(d) && !AnyFile(fs, d, IsOas3Name) then [NoOas3Message(d)]
    else if "schemas" in PyParts(d) && !AnyFile(fs, d, IsIndexName) then [NoIndexMessage(d)]
    else []
  }

  /** A leaf directory passes exactly when it holds a Turtle file and, under a "schemas"
      component, also an OpenAPI file and an index.ttl; at most one message is appended. */
  lemma MandatoryReportMeaning(fs: Fs, fpath: Path)
    ensures |MandatoryReport(fs, fpath)| <= 1
    ensures var d := Parent(fpath);
      MandatoryReport(fs, fpath) == [] <==>
        !IsLeaf(fs, d) ||
        (AnyFile(fs, d, IsTurtleName) &&
         ("schemas" in PyParts(d) ==> AnyFile(fs, d, IsOas3Name) && AnyFile(fs, d, IsIndexName)))
  {
  }

  /** mandatory_files_presence.validate. */
  method Validate(fs: Fs, fpath: Path, log: Errors) returns (r: Result<bool>)
    modifies log
    ensures !IsDir(fs, Parent(fpath)) ==>
      r == Raise(IterdirError(fs, Parent(fpath))) && log.entries == old(log.entries)
    ensures IsDir(fs, Parent(fpath)) ==>
      r == Ok(MandatoryReport(fs, fpath) == []) && log.entries == old(log.entries) + MandatoryReport(fs, fpath)
  {
    var d := Parent(fpath);
    if !IsDir(fs, d) {
      return Raise(IterdirError(fs, d));
    }
    var leaf := DirectoryVersioning.IsLeafDirectory(fs, d);
    if !leaf {
      return Ok(true);
    }
    if !AnyFile(fs, d, IsTurtleName) {
      log.Append(NoTurtleMessage(d));
      return Ok(false);
    }
    if "schemas" in PyParts(d) {
      if !AnyFile(fs, d, IsOas3Name) {
        log.Append(NoOas3Message(d));
        return Ok(false);
      }
      if !AnyFile(fs, d, IsIndexName) {
        log.Append(NoIndexMessage(d));
        return Ok(false);
      }
    }
    return Ok(true);
  }

  /** A leaf directory holding only an index.ttl satisfies the rule outside a schemas tree:
      index.ttl is itself a Turtle file. */
  lemma IndexAloneSuffices(fs: Fs, fpath: Path)
    requires var d := Parent(fpath); IsDir(fs, d) && fs[d].entries == ["index.ttl"]
    requires IsFile(fs, Child(Parent(fpath), "index.ttl"))
    requires "schemas" !in PyParts(Parent(fpath))
    ensures MandatoryReport(fs, fpath) == []
  {
    var d := Parent(fpath);
    assert Suffix("index.ttl") == ".ttl" by {
      var n := "index.ttl";
      assert n[5] == '.' && n[6] != '.' && n[7] != '.' && n[8] != '.';
      assert LastIndexOf(n, '.') == 5;
      assert n[5..] == ".ttl";
    }
    assert IsTurtleName(Entries(fs, d)[0]);
  }
}
