/** The top-level directories of the repository (validators/repo_structure.py). */
module RepoStructure {
  import opened Wrappers
  import opened Strings
  import opened Paths
  import opened FileSystem
  import opened ErrorLog

  const RequiredSubdirs: set<string> := {"assets/controlled-vocabularies", "assets/ontologies", "assets/schemas"}

  /** The text of `fpath.parts[0]` raising IndexError on an empty path. */
  const PartsIndexError := "tuple index out of range"

  /** `Path(fpath.parts[0])`. */
  function RootOf(fpath: Path): Path
    requires PyParts(fpath) != []
  {
    if fpath.absolute then Path(true, []) else Path(false, [fpath.parts[0]])
  }

  /** `"/".join(subdir.parts)`: "/" itself contributes a separator of its own. */
  function Joined(p: Path): string
  {
    Join(PyParts(p), "/")
  }

  /** The observed subdirectories, in iterdir order. */
  function Observed(fs: Fs, root: Path): (r: seq<string>)
    ensures |r| == |SubdirNames(fs, root)|
  {
    var names := SubdirNames(fs, root);
    seq(|names|, k requires 0 <= k < |names| => Joined(Child(root, names[k])))
  }

  function Nonconforming(fs: Fs, root: Path): set<string>
  {
    (set x | x in Observed(fs, root)) - RequiredSubdirs
  }

  /** The message; `render` is Python's repr of a set, whose order is the set's hash order. */
  function StructureMessage(root: Path, extra: set<string>, render: set<string> -> string): string
  {
    "One or more directories do not conform to the expected structure in " + Quote(AsPosix(root)) +
    " dir: " + render(extra)
  }

  /** What validate does: the IndexError of an empty path, or the messages it appends. */
  function StructureReport(fs: Fs, fpath: Path, render: set<string> -> string): Result<seq<string>>
  {
    if PyParts(fpath) == [] then Raise(PartsIndexError)
    else
      var root := RootOf(fpath);
      if !IsDir(fs, root) then Ok([])
      else if Nonconforming(fs, root) == {} then Ok([])
      else Ok([StructureMessage(root, Nonconforming(fs, root), render)])
  }

  /** A file passes exactly when every directory under its root is one of the required ones;
      a required directory that is absent is not reported. */
  lemma StructureReportMeaning(fs: Fs, fpath: Path, render: set<string> -> string)
    requires PyParts(fpath) != [] && IsDir(fs, RootOf(fpath))
    ensures StructureReport(fs, fpath, render).Ok?
    ensures StructureReport(fs, fpath, render).value == [] <==>
      forall k :: 0 <= k < |Observed(fs, RootOf(fpath))| ==> Observed(fs, RootOf(fpath))[k] in RequiredSubdirs
    ensures |StructureReport(fs, fpath, render).value| <= 1
  {
    var obs := Observed(fs, RootOf(fpath));
    if Nonconforming(fs, RootOf(fpath)) == {} {
      forall k | 0 <= k < |obs| ensures obs[k] in RequiredSubdirs {
        assert obs[k] in obs;
      }
    } else {
      var x :| x in Nonconforming(fs, RootOf(fpath));
    }
  }

  /** repo_structure.validate: the loop collects the observed directories, then the subset test. */
  method Validate(fs: Fs, fpath: Path, render: set<string> -> string, log: Errors) returns (r: Result<bool>)
    modifies log
    ensures StructureReport(fs, fpath, render).Raise? ==>
      r == Raise(PartsIndexError) && log.entries == old(log.entries)
    ensures StructureReport(fs, fpath, render).Ok? ==>
      r == Ok(StructureReport(fs, fpath, render).value == []) &&
      log.entries == old(log.entries) + StructureReport(fs, fpath, render).value
  {
    if PyParts(fpath) == [] {
      return Raise(PartsIndexError);
    }
    var root := RootOf(fpath);
    if !IsDir(fs, root) {
      return Ok(true);
    }
    var subdirs := CollectSubdirs(fs, root);
    var observed := set x | x in subdirs;
    ReportOfRoot(fs, fpath, render, observed);
    if observed <= RequiredSubdirs {
      return Ok(true);
    }
    log.Append(StructureMessage(root, observed - RequiredSubdirs, render));
    return Ok(false);
  }

  /** The report of a path whose root is a directory, from the directories observed under it. */
  lemma ReportOfRoot(fs: Fs, fpath: Path, render: set<string> -> string, observed: set<string>)
    requires PyParts(fpath) != [] && IsDir(fs, RootOf(fpath))
    requires observed == set x | x in Observed(fs, RootOf(fpath))
    ensures observed <= RequiredSubdirs ==> StructureReport(fs, fpath, render) == Ok([])
    ensures !(observed <= RequiredSubdirs) ==>
      StructureReport(fs, fpath, render) == Ok([StructureMessage(RootOf(fpath), observed - RequiredSubdirs, render)])
  {
    SubsetIffNoneLeft(observed, RequiredSubdirs);
  }

  lemma SubsetIffNoneLeft(a: set<string>, b: set<string>)
    ensures a <= b <==> a - b == {}
  {
    if a - b == {} {
      forall x | x in a ensures x in b {
        assert x !in a - b;
      }
    }
  }

  /** The loop over root_dir.iterdir(). */
  method CollectSubdirs(fs: Fs, root: Path) returns (subdirs: seq<string>)
    ensures subdirs == Observed(fs, root)
  {
    var entries := Entries(fs, root);
    subdirs := [];
    for i := 0 to |entries|
      invariant subdirs == JoinedAll(root, FilterDirs(fs, root, entries[..i]))
    {
      FilterDirsStep(fs, root, entries, i);
      JoinedAllAppend(root, FilterDirs(fs, root, entries[..i]), entries[i]);
      if IsDir(fs, Child(root, entries[i])) {
        subdirs := subdirs + [Joined(Child(root, entries[i]))];
      }
    }
    assert entries[..|entries|] == entries;
  }

  function JoinedAll(root: Path, names: seq<string>): (r: seq<string>)
    ensures |r| == |names|
  {
    seq(|names|, k requires 0 <= k < |names| => Joined(Child(root, names[k])))
  }

  lemma JoinedAllAppend(root: Path, names: seq<string>, n: string)
    ensures JoinedAll(root, names + [n]) == JoinedAll(root, names) + [Joined(Child(root, n))]
  {
  }
}
