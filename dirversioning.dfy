/** Naming consistency of version directories (validators/directory_versioning_pattern.py).
    The two regular expressions are modelled on ASCII names. */
module DirectoryVersioning {
  import opened Strings
  import opened Paths
  import opened FileSystem
  import opened ErrorLog

  predicate HasDigit(s: string) { exists i :: 0 <= i < |s| && IsDigit(s[i]) }

  /** `\b` at position k of s: a word character on exactly one side. */
  predicate WordBoundary(s: string, k: int)
    requires 0 <= k <= |s|
  {
    (k > 0 && IsWordChar(s[k - 1])) != (k < |s| && IsWordChar(s[k]))
  }

  /** re.match(DIR_PATTERN, name) read literally: "latest" at the start, or a boundary at the
      start, then a run containing at least one digit, then a boundary. */
  predicate DirPatternMatches(name: string)
  {
    StartsWith(name, "latest") ||
    (WordBoundary(name, 0) &&
     exists k :: 0 < k <= |name| && HasDigit(name[..k]) && WordBoundary(name, k))
  }

  /** is_versioned_directory: the name starts with "latest", or starts with a word character and
      contains a digit somewhere. */
  predicate IsVersionedName(name: string)
  {
    StartsWith(name, "latest") || (name != "" && IsWordChar(name[0]) && HasDigit(name))
  }

  /** The regular expression and the plain reading agree on every name. */
  lemma DirPatternIsVersionedName(name: string)
    ensures DirPatternMatches(name) <==> IsVersionedName(name)
  {
    if IsVersionedName(name) && !StartsWith(name, "latest") {
      var d :| 0 <= d < |name| && IsDigit(name[d]);
      var e := WordRunEnd(name, d);
      assert name[..e][d] == name[d];
      assert HasDigit(name[..e]);
      assert WordBoundary(name, e);
    }
    if DirPatternMatches(name) && !StartsWith(name, "latest") {
      var k :| 0 < k <= |name| && HasDigit(name[..k]) && WordBoundary(name, k);
      var i :| 0 <= i < |name[..k]| && IsDigit(name[..k][i]);
      assert IsDigit(name[i]);
    }
  }

  /** The end of the run of word characters that starts at `d`. */
  function WordRunEnd(s: string, d: nat): (e: nat)
    requires d < |s| && IsWordChar(s[d])
    ensures d < e <= |s|
    ensures IsWordChar(s[e - 1])
    ensures e < |s| ==> !IsWordChar(s[e])
    decreases |s| - d
  {
    if d + 1 < |s| && IsWordChar(s[d + 1]) then WordRunEnd(s, d + 1) else d + 1
  }

  predicate DigitsOnly(s: string) { forall i :: 0 <= i < |s| ==> IsDigit(s[i]) }

  /** `\d+(\.\d+){0,2}` matching the whole text. */
  predicate DottedNumber(t: string)
  {
    var pieces := Split(t, '.');
    |pieces| <= 3 && forall k :: 0 <= k < |pieces| ==> pieces[k] != "" && DigitsOnly(pieces[k])
  }

  /** re.match(VERSION_PATTERN, name): "latest" or an optional "v" and one to three dot-separated
      digit runs, ending the name (or just before a final newline). */
  predicate VersionPatternMatches(name: string)
  {
    var body := BeforeDollar(name);
    body == "latest" || DottedNumber(if StartsWith(body, "v") then body[1..] else body)
  }

  /** re.match(r"v\d", version). */
  predicate StartsVDigit(s: string) { |s| >= 2 && s[0] == 'v' && IsDigit(s[1]) }

  /** version[0].isdigit(). */
  predicate StartsDigit(s: string) { s != "" && IsDigit(s[0]) }

  /** is_leaf_directory: no entry of the directory is itself a directory. */
  method IsLeafDirectory(fs: Fs, d: Path) returns (r: bool)
    requires IsDir(fs, d)
    ensures r == IsLeaf(fs, d)
  {
    var entries := Entries(fs, d);
    for i := 0 to |entries|
      invariant forall k :: 0 <= k < i ==> !IsDir(fs, Child(d, entries[k]))
    {
      if IsDir(fs, Child(d, entries[i])) {
        return false;
      }
    }
    return true;
  }

  /** sibling_directories: the directories next to `d` (d itself included), in iterdir order. */
  method SiblingDirectories(fs: Fs, d: Path) returns (r: seq<Path>)
    ensures forall p :: p in r <==> exists n :: n in SubdirNames(fs, Parent(d)) && p == Child(Parent(d), n)
    ensures |r| == |SubdirNames(fs, Parent(d))|
    ensures forall k :: 0 <= k < |r| ==> r[k] == Child(Parent(d), SubdirNames(fs, Parent(d))[k])
  {
    var parent := Parent(d);
    var entries := Entries(fs, parent);
    r := [];
    for i := 0 to |entries|
      invariant r == ChildrenOf(parent, FilterDirs(fs, parent, entries[..i]))
    {
      FilterDirsStep(fs, parent, entries, i);
      ChildrenOfAppend(parent, FilterDirs(fs, parent, entries[..i]), entries[i]);
      if IsDir(fs, Child(parent, entries[i])) {
        r := r + [Child(parent, entries[i])];
      }
    }
    assert entries[..|entries|] == entries;
  }

  function ChildrenOf(d: Path, names: seq<string>): (r: seq<Path>)
    ensures |r| == |names|
    ensures forall k :: 0 <= k < |r| ==> r[k] == Child(d, names[k])
  {
    seq(|names|, k requires 0 <= k < |names| => Child(d, names[k]))
  }

  lemma ChildrenOfAppend(d: Path, names: seq<string>, n: string)
    ensures ChildrenOf(d, names + [n]) == ChildrenOf(d, names) + [Child(d, n)]
  {
  }

  /** The `.name` of every sibling directory of `d`, in iterdir order. */
  function SiblingNames(fs: Fs, d: Path): (r: seq<string>)
    ensures |r| == |SubdirNames(fs, Parent(d))|
  {
    var names := SubdirNames(fs, Parent(d));
    seq(|names|, k requires 0 <= k < |names| => Name(Child(Parent(d), names[k])))
  }

  /** The names of the sibling version directories: every sibling but "latest". */
  function VersionDirs(siblings: seq<string>): (r: seq<string>)
    ensures forall n :: n in r <==> n in siblings && n != "latest"
    decreases |siblings|
  {
    if siblings == [] then []
    else
      var n := siblings[|siblings| - 1];
      VersionDirs(siblings[..|siblings| - 1]) + (if n != "latest" then [n] else [])
  }

  /** Either every version starts with "v" and a digit, or every version starts with a digit. */
  predicate ConsistentStyle(versions: seq<string>)
  {
    (forall k :: 0 <= k < |versions| ==> StartsVDigit(versions[k])) ||
    (forall k :: 0 <= k < |versions| ==> StartsDigit(versions[k]))
  }

  predicate AllFollowPattern(versions: seq<string>)
  {
    forall k :: 0 <= k < |versions| ==> VersionPatternMatches(versions[k])
  }

  function StyleMessage(parent: Path, versions: seq<string>): string
  {
    "Inconsistent versioning pattern found for " + AsPosix(parent) + ": " + ReprList(versions)
  }

  function PatternMessage(fpath: Path, versions: seq<string>): string
  {
    "Inconsistent versioning pattern found for " + AsPosix(fpath) + ": " + ReprList(versions)
  }

  /** Whether the file's directory is examined at all. */
  predicate Examined(fs: Fs, fpath: Path)
  {
    var parent := Parent(fpath);
    IsDir(fs, parent) && IsLeaf(fs, parent) && IsVersionedName(Name(parent)) && Name(parent) != "latest"
  }

  /** What validate appends for a file: nothing when it passes, one message when it fails. */
  function PatternReport(fs: Fs, fpath: Path): (msgs: seq<string>)
  {
    var parent := Parent(fpath);
    if !Examined(fs, fpath) then []
    else
      var versions := VersionDirs(SiblingNames(fs, parent));
      if |versions| < 2 then []
      else if !ConsistentStyle(versions) then [StyleMessage(parent, versions)]
      else if !AllFollowPattern(versions) then [PatternMessage(fpath, versions)]
      else []
  }

  /** A file fails exactly when its directory is an examined leaf version directory with at least
      one other version next to it and the versions mix styles or break the version pattern. */
  lemma PatternReportMeaning(fs: Fs, fpath: Path)
    ensures var versions := VersionDirs(SiblingNames(fs, Parent(fpath)));
      PatternReport(fs, fpath) != [] <==>
        Examined(fs, fpath) && |versions| >= 2 && !(ConsistentStyle(versions) && AllFollowPattern(versions))
    ensures |PatternReport(fs, fpath)| <= 1
  {
  }

  /** The version_dirs list of validate: sibling directory names other than "latest". */
  method SiblingVersions(fs: Fs, parent: Path) returns (versions: seq<string>)
    ensures versions == VersionDirs(SiblingNames(fs, parent))
  {
    var siblings := SiblingDirectories(fs, parent);
    ghost var names := SiblingNames(fs, parent);
    versions := [];
    for i := 0 to |siblings|
      invariant versions == VersionDirs(names[..i])
    {
      var n := Name(siblings[i]);
      assert n == names[i];
      VersionDirsStep(names, i);
      if n != "latest" {
        versions := versions + [n];
      }
    }
    assert names[..|siblings|] == names;
  }

  /** directory_versioning_pattern.validate. */
  method Validate(fs: Fs, fpath: Path, log: Errors) returns (ok: bool)
    modifies log
    ensures ok <==> PatternReport(fs, fpath) == []
    ensures log.entries == old(log.entries) + PatternReport(fs, fpath)
  {
    var parent := Parent(fpath);
    if !IsDir(fs, parent) {
      return true;
    }
    var leaf := IsLeafDirectory(fs, parent);
    if !leaf || !IsVersionedName(Name(parent)) || Name(parent) == "latest" {
      return true;
    }
    var versions := SiblingVersions(fs, parent);
    if |versions| < 2 {
      return true;
    }
    if !ConsistentStyle(versions) {
      log.Append(StyleMessage(parent, versions));
      return false;
    }
    if !AllFollowPattern(versions) {
      log.Append(PatternMessage(fpath, versions));
      return false;
    }
    return true;
  }

  lemma VersionDirsStep(names: seq<string>, i: nat)
    requires i < |names|
    ensures VersionDirs(names[..i + 1]) == VersionDirs(names[..i]) + (if names[i] != "latest" then [names[i]] else [])
  {
    assert names[..i + 1][..i] == names[..i];
  }

  /** "v1.2.3" and "latest" follow the version pattern. */
  lemma VersionPatternAccepts()
    ensures VersionPatternMatches("v1.2.3")
    ensures VersionPatternMatches("latest")
  {
    assert !EndsWith("v1.2.3", "\n") && !EndsWith("latest", "\n");
    assert StartsWith("v1.2.3", "v") && "v1.2.3"[1..] == "1.2.3";
    DottedThree();
  }

  lemma DottedThree()
    ensures DottedNumber("1.2.3")
  {
    SplitJoin(["1", "2", "3"], '.');
    assert Join(["1", "2", "3"], ".") == "1.2.3";
    assert DigitsOnly("1") && DigitsOnly("2") && DigitsOnly("3");
  }

  /** Four numbers are one too many. */
  lemma VersionPatternRejectsFourParts()
    ensures !VersionPatternMatches("1.2.3.4")
  {
    SplitJoin(["1", "2", "3", "4"], '.');
    assert Join(["1", "2", "3", "4"], ".") == "1.2.3.4";
  }

  /** A part that is not a number breaks the pattern. */
  lemma VersionPatternRejectsWord()
    ensures !VersionPatternMatches("v1.x")
  {
    assert "v1.x"[1..] == "1.x";
    SplitJoin(["1", "x"], '.');
    assert Join(["1", "x"], ".") == "1.x";
    assert !IsDigit("x"[0]);
    assert !DigitsOnly("x");
  }
}
