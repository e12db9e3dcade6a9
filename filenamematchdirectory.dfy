/** A file's name, less its extension, must be one of the components of its directory
    (validators/filename_match_directory.py). */
module FilenameMatchDirectory {
  import opened Strings
  import opened Paths
  import opened FileSystem
  import opened ErrorLog

  const ExcludedFilenames: seq<string> :=
    ["index.ttl", "datapackage.json", "context-short.ld.yaml", "rules.shacl", "latest", "schema.oas3.yaml"]

  const ExcludedExtensions: seq<string> :=
    [".md", ".shacl", ".frame.yamlld", ".ld.yaml", ".schema.yaml", ".example.yaml", ".example.ttl",
     ".png", ".html", ".xml", ".xsd"]

  /** `fpath.suffixes[-2:]`. */
  function LastTwoSuffixes(name: string): (r: seq<string>)
    ensures |r| <= 2
    ensures forall k :: 0 <= k < |r| ==> r[k] in Suffixes(name)
  {
    var all := Suffixes(name);
    if |all| <= 2 then all else all[|all| - 2..]
  }

  function JoinSuffixes(xs: seq<string>): string
  {
    if xs == [] then "" else xs[0] + JoinSuffixes(xs[1..])
  }

  /** `"".join(suffixes).lower()`. */
  function Extension(name: string): string
  {
    Lower(JoinSuffixes(LastTwoSuffixes(name)))
  }

  /** The extension, read as a regular expression with IGNORECASE, matches at `i`: a `.` matches
      any character and every other character matches itself in either case. */
  predicate MatchesAt(name: string, ext: string, i: nat)
  {
    i + |ext| <= |name| &&
    forall k :: 0 <= k < |ext| ==> ext[k] == '.' || LowerChar(name[i + k]) == LowerChar(ext[k])
  }

  /** re.sub(ext, "", name, flags=re.IGNORECASE) for a non-empty pattern: every leftmost
      non-overlapping match removed. */
  function RemoveMatches(name: string, ext: string): (r: string)
    requires ext != ""
    ensures |r| <= |name|
    decreases |name|
  {
    if |name| < |ext| then name
    else if MatchesAt(name, ext, 0) then RemoveMatches(name[|ext|..], ext)
    else [name[0]] + RemoveMatches(name[1..], ext)
  }

  /** The empty pattern matches the empty string everywhere, which removes nothing. */
  function Strip(name: string, ext: string): string
  {
    if ext == "" then name else RemoveMatches(name, ext)
  }

  /** Without any match the name is left as it is. */
  lemma {:induction false} NoMatchKeepsName(name: string, ext: string)
    requires ext != ""
    requires forall i :: 0 <= i <= |name| ==> !MatchesAt(name, ext, i)
    ensures RemoveMatches(name, ext) == name
    decreases |name|
  {
    if |name| >= |ext| {
      assert !MatchesAt(name, ext, 0);
      forall i | 0 <= i <= |name[1..]|
        ensures !MatchesAt(name[1..], ext, i)
      {
        assert !MatchesAt(name, ext, i + 1);
        if MatchesAt(name[1..], ext, i) {
          forall k | 0 <= k < |ext|
            ensures ext[k] == '.' || LowerChar(name[i + 1 + k]) == LowerChar(ext[k])
          {
            assert name[1..][i + k] == name[i + 1 + k];
          }
        }
      }
      NoMatchKeepsName(name[1..], ext);
      assert [name[0]] + name[1..] == name;
    }
  }

  /** `.` is a wildcard: the pattern ".ttl" also removes "xttl", so "axttl.ttl" becomes "a". */
  lemma DotIsAWildcard()
    ensures RemoveMatches("axttl.ttl", ".ttl") == "a"
  {
    var s := "axttl.ttl";
    assert !MatchesAt(s, ".ttl", 0) by {
      assert !(".ttl"[1] == '.' || LowerChar(s[0 + 1]) == LowerChar(".ttl"[1]));
    }
    assert s[1..] == "xttl.ttl";
    assert MatchesAt("xttl.ttl", ".ttl", 0);
    assert "xttl.ttl"[4..] == ".ttl";
    assert MatchesAt(".ttl", ".ttl", 0);
    assert ".ttl"[4..] == "";
    assert RemoveMatches(".ttl", ".ttl") == "";
    assert RemoveMatches("xttl.ttl", ".ttl") == "";
  }

  predicate Excluded(name: string)
  {
    var suffixes := LastTwoSuffixes(name);
    Lower(name) in ExcludedFilenames || Extension(name) in ExcludedExtensions ||
    (suffixes != [] && suffixes[|suffixes| - 1] in ExcludedExtensions)
  }

  function MismatchMessage(fpath: Path): string
  {
    "Filename " + Quote(Name(fpath)) + " in path " + Quote(AsPosix(fpath)) +
    " does not match its containing directory name"
  }

  /** What validate appends: one message for a checked file whose stripped name is not a
      component of its directory. */
  function MatchReport(fs: Fs, fpath: Path): seq<string>
  {
    var name := Name(fpath);
    if IsDir(fs, fpath) || Excluded(name) then []
    else if Strip(name, Extension(name)) in PyParts(Parent(fpath)) then []
    else [MismatchMessage(fpath)]
  }

  /** A checked file fails exactly when no directory component equals its stripped name; at most
      one message is appended. */
  lemma MatchReportMeaning(fs: Fs, fpath: Path)
    ensures |MatchReport(fs, fpath)| <= 1
    ensures MatchReport(fs, fpath) != [] <==>
      !IsDir(fs, fpath) && !Excluded(Name(fpath)) &&
      Strip(Name(fpath), Extension(Name(fpath))) !in PyParts(Parent(fpath))
  {
  }

  /** filename_match_directory.validate. */
  method Validate(fs: Fs, fpath: Path, log: Errors) returns (ok: bool)
    modifies log
    ensures ok <==> MatchReport(fs, fpath) == []
    ensures log.entries == old(log.entries) + MatchReport(fs, fpath)
  {
    if IsDir(fs, fpath) {
      return true;
    }
    var name := Name(fpath);
    var extension := Extension(name);
    var filename := Strip(name, extension);
    if Excluded(name) {
      return true;
    }
    if filename !in PyParts(Parent(fpath)) {
      log.Append(MismatchMessage(fpath));
      return false;
    }
    return true;
  }
}
