/** The file and directory naming rule (validators/filename_format.py). */
module FilenameFormat {
  import opened Strings
  import opened Paths
  import opened ErrorLog

  /** The suffixes whose files are checked. */
  const CheckedSuffixes: seq<string> := [".ttl", ".rdf", ".csv", ".yaml"]

  /** A character of the class `[\\.a-z0-9_-]`: backslash, dot, lower-case letter, digit, `_`, `-`. */
  predicate NameChar(c: char)
  {
    c == '\\' || c == '.' || IsLowerAlpha(c) || IsDigit(c) || c == '_' || c == '-'
  }

  /** re.match of `^[\\.a-z0-9_-]{2,64}$`. */
  predicate NameOk(s: string)
  {
    var body := BeforeDollar(s);
    2 <= |body| <= 64 && forall i :: 0 <= i < |body| ==> NameChar(body[i])
  }

  predicate Checked(fpath: Path) { Suffix(Name(fpath)) in CheckedSuffixes }

  /** `[fpath.parent] + list(fpath.parents)[:2]`. */
  function CheckedDirs(fpath: Path): (r: seq<Path>)
    ensures 1 <= |r| <= 3 && r[0] == Parent(fpath)
  {
    var ps := Parents(fpath);
    [Parent(fpath)] + (if |ps| <= 2 then ps else ps[..2])
  }

  function DirMessage(d: Path): string
  {
    "The name of the directory " + Quote(Name(d)) + " in path " + Quote(AsPosix(d)) +
    " does not match the required pattern"
  }

  function FileMessage(fpath: Path): string
  {
    "The name of the file " + Quote(Name(fpath)) + " in path " + Quote(AsPosix(Parent(fpath))) +
    " does not match the required pattern"
  }

  /** The message for one directory: none when its name is fine. */
  function Flag(d: Path, msg: Path -> string): seq<string>
  {
    if NameOk(Name(d)) then [] else [msg(d)]
  }

  function Flagged(dirs: seq<Path>, msg: Path -> string): seq<string>
  {
    if dirs == [] then [] else Flag(dirs[0], msg) + Flagged(dirs[1..], msg)
  }

  function DirMessages(dirs: seq<Path>): seq<string>
  {
    Flagged(dirs, DirMessage)
  }

  /** Every failing directory is reported, and every message reports a failing directory. */
  lemma DirMessagesMeaning(dirs: seq<Path>)
    ensures |DirMessages(dirs)| <= |dirs|
    ensures forall d :: d in dirs && !NameOk(Name(d)) ==> DirMessage(d) in DirMessages(dirs)
    ensures forall m :: m in DirMessages(dirs) ==> exists d :: d in dirs && !NameOk(Name(d)) && m == DirMessage(d)
  {
    DirMessagesComplete(dirs);
    DirMessagesSound(dirs);
  }

  lemma {:induction false} DirMessagesComplete(dirs: seq<Path>)
    ensures |DirMessages(dirs)| <= |dirs|
    ensures forall d :: d in dirs && !NameOk(Name(d)) ==> DirMessage(d) in DirMessages(dirs)
    decreases |dirs|
  {
    if dirs != [] {
      var head, rest := Flag(dirs[0], DirMessage), DirMessages(dirs[1..]);
      assert DirMessages(dirs) == head + rest;
      DirMessagesComplete(dirs[1..]);
      assert forall d :: d in dirs ==> d == dirs[0] || d in dirs[1..];
    }
  }

  lemma {:induction false} DirMessagesSound(dirs: seq<Path>)
    ensures forall m :: m in DirMessages(dirs) ==> exists d :: d in dirs && !NameOk(Name(d)) && m == DirMessage(d)
    decreases |dirs|
  {
    if dirs != [] {
      var head, rest := Flag(dirs[0], DirMessage), DirMessages(dirs[1..]);
      assert DirMessages(dirs) == head + rest;
      DirMessagesSound(dirs[1..]);
      forall m | m in head + rest
        ensures exists d :: d in dirs && !NameOk(Name(d)) && m == DirMessage(d)
      {
        if m in head {
          assert dirs[0] in dirs;
        } else {
          var d :| d in dirs[1..] && !NameOk(Name(d)) && m == DirMessage(d);
          assert d in dirs;
        }
      }
    }
  }

  /** The messages validate appends for a file. */
  function FormatMessages(fpath: Path): seq<string>
  {
    if !Checked(fpath) then []
    else DirMessages(CheckedDirs(fpath)) + (if NameOk(Stem(Name(fpath))) then [] else [FileMessage(fpath)])
  }

  /** filename_format.validate, as written: the result is False whenever the shared list holds any
      message, including messages appended before the call. */
  method Validate(fpath: Path, log: Errors) returns (ok: bool)
    modifies log
    ensures log.entries == old(log.entries) + FormatMessages(fpath)
    ensures ok <==> !Checked(fpath) || log.entries == []
  {
    if !Checked(fpath) {
      return true;
    }
    var dirs := CheckedDirs(fpath);
    var appended := CheckDirs(dirs, DirMessage, log);
    var m := CheckFile(fpath, log);
    Regroup(old(log.entries), appended, m);
    ok := log.entries == [];
  }

  /** The loop over the directories: each badly named one gets its message, in order. */
  method CheckDirs(dirs: seq<Path>, msg: Path -> string, log: Errors) returns (appended: seq<string>)
    modifies log
    ensures appended == Flagged(dirs, msg)
    ensures log.entries == old(log.entries) + appended
  {
    appended := [];
    for i := 0 to |dirs|
      invariant appended == Flagged(dirs[..i], msg)
      invariant log.entries == old(log.entries) + appended
    {
      FlaggedStep(dirs, i, msg);
      var flag := Flag(dirs[i], msg);
      if flag != [] {
        log.Append(msg(dirs[i]));
      }
      Regroup(old(log.entries), appended, flag);
      appended := appended + flag;
    }
    assert dirs[..|dirs|] == dirs;
  }

  method CheckFile(fpath: Path, log: Errors) returns (m: seq<string>)
    modifies log
    ensures m == if NameOk(Stem(Name(fpath))) then [] else [FileMessage(fpath)]
    ensures log.entries == old(log.entries) + m
  {
    m := [];
    if !NameOk(Stem(Name(fpath))) {
      m := [FileMessage(fpath)];
      log.Append(FileMessage(fpath));
    }
  }

  lemma {:induction false} FlaggedAppend(dirs: seq<Path>, d: Path, msg: Path -> string)
    ensures Flagged(dirs + [d], msg) == Flagged(dirs, msg) + Flag(d, msg)
    decreases |dirs|
  {
    if dirs == [] {
      assert dirs + [d] == [d];
      assert [d][1..] == [];
    } else {
      HeadTail(dirs, [d]);
      FlaggedAppend(dirs[1..], d, msg);
      Regroup(Flag(dirs[0], msg), Flagged(dirs[1..], msg), Flag(d, msg));
    }
  }

  lemma FlaggedStep(dirs: seq<Path>, i: nat, msg: Path -> string)
    requires i < |dirs|
    ensures Flagged(dirs[..i + 1], msg) == Flagged(dirs[..i], msg) + Flag(dirs[i], msg)
  {
    assert dirs[..i + 1] == dirs[..i] + [dirs[i]];
    FlaggedAppend(dirs[..i], dirs[i], msg);
  }

  /** A file whose suffix is checked has a parent in the list twice: a badly named parent is
      reported twice in a row. */
  lemma BadParentReportedTwice(fpath: Path)
    requires Checked(fpath)
    requires !NameOk(Name(Parent(fpath)))
    ensures |FormatMessages(fpath)| >= 2
    ensures FormatMessages(fpath)[0] == FormatMessages(fpath)[1] == DirMessage(Parent(fpath))
  {
    assert fpath.parts != [];
    var dirs := CheckedDirs(fpath);
    assert dirs[0] == Parent(fpath) && dirs[1] == Parent(fpath);
    assert DirMessages(dirs)[..1] == [DirMessage(Parent(fpath))];
    assert DirMessages(dirs[1..])[..1] == [DirMessage(Parent(fpath))];
  }

  /** The directories the comment on the source line promises: up to three levels of ancestors,
      nearest first, each once. */
  function IntendedDirs(fpath: Path): (r: seq<Path>)
    ensures |r| == if |fpath.parts| < 3 then |fpath.parts| else 3
    ensures forall k :: 0 <= k < |r| ==> r[k] == Path(fpath.absolute, fpath.parts[..|fpath.parts| - 1 - k])
  {
    var ps := Parents(fpath);
    if |ps| <= 3 then ps else ps[..3]
  }

  /** Every intended directory is a different ancestor: none is checked twice. */
  lemma IntendedDirsDistinct(fpath: Path)
    ensures forall i, j :: 0 <= i < j < |IntendedDirs(fpath)| ==> IntendedDirs(fpath)[i] != IntendedDirs(fpath)[j]
  {
    var r := IntendedDirs(fpath);
    forall i, j | 0 <= i < j < |r| ensures r[i] != r[j] {
      assert |r[i].parts| != |r[j].parts|;
    }
  }

  function IntendedMessages(fpath: Path): seq<string>
  {
    if !Checked(fpath) then []
    else DirMessages(IntendedDirs(fpath)) + (if NameOk(Stem(Name(fpath))) then [] else [FileMessage(fpath)])
  }

  /** The corrected validator: each ancestor up to three levels checked once, and the result
      judges this file alone. */
  method ValidateIntended(fpath: Path, log: Errors) returns (ok: bool)
    modifies log
    ensures log.entries == old(log.entries) + IntendedMessages(fpath)
    ensures ok <==> IntendedMessages(fpath) == []
  {
    if !Checked(fpath) {
      return true;
    }
    var dirs := IntendedDirs(fpath);
    var appended := CheckDirs(dirs, DirMessage, log);
    var m := CheckFile(fpath, log);
    Regroup(old(log.entries), appended, m);
    appended := appended + m;
    ok := appended == [];
  }

  /** Under the intended check a message names a failing directory, and no directory is named by
      two messages. */
  lemma IntendedReportsEachDirectoryOnce(fpath: Path)
    requires Checked(fpath)
    ensures forall d :: d in IntendedDirs(fpath) && !NameOk(Name(d)) ==> DirMessage(d) in IntendedMessages(fpath)
    ensures |DirMessages(IntendedDirs(fpath))| <= 3
  {
    DirMessagesMeaning(IntendedDirs(fpath));
  }

  /** Upper case is outside the class; a two-character lower-case name is inside it. */
  lemma NameOkExamples()
    ensures !NameOk("Ab")
    ensures NameOk("v1")
  {
    assert !NameChar("Ab"[0]);
  }
}
