/** The download script for the controlled vocabularies of the EU publications office: where
    each SKOS download lands in the repository, which downloads are selected, and what one
    download writes. */
module Vocabularies {
  import opened Wrappers
  import opened Strings
  import opened Paths

  /** Split at the first occurrence of `c`: the text before it, and the text after it if any. */
  function SplitOnce(s: string, c: char): (r: (string, Option<string>))
    ensures c !in r.0
    ensures r.1.None? <==> c !in s
    ensures r.1.None? ==> r.0 == s
    ensures r.1.Some? ==> s == r.0 + [c] + r.1.value
  {
    if s == [] then ("", None)
    else if s[0] == c then ("", Some(s[1..]))
    else
      var rest := SplitOnce(s[1..], c);
      assert [s[0]] + s[1..] == s;
      ([s[0]] + rest.0, rest.1)
  }

  /** urlsplit's query: the text after the first "?" once the fragment after the first "#" is
      cut off, or "" when there is no "?". */
  function Query(url: string): (r: string)
    ensures '#' !in r
  {
    var beforeFragment := SplitOnce(url, '#').0;
    match SplitOnce(beforeFragment, '?').1
    case Some(q) => q
    case None => ""
  }

  /** A name or value of a query string, with "+" read as a space. */
  function Unplus(s: string): string
  {
    ReplaceAll(s, "+", " ")
  }

  /** `parse_qs(query)["fileName"][0]`: the value of the first `&`-separated field named
      fileName that has "=" and a non-empty value; None where parse_qs has no such key. */
  function FirstValue(fields: seq<string>, key: string): (r: Option<string>)
    ensures r.Some? ==> r.value != ""
  {
    if fields == [] then None
    else
      var (name, value) := SplitOnce(fields[0], '=');
      if value.Some? && value.value != "" && Unplus(name) == key && Unplus(value.value) != "" then Some(Unplus(value.value))
      else FirstValue(fields[1..], key)
  }

  function FileName(url: string): Option<string>
  {
    FirstValue(Split(Query(url), '&'), "fileName")
  }

  const VocabulariesDir := Path(false, ["assets", "vocabularies"])

  /** `assets/vocabularies/<stem>/latest/<file>` for the parsed file name. */
  function Target(file: Path): Path
  {
    Concat(Child(Child(VocabulariesDir, Stem(Name(file))), "latest"), file)
  }

  /** The target with suffix `.ttl`, where `<file>` is the file name without any "-skos";
      pathlib refuses a suffix on a path with an empty name. */
  function Destination(fileName: string): (r: Result<Path>)
  {
    var target := Target(Parse(ReplaceAll(fileName, "-skos", "")));
    if Name(target) == "" then Raise("PosixPath('" + AsPosix(target) + "') has an empty name")
    else Ok(WithSuffix(target, ".ttl"))
  }

  lemma ParseComponent(c: string)
    requires IsComponent(c)
    ensures Parse(c) == Path(false, [c])
  {
    SplitOfSeparatorFree(c, '/');
    assert Components([c]) == [c];
    assert !StartsWith(c, "/");
  }

  lemma TargetOfComponent(f: string)
    requires IsComponent(f) && Stem(f) != ""
    ensures Name(Target(Parse(f))) == f
    ensures WithSuffix(Target(Parse(f)), ".ttl") ==
      Path(false, ["assets", "vocabularies", Stem(f), "latest", Stem(f) + ".ttl"])
  {
    ParseComponent(f);
    TargetOfOne(f);
  }

  lemma TargetOfOne(f: string)
    requires f != ""
    ensures Name(Target(Path(false, [f]))) == f
    ensures WithSuffix(Target(Path(false, [f])), ".ttl") ==
      Path(false, ["assets", "vocabularies", Stem(f), "latest", Stem(f) + ".ttl"])
  {
    var dir := ["assets", "vocabularies", Stem(f), "latest"];
    StemNonEmpty(f);
    var stemDir := Child(VocabulariesDir, Stem(f));
    assert stemDir.parts == ["assets", "vocabularies", Stem(f)];
    var latest := Child(stemDir, "latest");
    assert latest == Path(false, dir);
    assert Name(Path(false, [f])) == f;
    assert Target(Path(false, [f])) == Path(false, dir + [f]);
    TurtleBeside(dir, f);
    assert dir + [Stem(f) + ".ttl"] == ["assets", "vocabularies", Stem(f), "latest", Stem(f) + ".ttl"];
  }

  lemma StemNonEmpty(f: string)
    requires f != ""
    ensures Stem(f) != ""
  {
    if SuffixStart(f) != -1 {
      assert |Stem(f)| == SuffixStart(f);
    }
  }

  lemma TurtleBeside(dir: seq<string>, f: string)
    requires f != ""
    ensures WithSuffix(Path(false, dir + [f]), ".ttl") == Path(false, dir + [Stem(f) + ".ttl"])
  {
    assert Parent(Path(false, dir + [f])).parts == dir;
  }

  /** A file name that is a single component once "-skos" is dropped, say `x-skos.rdf`, lands
      in `assets/vocabularies/x/latest/x.ttl`. */
  lemma DestinationOfComponent(fileName: string, f: string)
    requires f == ReplaceAll(fileName, "-skos", "")
    requires IsComponent(f) && Stem(f) != ""
    ensures Destination(fileName) == Ok(Path(false, ["assets", "vocabularies", Stem(f), "latest", Stem(f) + ".ttl"]))
  {
    TargetOfComponent(f);
  }

  /** What get_vocabularies yields, the URLs it reports with CannotParse, and whether it ended
      by raising. */
  datatype Listing = Listing(pairs: seq<(string, Path)>, unparsed: seq<string>, result: Result<()>)

  /** get_vocabularies over the download URLs of the query's bindings, in order: a URL without a
      file name is reported and skipped; a destination pathlib refuses ends the generator. */
  function ListingOf(urls: seq<string>): Listing
    decreases |urls|
  {
    if urls == [] then Listing([], [], Ok(()))
    else Extend(ListingOf(urls[..|urls| - 1]), urls[|urls| - 1])
  }

  /** The line printed for a URL without a file name. */
  function CannotParse(url: string): string
  {
    "Cannot parse " + url
  }

  /** One more URL of the bindings. */
  function Extend(prev: Listing, u: string): Listing
  {
    if prev.result.Raise? then prev
    else match FileName(u)
      case None => Listing(prev.pairs, prev.unparsed + [u], Ok(()))
      case Some(f) =>
        match Destination(f)
        case Raise(e) => Listing(prev.pairs, prev.unparsed, Raise(e))
        case Ok(d) => Listing(prev.pairs + [(u, d)], prev.unparsed, Ok(()))
  }

  /** What one more URL adds to the reported URLs. */
  lemma ExtendPrinted(prev: Listing, u: string)
    ensures Extend(prev, u).result.Ok? ==> prev.result.Ok?
    ensures prev.unparsed <= Extend(prev, u).unparsed
    ensures Extend(prev, u).result.Ok? && FileName(u).None? ==> Extend(prev, u).unparsed == prev.unparsed + [u]
  {
  }

  /** What one more URL adds to the yielded pairs. */
  lemma ExtendPairs(prev: Listing, u: string)
    ensures prev.pairs <= Extend(prev, u).pairs
    ensures |Extend(prev, u).pairs| > |prev.pairs| ==>
      var d := Extend(prev, u).pairs[|prev.pairs|].1;
      Extend(prev, u).pairs == prev.pairs + [(u, d)] &&
      FileName(u).Some? && Destination(FileName(u).value) == Ok(d)
  {
  }

  lemma ExtendCounts(prev: Listing, u: string)
    requires Extend(prev, u).result.Ok?
    ensures |Extend(prev, u).pairs| + |Extend(prev, u).unparsed| == |prev.pairs| + |prev.unparsed| + 1
  {
  }

  /** When the listing completes, every URL is either yielded or reported. */
  lemma {:induction false} ListingCounts(urls: seq<string>)
    requires ListingOf(urls).result.Ok?
    ensures |ListingOf(urls).pairs| + |ListingOf(urls).unparsed| == |urls|
    decreases |urls|
  {
    if urls != [] {
      ExtendPrinted(ListingOf(urls[..|urls| - 1]), urls[|urls| - 1]);
      ExtendCounts(ListingOf(urls[..|urls| - 1]), urls[|urls| - 1]);
      ListingCounts(urls[..|urls| - 1]);
    }
  }

  /** Every yielded pair is a URL of the bindings with the destination of its file name. */
  lemma {:induction false} ListingPairs(urls: seq<string>, k: nat)
    requires k < |ListingOf(urls).pairs|
    ensures ListingOf(urls).pairs[k].0 in urls
    ensures FileName(ListingOf(urls).pairs[k].0).Some?
    ensures Destination(FileName(ListingOf(urls).pairs[k].0).value) == Ok(ListingOf(urls).pairs[k].1)
    decreases |urls|
  {
    var init := urls[..|urls| - 1];
    var prev := ListingOf(init);
    ExtendPairs(prev, urls[|urls| - 1]);
    if k < |prev.pairs| {
      ListingPairs(init, k);
      PairEarlier(urls, k);
    } else {
      PairLast(urls, k);
    }
  }

  lemma PairEarlier(urls: seq<string>, k: nat)
    requires urls != [] && k < |ListingOf(urls[..|urls| - 1]).pairs|
    requires ListingOf(urls[..|urls| - 1]).pairs[k].0 in urls[..|urls| - 1]
    ensures k < |ListingOf(urls).pairs| && ListingOf(urls).pairs[k] == ListingOf(urls[..|urls| - 1]).pairs[k]
    ensures ListingOf(urls).pairs[k].0 in urls
  {
    ExtendPairs(ListingOf(urls[..|urls| - 1]), urls[|urls| - 1]);
    var init := urls[..|urls| - 1];
    var j :| 0 <= j < |init| && init[j] == ListingOf(init).pairs[k].0;
    assert urls[j] == init[j];
  }

  lemma PairLast(urls: seq<string>, k: nat)
    requires urls != [] && |ListingOf(urls[..|urls| - 1]).pairs| <= k < |ListingOf(urls).pairs|
    ensures ListingOf(urls).pairs[k].0 == urls[|urls| - 1]
    ensures FileName(ListingOf(urls).pairs[k].0).Some?
    ensures Destination(FileName(ListingOf(urls).pairs[k].0).value) == Ok(ListingOf(urls).pairs[k].1)
  {
    ExtendPairs(ListingOf(urls[..|urls| - 1]), urls[|urls| - 1]);
  }

  /** Every URL without a file name is reported, as long as the listing did not stop earlier. */
  lemma {:induction false} ListingPrinted(urls: seq<string>, j: nat)
    requires j < |urls| && FileName(urls[j]).None?
    requires ListingOf(urls).result.Ok?
    ensures urls[j] in ListingOf(urls).unparsed
    decreases |urls|
  {
    var init := urls[..|urls| - 1];
    if j < |init| {
      OkBefore(urls);
      assert init[j] == urls[j];
      ListingPrinted(init, j);
      PrintedEarlier(urls, urls[j]);
    } else {
      PrintedLast(urls, j);
    }
  }

  lemma OkBefore(urls: seq<string>)
    requires urls != [] && ListingOf(urls).result.Ok?
    ensures ListingOf(urls[..|urls| - 1]).result.Ok?
  {
    ExtendPrinted(ListingOf(urls[..|urls| - 1]), urls[|urls| - 1]);
  }

  lemma PrintedEarlier(urls: seq<string>, line: string)
    requires urls != [] && line in ListingOf(urls[..|urls| - 1]).unparsed
    ensures line in ListingOf(urls).unparsed
  {
    var prev := ListingOf(urls[..|urls| - 1]);
    ExtendPrinted(prev, urls[|urls| - 1]);
    var i :| 0 <= i < |prev.unparsed| && prev.unparsed[i] == line;
    assert ListingOf(urls).unparsed[i] == line;
  }

  lemma PrintedLast(urls: seq<string>, j: nat)
    requires j == |urls| - 1 && ListingOf(urls).result.Ok? && FileName(urls[j]).None?
    ensures urls[j] in ListingOf(urls).unparsed
  {
    var prev := ListingOf(urls[..j]);
    ExtendPrinted(prev, urls[j]);
    assert ListingOf(urls).unparsed[|prev.unparsed|] == urls[j];
  }

  /** The generator loop. */
  method GetVocabularies(urls: seq<string>) returns (l: Listing)
    ensures l == ListingOf(urls)
  {
    var pairs: seq<(string, Path)> := [];
    var unparsed: seq<string> := [];
    for i := 0 to |urls|
      invariant ListingOf(urls[..i]) == Listing(pairs, unparsed, Ok(()))
    {
      assert urls[..i + 1][..i] == urls[..i];
      var f := FileName(urls[i]);
      if f.None? {
        unparsed := unparsed + [urls[i]];
      } else {
        var d := Destination(f.value);
        if d.Raise? {
          ListingStop(urls, i + 1);
          return Listing(pairs, unparsed, Raise(d.error));
        }
        pairs := pairs + [(urls[i], d.value)];
      }
    }
    assert urls[..|urls|] == urls;
    l := Listing(pairs, unparsed, Ok(()));
  }

  lemma {:induction false} ListingStop(urls: seq<string>, n: nat)
    requires n <= |urls| && ListingOf(urls[..n]).result.Raise?
    ensures ListingOf(urls) == ListingOf(urls[..n])
    decreases |urls| - n
  {
    if n < |urls| {
      assert urls[..n + 1][..n] == urls[..n];
      ListingStop(urls, n + 1);
    } else {
      assert urls[..n] == urls;
    }
  }

  /** The pairs handed to the workers: those whose URL contains the needle. */
  function Selected(pairs: seq<(string, Path)>, needle: string): (r: seq<(string, Path)>)
    ensures forall x :: x in r <==> x in pairs && Contains(x.0, needle)
  {
    if pairs == [] then []
    else (if Contains(pairs[0].0, needle) then [pairs[0]] else []) + Selected(pairs[1..], needle)
  }

  /** The default needle "" selects every pair, in order. */
  lemma {:induction false} EmptyNeedleSelectsAll(pairs: seq<(string, Path)>)
    ensures Selected(pairs, "") == pairs
    decreases |pairs|
  {
    if pairs != [] {
      EmptyContained(pairs[0].0);
      EmptyNeedleSelectsAll(pairs[1..]);
      assert [pairs[0]] + pairs[1..] == pairs;
    }
  }

  /** What download_file writes, in order, and how it ends. */
  datatype Download = Download(written: seq<Path>, result: Result<()>)

  /** The FileNotFoundError of writing a file into a directory that does not exist. */
  function NoSuchFile(p: Path): string
  {
    "[Errno 2] No such file or directory: '" + AsPosix(p) + "'"
  }

  /** download_file as written: nothing unless the status is 200; then the raw bytes beside the
      destination with suffix `.rdf`, which needs the destination's directory (`dirExists`) because
      the `mkdir` comes only after the parse; the Turtle is written once the RDF/XML parses. */
  function DownloadFile(dest: Path, status: int, dirExists: bool, parsed: Result<()>): (r: Download)
    ensures status != 200 ==> r == Download([], Ok(()))
    ensures status == 200 && Name(dest) != "" && !dirExists ==>
      r == Download([], Raise(NoSuchFile(WithSuffix(dest, ".rdf"))))
    ensures status == 200 && Name(dest) != "" && dirExists && parsed.Ok? ==>
      r.written == [WithSuffix(dest, ".rdf"), dest] && r.result.Ok?
    ensures status == 200 && Name(dest) != "" && dirExists && parsed.Raise? ==>
      r.written == [WithSuffix(dest, ".rdf")] && r.result == Raise(parsed.error)
  {
    if status != 200 then Download([], Ok(()))
    else if Name(dest) == "" then Download([], Raise("PosixPath('" + AsPosix(dest) + "') has an empty name"))
    else
      var raw := WithSuffix(dest, ".rdf");
      if !dirExists then Download([], Raise(NoSuchFile(raw)))
      else if parsed.Raise? then Download([raw], Raise(parsed.error)) else Download([raw, dest], Ok(()))
  }

  /** download_file with the directory created before the raw bytes are written: the outcome no
      longer depends on whether the directory existed. */
  function DownloadFileIntended(dest: Path, status: int, dirExists: bool, parsed: Result<()>): (r: Download)
    ensures r == DownloadFile(dest, status, true, parsed)
    ensures status == 200 && Name(dest) != "" && parsed.Ok? ==> r.written == [WithSuffix(dest, ".rdf"), dest] && r.result.Ok?
  {
    if status != 200 then Download([], Ok(()))
    else if Name(dest) == "" then Download([], Raise("PosixPath('" + AsPosix(dest) + "') has an empty name"))
    else
      var raw := WithSuffix(dest, ".rdf");
      if parsed.Raise? then Download([raw], Raise(parsed.error)) else Download([raw, dest], Ok(()))
  }

  /** A vocabulary whose directory is not yet in the tree is never stored: the raw write fails
      before anything is written, where the intended order stores both files. */
  lemma NewVocabularyNotStored(dest: Path)
    requires Name(dest) != ""
    ensures DownloadFile(dest, 200, false, Ok(())).written == []
    ensures DownloadFile(dest, 200, false, Ok(())).result.Raise?
    ensures DownloadFileIntended(dest, 200, false, Ok(())).written == [WithSuffix(dest, ".rdf"), dest]
    ensures DownloadFileIntended(dest, 200, false, Ok(())).result.Ok?
  {
  }

  /** The raw copy and the Turtle share a directory and a stem. */
  lemma DownloadBeside(dest: Path)
    requires Name(dest) != "" && Stem(Name(dest)) != ""
    ensures var raw := DownloadFile(dest, 200, true, Ok(())).written[0];
      Parent(raw) == Parent(dest) && Stem(Name(raw)) == Stem(Name(dest)) && Suffix(Name(raw)) == ".rdf"
  {
    var raw := WithSuffix(dest, ".rdf");
    WithSuffixSetsSuffix(dest, ".rdf");
    var n := Stem(Name(dest)) + ".rdf";
    assert Name(raw) == n;
    assert Stem(n) == Stem(Name(dest)) by {
      assert Suffix(n) == ".rdf";
    }
  }
}
