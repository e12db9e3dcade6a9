/** The main URI of a Turtle file must end with the file's stem, or, under a schema tree, name a
    file beside it (validators/filename_match_uri.py). */
module FilenameMatchUri {
  import opened Wrappers
  import opened Strings
  import opened Paths
  import opened FileSystem
  import opened ErrorLog
  import opened Rdf

  const RdfType := "http://www.w3.org/1999/02/22-rdf-syntax-ns#type"
  const OwlOntology := "http://www.w3.org/2002/07/owl#Ontology"
  const DcatapitDataset := "http://dati.gov.it/onto/dcatapit#Dataset"
  const SkosConceptScheme := "http://www.w3.org/2004/02/skos/core#ConceptScheme"

  /** The text of `Path.parents[1]` raising IndexError: the index itself. */
  const ParentsIndexError := "1"
  /** The text of `fpath.parts[1]` raising IndexError. */
  const PartsIndexError := "tuple index out of range"

  /** str() of a term. */
  function TermText(t: Term): string
  {
    match t
    case Iri(i) => i
    case Literal(l) => l
    case Blank(b) => b
  }

  predicate Typed(g: Graph, s: Term, cls: string) { Triple(s, RdfType, Iri(cls)) in g }

  /** The loop of extract_main_uri over the triples in iteration order: the first triple whose
      subject is an ontology (accepted only under a grandparent path containing "onto"), whose
      statement types a DCAT-AP_IT dataset, or whose subject is a SKOS concept scheme.
      Looking up `parents[1]` raises when the path has fewer than two ancestors. */
  function MainUri(fpath: Path, g: Graph, order: seq<Triple>): Result<Option<Term>>
  {
    if order == [] then Ok(None)
    else
      var t := order[0];
      if Typed(g, t.s, OwlOntology) && |Parents(fpath)| < 2 then Raise(ParentsIndexError)
      else if Typed(g, t.s, OwlOntology) && Contains(Lower(AsPosix(Parents(fpath)[1])), "onto") then Ok(Some(t.s))
      else if t.p == RdfType && t.o == Iri(DcatapitDataset) then Ok(Some(t.s))
      else if Typed(g, t.s, SkosConceptScheme) then Ok(Some(t.s))
      else MainUri(fpath, g, order[1..])
  }

  /** The triple is one the loop stops at. */
  predicate Accepted(fpath: Path, g: Graph, t: Triple)
    requires |Parents(fpath)| >= 2
  {
    (Typed(g, t.s, OwlOntology) && Contains(Lower(AsPosix(Parents(fpath)[1])), "onto")) ||
    (t.p == RdfType && t.o == Iri(DcatapitDataset)) ||
    Typed(g, t.s, SkosConceptScheme)
  }

  /** With two ancestors available the search never raises, finds the subject of the first accepted
      triple, and finds nothing only when no triple is accepted. */
  lemma {:induction false} MainUriFirstAccepted(fpath: Path, g: Graph, order: seq<Triple>)
    requires |Parents(fpath)| >= 2
    ensures MainUri(fpath, g, order).Ok?
    ensures MainUri(fpath, g, order) == Ok(None) <==> forall k :: 0 <= k < |order| ==> !Accepted(fpath, g, order[k])
    ensures MainUri(fpath, g, order).value.Some? ==>
      exists k :: 0 <= k < |order| && Accepted(fpath, g, order[k]) &&
        MainUri(fpath, g, order).value.value == order[k].s &&
        forall j :: 0 <= j < k ==> !Accepted(fpath, g, order[j])
    decreases |order|
  {
    if order != [] && !Accepted(fpath, g, order[0]) {
      MainUriFirstAccepted(fpath, g, order[1..]);
      if MainUri(fpath, g, order).value.Some? {
        var k :| 0 <= k < |order[1..]| && Accepted(fpath, g, order[1..][k]) &&
          MainUri(fpath, g, order[1..]).value.value == order[1..][k].s &&
          forall j :: 0 <= j < k ==> !Accepted(fpath, g, order[1..][j]);
        assert order[k + 1] == order[1..][k];
        forall j | 0 <= j < k + 1 ensures !Accepted(fpath, g, order[j]) {
          if j > 0 { assert order[j] == order[1..][j - 1]; }
        }
      }
      if forall k :: 0 <= k < |order[1..]| ==> !Accepted(fpath, g, order[1..][k]) {
        forall k | 0 <= k < |order| ensures !Accepted(fpath, g, order[k]) {
          if k > 0 { assert order[k] == order[1..][k - 1]; }
        }
      }
    }
  }

  /** An ontology declared outside an "onto" tree is passed over. */
  lemma OntologyNeedsOntoTree(fpath: Path, g: Graph, t: Triple)
    requires |Parents(fpath)| >= 2
    requires !Contains(Lower(AsPosix(Parents(fpath)[1])), "onto")
    requires Typed(g, t.s, OwlOntology) && !Typed(g, t.s, SkosConceptScheme)
    requires !(t.p == RdfType && t.o == Iri(DcatapitDataset))
    ensures MainUri(fpath, g, [t]) == Ok(None)
  {
  }

  /** extract_main_uri: parse the file (the parser is a parameter: the triples in iteration order,
      or the parser's error), then scan. */
  method ExtractMainUri(fpath: Path, parsed: Result<seq<Triple>>) returns (r: Result<Option<Term>>)
    ensures parsed.Raise? ==> r == Raise(parsed.error)
    ensures parsed.Ok? ==> r == MainUri(fpath, GraphOf(parsed.value), parsed.value)
  {
    if parsed.Raise? {
      return Raise(parsed.error);
    }
    var order := parsed.value;
    var g := GraphOf(order);
    var i := 0;
    while i < |order|
      invariant 0 <= i <= |order|
      invariant MainUri(fpath, g, order) == MainUri(fpath, g, order[i..])
    {
      var t := order[i];
      assert order[i..][0] == t && order[i..][1..] == order[i + 1..];
      if Typed(g, t.s, OwlOntology) {
        var ps := Parents(fpath);
        if |ps| < 2 {
          return Raise(ParentsIndexError);
        }
        if Contains(Lower(AsPosix(ps[1])), "onto") {
          return Ok(Some(t.s));
        }
      }
      if t.p == RdfType && t.o == Iri(DcatapitDataset) {
        return Ok(Some(t.s));
      } else if Typed(g, t.s, SkosConceptScheme) {
        return Ok(Some(t.s));
      }
      i := i + 1;
    }
    return Ok(None);
  }

  function GraphOf(order: seq<Triple>): (g: Graph)
    ensures forall t :: t in g <==> t in order
  {
    set t | t in order
  }

  /** The last `/`-segment of the URI, or the one before when the URI ends with `/`. */
  function LastUriPart(uri: string): (r: string)
    requires uri != ""
    ensures '/' !in r
  {
    var parts := Split(uri, '/');
    SplitPiecesHaveNoSeparator(uri, '/');
    if parts[|parts| - 1] != "" then parts[|parts| - 1]
    else if |parts| >= 2 then parts[|parts| - 2]
    else ""
  }

  /** The segment after the last `/` is found whether or not the URI ends with one. */
  lemma LastUriPartOfSegment(base: string, seg: string)
    requires seg != "" && '/' !in seg
    ensures LastUriPart(base + "/" + seg) == seg
    ensures LastUriPart(base + "/" + seg + "/") == seg
  {
    SplitOfSeparatorFree(seg, '/');
    SplitConcatSep(base, seg, '/');
    assert base + "/" + seg == base + ['/'] + seg;
    var x := Split(base, '/');
    assert Split(base + "/" + seg, '/') == x + [seg];
    SplitConcatSep(seg, "", '/');
    assert Split(seg + "/", '/') == [seg, ""] by {
      assert seg + ['/'] + "" == seg + "/";
    }
    SplitConcatSep(base, seg + "/", '/');
    assert base + "/" + seg + "/" == base + ['/'] + (seg + "/");
    assert Split(base + "/" + seg + "/", '/') == x + [seg, ""];
  }

  function NotTurtleMessage(fpath: Path, e: string): string
  {
    "It's not possible to extract URI from " + AsPosix(fpath) + ", it is not a valid Turtle file: " + e
  }

  function MissingFileMessage(file: Path, uri: string): string
  {
    "The file " + Quote(AsPosix(file)) + " corresponding to its relative URI " + Quote(uri) + " does not exist."
  }

  function StemMismatchMessage(fpath: Path, uri: string): string
  {
    "The file " + Quote(AsPosix(fpath)) + " does not match its relative URI " + Quote(uri)
  }

  /** The file `Path(fpath.parent, last_uri_part)`. */
  function Beside(fpath: Path, part: string): Path
  {
    Concat(Parent(fpath), Parse(part))
  }

  /** What validate decides once a main URI text is known: the messages, or the IndexError of
      `fpath.parts[1]`, which is raised to the caller. */
  function UriVerdict(fs: Fs, fpath: Path, uri: string): Result<seq<string>>
    requires uri != ""
  {
    var last := LastUriPart(uri);
    var parts := PyParts(fpath);
    if |parts| < 2 then Raise(PartsIndexError)
    else if Contains(Lower(parts[1]), "schema") then
      if Beside(fpath, last) in fs then Ok([]) else Ok([MissingFileMessage(Beside(fpath, last), uri)])
    else if Stem(Name(fpath)) != last then Ok([StemMismatchMessage(fpath, uri)])
    else Ok([])
  }

  /** filename_match_uri.validate: the messages appended, or the exception raised. */
  function UriReport(fs: Fs, fpath: Path, parsed: Result<seq<Triple>>): Result<seq<string>>
  {
    if Suffix(Name(fpath)) != ".ttl" then Ok([])
    else
      var extracted := if parsed.Raise? then Raise(parsed.error) else MainUri(fpath, GraphOf(parsed.value), parsed.value);
      if extracted.Raise? then Ok([NotTurtleMessage(fpath, extracted.error)])
      else if extracted.value.None? || TermText(extracted.value.value) == "" then Ok([])
      else UriVerdict(fs, fpath, TermText(extracted.value.value))
  }

  /** A validation appends at most one message; outside a schema tree a file with a main URI fails
      exactly when its stem is not the URI's last segment. */
  lemma UriReportMeaning(fs: Fs, fpath: Path, uri: string)
    requires uri != ""
    requires |PyParts(fpath)| >= 2 && !Contains(Lower(PyParts(fpath)[1]), "schema")
    ensures UriVerdict(fs, fpath, uri).Ok?
    ensures UriVerdict(fs, fpath, uri).value == [] <==> Stem(Name(fpath)) == LastUriPart(uri)
  {
  }

  lemma UriReportAtMostOne(fs: Fs, fpath: Path, parsed: Result<seq<Triple>>)
    ensures UriReport(fs, fpath, parsed).Ok? ==> |UriReport(fs, fpath, parsed).value| <= 1
    ensures parsed.Raise? && Suffix(Name(fpath)) == ".ttl" ==>
      UriReport(fs, fpath, parsed) == Ok([NotTurtleMessage(fpath, parsed.error)])
  {
  }

  /** filename_match_uri.validate. */
  method Validate(fs: Fs, fpath: Path, parsed: Result<seq<Triple>>, log: Errors) returns (r: Result<bool>)
    modifies log
    ensures UriReport(fs, fpath, parsed).Raise? ==> r == Raise(UriReport(fs, fpath, parsed).error) && log.entries == old(log.entries)
    ensures UriReport(fs, fpath, parsed).Ok? ==>
      r == Ok(UriReport(fs, fpath, parsed).value == []) &&
      log.entries == old(log.entries) + UriReport(fs, fpath, parsed).value
  {
    if Suffix(Name(fpath)) != ".ttl" {
      return Ok(true);
    }
    var uri := ExtractMainUri(fpath, parsed);
    if uri.Raise? {
      log.Append(NotTurtleMessage(fpath, uri.error));
      return Ok(false);
    }
    if uri.value.None? || TermText(uri.value.value) == "" {
      return Ok(true);
    }
    var text := TermText(uri.value.value);
    var verdict := UriVerdict(fs, fpath, text);
    if verdict.Raise? {
      return Raise(verdict.error);
    }
    if verdict.value != [] {
      log.Append(verdict.value[0]);
      return Ok(false);
    }
    return Ok(true);
  }
}
