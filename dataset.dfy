/** The catalogue record of an annotated OpenAPI schema: the fields read from its `info` section,
    the semantic references of its contexts, and the RDF description of the dataset and its
    distribution (both the package version and the older playground version). */
module DatasetRecord {
  import opened Wrappers
  import opened Strings
  import opened Paths
  import opened FileSystem
  import opened JsonValues
  import opened Rdf
  import opened Semantic
  import Publication

  const DctTitle := "http://purl.org/dc/terms/title"
  const DctDescription := "http://purl.org/dc/terms/description"
  const OwlVersionInfo := "http://www.w3.org/2002/07/owl#versionInfo"
  const DctRightsHolder := "http://purl.org/dc/terms/rightsHolder"
  const FoafName := "http://xmlns.com/foaf/0.1/name"
  const DctAccrual := "http://purl.org/dc/terms/accrualPeriodicity"
  const DcatTheme := "http://www.w3.org/ns/dcat#theme"
  const Irregular := "http://publications.europa.eu/resource/authority/frequency/IRREG"
  const Technology := "http://publications.europa.eu/resource/authority/data-theme/TECHNOLOGY"
  const DctConformsTo := "http://purl.org/dc/terms/conformsTo"
  const HasKeyClass := "https://www.w3.org/italia/onto/ADMS/hasKeyClass"
  const RdfType := "http://www.w3.org/1999/02/22-rdf-syntax-ns#type"
  const DctModified := "http://purl.org/dc/terms/modified"
  const DcatDistribution := "http://www.w3.org/ns/dcat#distribution"
  const DctLicense := "http://purl.org/dc/terms/license"
  const CcBy40 := "https://w3id.org/italia/controlled-vocabulary/licences/A21_CCBY40"
  const DcatAccessUrl := "http://www.w3.org/ns/dcat#accessURL"
  const DcatMediaType := "http://www.w3.org/ns/dcat#mediaType"
  const DctFormat := "http://purl.org/dc/terms/format"
  const JsonFileType := "http://publications.europa.eu/resource/authority/file-type/JSON"
  const FoafAgent := "http://xmlns.com/foaf/0.1/Agent"
  const DctIdentifier := "http://purl.org/dc/terms/identifier"
  /** The DCAT-AP_IT vocabulary of the package version, and the one the playground version uses. */
  const DcatapitNs := "http://dati.gov.it/onto/dcatapit#"
  const DcataptNs := "https://dati.gov.it/onto/dcatapt#"

  // ---- fields of the info section ----

  /** A JSONPath `$.a.b…` made of plain keys, and the predicate its value is recorded under. */
  datatype Field = Field(keys: seq<string>, property: string)

  /** A predicate and the object recorded for it on the dataset. */
  datatype Entry = Entry(property: string, value: Term)

  /** The value at a chain of keys: a missing key or a value that is not a mapping gives no match. */
  function Lookup(j: Json, keys: seq<string>): (r: Option<Json>)
    ensures keys == [] ==> r == Some(j)
    decreases |keys|
  {
    if keys == [] then Some(j)
    else if !j.Obj? then None
    else match Get(j.members, keys[0])
      case None => None
      case Some(v) => Lookup(v, keys[1..])
  }

  /** The literal entries of the fields that are present, in field order; `show` is the lexical
      form rdflib gives a literal made from the value. */
  function FoundFields(schema: Json, fields: seq<Field>, show: Json -> string): (r: seq<Entry>)
    ensures |r| <= |fields|
    ensures forall e :: e in r ==> e.value.Literal? && exists f :: f in fields && f.property == e.property
  {
    if fields == [] then []
    else
      (match Lookup(schema, fields[0].keys)
       case Some(v) => [Entry(fields[0].property, Literal(show(v)))]
       case None => []) + FoundFields(schema, fields[1..], show)
  }

  /** The entry of a field is recorded iff its path is present, with the value shown as a literal. */
  lemma {:induction false} FoundFieldsMeaning(schema: Json, fields: seq<Field>, show: Json -> string, e: Entry)
    ensures e in FoundFields(schema, fields, show) <==>
      exists k :: 0 <= k < |fields| && Lookup(schema, fields[k].keys).Some? &&
        e == Entry(fields[k].property, Literal(show(Lookup(schema, fields[k].keys).value)))
    decreases |fields|
  {
    if fields != [] {
      FoundFieldsMeaning(schema, fields[1..], show, e);
      if e in FoundFields(schema, fields[1..], show) {
        var k :| 0 <= k < |fields[1..]| && Lookup(schema, fields[1..][k].keys).Some? &&
          e == Entry(fields[1..][k].property, Literal(show(Lookup(schema, fields[1..][k].keys).value)));
        assert fields[1..][k] == fields[k + 1];
      }
      forall k | 1 <= k < |fields| ensures fields[k] == fields[1..][k - 1] {
      }
    }
  }

  const InfoFields := [Field(["info", "title"], DctTitle), Field(["info", "description"], DctDescription),
                       Field(["info", "version"], OwlVersionInfo)]

  // ---- get_semantic_references_from_oas3 (package version) ----

  /** What the package version extracts: the context references, the rights holder's identifier
      and name (each "MISSING" when absent, and removed from the entries), and the entries. */
  datatype References = References(summary: Summary, holderId: string, holderName: string, entries: seq<Entry>)

  function ValueOr(v: Option<Json>, show: Json -> string): string
  {
    match v
    case Some(x) => show(x)
    case None => "MISSING"
  }

  /** get_semantic_references_from_oas3. `contextRefs` is get_context_references of the schema. */
  function ReferencesOf(schema: Json, show: Json -> string, contextRefs: Result<Summary>): (r: Result<References>)
    ensures contextRefs.Raise? <==> r.Raise?
    ensures r.Ok? ==> r.value.summary == contextRefs.value
    ensures r.Ok? ==> |r.value.entries| >= 2 && r.value.entries[|r.value.entries| - 2..] == [Entry(DctAccrual, Iri(Irregular)), Entry(DcatTheme, Iri(Technology))]
  {
    match contextRefs
    case Raise(e) => Raise(e)
    case Ok(s) =>
      var fixed := [Entry(DctAccrual, Iri(Irregular)), Entry(DcatTheme, Iri(Technology))];
      var entries := FoundFields(schema, InfoFields, show) + fixed;
      assert entries[|entries| - 2..] == fixed;
      Ok(References(s, ValueOr(Lookup(schema, ["info", "contact", "url"]), show),
                    ValueOr(Lookup(schema, ["info", "contact", "name"]), show), entries))
  }

  /** The rights holder is never among the entries: only title, description, version, accrual
      periodicity and theme are. */
  lemma ReferencesEntries(schema: Json, show: Json -> string, contextRefs: Result<Summary>)
    requires contextRefs.Ok?
    ensures forall e :: e in ReferencesOf(schema, show, contextRefs).value.entries ==>
      e.property in {DctTitle, DctDescription, OwlVersionInfo, DctAccrual, DcatTheme}
  {
    var found := FoundFields(schema, InfoFields, show);
    forall e | e in found ensures e.property in {DctTitle, DctDescription, OwlVersionInfo} {
      var f :| f in InfoFields && f.property == e.property;
    }
  }

  // ---- oas3_to_turtle ----

  /** What the three loops over entries, ontologies and domains add about the dataset. */
  function Described(ds: string, entries: seq<Entry>, ontologies: set<Term>, domains: set<Term>): Graph
  {
    (set e | e in entries :: Triple(Iri(ds), e.property, e.value))
    + (set o | o in ontologies :: Triple(Iri(ds), DctConformsTo, o))
    + (set c | c in domains :: Triple(Iri(ds), HasKeyClass, c))
  }

  /** The dataset's type, date and distribution, and the five distribution triples. */
  function DistributionTriples(ds: string, dist: string, access: string, today: string, ns: string): Graph
  {
    {Triple(Iri(ds), RdfType, Iri(ns + "Dataset")), Triple(Iri(ds), DctModified, Literal(today)),
     Triple(Iri(ds), DcatDistribution, Iri(dist)),
     Triple(Iri(dist), RdfType, Iri(ns + "Distribution")), Triple(Iri(dist), DctLicense, Iri(CcBy40)),
     Triple(Iri(dist), DcatAccessUrl, Iri(access)), Triple(Iri(dist), DcatMediaType, Literal("application/json")),
     Triple(Iri(dist), DctFormat, Iri(JsonFileType))}
  }

  /** The last segment of a "/"-separated text. */
  function LastSegment(s: string): string
  {
    var pieces := Split(s, '/');
    pieces[|pieces| - 1]
  }

  /** The rights holder: linked from the dataset, typed as an agent twice, named and identified by
      the last segment of its identifier. */
  function HolderTriples(ds: string, refs: References): Graph
  {
    var rh := Iri(refs.holderId);
    {Triple(Iri(ds), DctRightsHolder, rh), Triple(rh, RdfType, Iri(FoafAgent)), Triple(rh, RdfType, Iri(DcatapitNs + "Agent")),
     Triple(rh, FoafName, Literal(refs.holderName)), Triple(rh, DctIdentifier, Literal(LastSegment(refs.holderId)))}
  }

  /** oas3_to_turtle of the package version; `today` is the ISO date of the run. */
  function DatasetGraph(ds: string, dist: string, access: string, refs: References, today: string): Graph
  {
    Described(ds, refs.entries, refs.summary.ontologies, refs.summary.domains)
    + DistributionTriples(ds, dist, access, today, DcatapitNs) + HolderTriples(ds, refs)
  }

  /** One conformsTo per ontology and one hasKeyClass per domain and nothing else under those
      predicates; the distribution is licensed CC-BY 4.0 and points at the access URL. */
  lemma DatasetGraphMeaning(ds: string, dist: string, access: string, refs: References, today: string)
    requires forall e :: e in refs.entries ==> e.property in {DctTitle, DctDescription, OwlVersionInfo, DctAccrual, DcatTheme}
    ensures var g := DatasetGraph(ds, dist, access, refs, today);
      && (forall o :: Triple(Iri(ds), DctConformsTo, o) in g <==> o in refs.summary.ontologies)
      && (forall c :: Triple(Iri(ds), HasKeyClass, c) in g <==> c in refs.summary.domains)
      && Triple(Iri(dist), DctLicense, Iri(CcBy40)) in g
      && Triple(Iri(dist), DcatAccessUrl, Iri(access)) in g
      && Triple(Iri(ds), DctRightsHolder, Iri(refs.holderId)) in g
  {
    PredicatesApart();
    var rest := DistributionTriples(ds, dist, access, today, DcatapitNs) + HolderTriples(ds, refs);
    RestApart(ds, dist, access, today, refs);
    assert forall e :: e in refs.entries ==> OtherPredicate(e.property);
    OnlyUnder(DatasetGraph(ds, dist, access, refs, today),
              Described(ds, refs.entries, refs.summary.ontologies, refs.summary.domains), rest, ds, refs);
  }

  /** Neither conformsTo nor hasKeyClass. */
  predicate OtherPredicate(p: string) { p != DctConformsTo && p != HasKeyClass }

  /** The conformsTo and hasKeyClass predicates differ from each other and from every other
      predicate the graph uses. */
  lemma PredicatesApart()
    ensures DctConformsTo != HasKeyClass
    ensures OtherPredicate(DctTitle) && OtherPredicate(DctDescription) && OtherPredicate(OwlVersionInfo)
    ensures OtherPredicate(DctAccrual) && OtherPredicate(DcatTheme) && OtherPredicate(RdfType)
    ensures OtherPredicate(DctModified) && OtherPredicate(DcatDistribution) && OtherPredicate(DctLicense)
    ensures OtherPredicate(DcatAccessUrl) && OtherPredicate(DcatMediaType) && OtherPredicate(DctFormat)
    ensures OtherPredicate(DctRightsHolder) && OtherPredicate(FoafName) && OtherPredicate(DctIdentifier)
  {
  }

  /** The distribution and holder triples use neither conformsTo nor hasKeyClass. */
  lemma RestApart(ds: string, dist: string, access: string, today: string, refs: References)
    ensures forall t :: t in DistributionTriples(ds, dist, access, today, DcatapitNs) + HolderTriples(ds, refs) ==>
      OtherPredicate(t.p)
  {
    PredicatesApart();
  }

  lemma OnlyUnder(g: Graph, described: Graph, rest: Graph, ds: string, refs: References)
    requires DctConformsTo != HasKeyClass
    requires forall e :: e in refs.entries ==> OtherPredicate(e.property)
    requires described == Described(ds, refs.entries, refs.summary.ontologies, refs.summary.domains)
    requires forall t :: t in rest ==> OtherPredicate(t.p)
    requires g == described + rest
    ensures forall o :: Triple(Iri(ds), DctConformsTo, o) in g <==> o in refs.summary.ontologies
    ensures forall c :: Triple(Iri(ds), HasKeyClass, c) in g <==> c in refs.summary.domains
  {
  }

  /** oas3_to_turtle's loops, adding one triple at a time. */
  method Describe(ds: string, entries: seq<Entry>, ontologies: set<Term>, domains: set<Term>) returns (g: Graph)
    ensures g == Described(ds, entries, ontologies, domains)
  {
    g := {};
    for i := 0 to |entries|
      invariant g == set e | e in entries[..i] :: Triple(Iri(ds), e.property, e.value)
    {
      assert entries[..i + 1] == entries[..i] + [entries[i]];
      g := g + {Triple(Iri(ds), entries[i].property, entries[i].value)};
    }
    assert entries[..|entries|] == entries;
    var first := g;
    var left := ontologies;
    while left != {}
      invariant left <= ontologies
      invariant g == first + set o | o in ontologies - left :: Triple(Iri(ds), DctConformsTo, o)
      decreases left
    {
      var o :| o in left;
      g := g + {Triple(Iri(ds), DctConformsTo, o)};
      left := left - {o};
    }
    assert ontologies - left == ontologies;
    var second := g;
    left := domains;
    while left != {}
      invariant left <= domains
      invariant g == second + set c | c in domains - left :: Triple(Iri(ds), HasKeyClass, c)
      decreases left
    {
      var c :| c in left;
      g := g + {Triple(Iri(ds), HasKeyClass, c)};
      left := left - {c};
    }
    assert domains - left == domains;
  }

  method Oas3ToTurtle(ds: string, dist: string, access: string, refs: References, today: string) returns (g: Graph)
    ensures g == DatasetGraph(ds, dist, access, refs, today)
  {
    g := Describe(ds, refs.entries, refs.summary.ontologies, refs.summary.domains);
    g := g + DistributionTriples(ds, dist, access, today, DcatapitNs) + HolderTriples(ds, refs);
  }

  // ---- build_schema ----

  /** The record of one schema: where it goes, or nothing when the record is newer than the schema. */
  datatype Record = Record(target: Path, graph: Graph)

  /** build_schema: only YAML schemas; the record is `index.ttl` in the build copy of the schema's
      directory, rebuilt only when stale. `load` is yaml_load, `summarize` get_semantic_summary. */
  function BuildSchema(fs: Fs, fpath: Path, buildpath: Path, load: Result<Json>, show: Json -> string,
                       summarize: Json -> Result<Summary>, today: string): (r: Result<Option<Record>>)
    requires fpath in fs
    ensures Suffix(Name(fpath)) != ".yaml" ==> r == Raise("Not a yaml file: " + AsPosix(fpath))
    ensures r.Ok? && r.value.Some? ==>
      r.value.value.target == Child(Concat(buildpath, Parent(fpath)), "index.ttl") &&
      IsRecentThan(fs, fpath, r.value.value.target)
  {
    if Suffix(Name(fpath)) != ".yaml" then Raise("Not a yaml file: " + AsPosix(fpath))
    else match load
      case Raise(e) => Raise(e)
      case Ok(schema) =>
        var dpath := Child(Concat(buildpath, Parent(fpath)), "index.ttl");
        if !IsRecentThan(fs, fpath, dpath) then Ok(None)
        else match ReferencesOf(schema, show, ContextReferences(Contexts(schema), summarize))
          case Raise(e) => Raise(e)
          case Ok(refs) =>
            Ok(Some(Record(dpath, DatasetGraph(Publication.Uri(fpath), Publication.DownloadUrl(fpath),
                                               Publication.AccessUrl(fpath), refs, today))))
  }

  /** A fresh record is left alone; a stale one describes the schema at its published URI. */
  lemma BuildSchemaMeaning(fs: Fs, fpath: Path, buildpath: Path, schema: Json, show: Json -> string,
                           summarize: Json -> Result<Summary>, today: string)
    requires fpath in fs && Suffix(Name(fpath)) == ".yaml"
    ensures var dpath := Child(Concat(buildpath, Parent(fpath)), "index.ttl");
      var r := BuildSchema(fs, fpath, buildpath, Ok(schema), show, summarize, today);
      && (!IsRecentThan(fs, fpath, dpath) ==> r == Ok(None))
      && (IsRecentThan(fs, fpath, dpath) && ContextReferences(Contexts(schema), summarize).Ok? ==>
            r.Ok? && r.value.Some? &&
            Triple(Iri(Publication.Uri(fpath)), DcatDistribution, Iri(Publication.DownloadUrl(fpath))) in r.value.value.graph)
  {
  }

  // ---- playground/schema.py ----

  /** Where the playground version reads semantic information: a `x-refersTo` term to download, or
      a context to normalise. */
  datatype Source = RefersTo(term: Json) | Context(context: Json)

  /** The shared graph the playground version parses every source into, in order; the first
      failing source stops it. `fetch` downloads and parses a referenced term, `normalize` parses
      the normalised context. */
  function Shared(sources: seq<Source>, fetch: Json -> Result<Graph>, normalize: Json -> Result<Graph>): Result<Graph>
    decreases |sources|
  {
    if sources == [] then Ok({})
    else
      match Shared(sources[..|sources| - 1], fetch, normalize)
      case Raise(e) => Raise(e)
      case Ok(g) =>
        var last := sources[|sources| - 1];
        var parsed := if last.RefersTo? then fetch(last.term) else normalize(last.context);
        match parsed
        case Raise(e) => Raise(e)
        case Ok(h) => Ok(g + h)
  }

  function Parse(s: Source, fetch: Json -> Result<Graph>, normalize: Json -> Result<Graph>): Result<Graph>
  {
    if s.RefersTo? then fetch(s.term) else normalize(s.context)
  }

  /** The shared graph is the union of what every source parses to. */
  lemma {:induction false} SharedMeaning(sources: seq<Source>, fetch: Json -> Result<Graph>, normalize: Json -> Result<Graph>)
    requires Shared(sources, fetch, normalize).Ok?
    ensures forall k :: 0 <= k < |sources| ==> Parse(sources[k], fetch, normalize).Ok?
    ensures forall t :: t in Shared(sources, fetch, normalize).value <==>
      exists k :: 0 <= k < |sources| && t in Parse(sources[k], fetch, normalize).value
    decreases |sources|
  {
    if sources != [] {
      var init := sources[..|sources| - 1];
      SharedMeaning(init, fetch, normalize);
      assert forall k :: 0 <= k < |init| ==> init[k] == sources[k];
    }
  }

  /** The sources in the order the playground version reads them: every `x-refersTo` at any
      depth, then every `x-jsonld-context`. */
  function Sources(schema: Json): seq<Source>
  {
    RefersToSources(Values(Found(schema, "x-refersTo", []))) + ContextSources(Contexts(schema))
  }

  function RefersToSources(vs: seq<Json>): (r: seq<Source>)
    ensures |r| == |vs| && forall k :: 0 <= k < |vs| ==> r[k] == RefersTo(vs[k])
  {
    if vs == [] then [] else [RefersTo(vs[0])] + RefersToSources(vs[1..])
  }

  function ContextSources(vs: seq<Json>): (r: seq<Source>)
    ensures |r| == |vs| && forall k :: 0 <= k < |vs| ==> r[k] == Context(vs[k])
  {
    if vs == [] then [] else [Context(vs[0])] + ContextSources(vs[1..])
  }

  const PlaygroundFields := [Field(["info", "title"], DctTitle), Field(["info", "description"], DctDescription),
                             Field(["info", "version"], OwlVersionInfo), Field(["info", "contact", "url"], DctRightsHolder)]

  /** get_semantic_references_from_oas3 of the playground version: the domains and ontologies of
      the whole shared graph, the present info fields (the contact URL as rights holder) and the
      accrual periodicity. */
  function PlaygroundReferences(schema: Json, show: Json -> string, fetch: Json -> Result<Graph>,
                                normalize: Json -> Result<Graph>): Result<(Summary, seq<Entry>)>
  {
    match Shared(Sources(schema), fetch, normalize)
    case Raise(e) => Raise(e)
    case Ok(g) => Ok((SummaryOf(g), FoundFields(schema, PlaygroundFields, show) + [Entry(DctAccrual, Iri(Irregular))]))
  }

  /** The playground loops: each parsed source joins the shared graph, and the domains and
      ontologies are re-read from the whole graph after every source. */
  method PlaygroundSemanticReferences(schema: Json, show: Json -> string, fetch: Json -> Result<Graph>,
                                      normalize: Json -> Result<Graph>) returns (r: Result<(Summary, seq<Entry>)>)
    ensures r == PlaygroundReferences(schema, show, fetch, normalize)
  {
    var entries := FoundFields(schema, PlaygroundFields, show) + [Entry(DctAccrual, Iri(Irregular))];
    var parsed := ParseSources(Sources(schema), fetch, normalize);
    if parsed.Raise? {
      return Raise(parsed.error);
    }
    r := Ok((parsed.value.1, entries));
  }

  /** The two parsing loops over the sources, re-reading domains and ontologies after each. */
  method ParseSources(sources: seq<Source>, fetch: Json -> Result<Graph>, normalize: Json -> Result<Graph>)
    returns (r: Result<(Graph, Summary)>)
    ensures Shared(sources, fetch, normalize).Raise? ==> r == Raise(Shared(sources, fetch, normalize).error)
    ensures Shared(sources, fetch, normalize).Ok? ==>
      r == Ok((Shared(sources, fetch, normalize).value, SummaryOf(Shared(sources, fetch, normalize).value)))
  {
    var g: Graph := {};
    var domains: set<Term> := {};
    var ontologies: set<Term> := {};
    for i := 0 to |sources|
      invariant Shared(sources[..i], fetch, normalize) == Ok(g)
      invariant domains == ObjectsOf(g, RdfsDomain) && ontologies == ObjectsOf(g, RdfsIsDefinedBy)
    {
      assert sources[..i + 1][..i] == sources[..i];
      var parsed := Parse(sources[i], fetch, normalize);
      if parsed.Raise? {
        SharedStop(sources, i + 1, fetch, normalize);
        return Raise(parsed.error);
      }
      var h := g + parsed.value;
      ObjectsGrow(g, parsed.value, RdfsDomain);
      ObjectsGrow(g, parsed.value, RdfsIsDefinedBy);
      domains := domains + ObjectsOf(h, RdfsDomain);
      ontologies := ontologies + ObjectsOf(h, RdfsIsDefinedBy);
      g := h;
    }
    assert sources[..|sources|] == sources;
    r := Ok((g, Summary(domains, ontologies)));
  }

  lemma ObjectsGrow(g: Graph, h: Graph, p: string)
    ensures ObjectsOf(g, p) <= ObjectsOf(g + h, p)
  {
  }

  lemma {:induction false} SharedStop(sources: seq<Source>, n: nat, fetch: Json -> Result<Graph>, normalize: Json -> Result<Graph>)
    requires n <= |sources| && Shared(sources[..n], fetch, normalize).Raise?
    ensures Shared(sources, fetch, normalize) == Shared(sources[..n], fetch, normalize)
    decreases |sources| - n
  {
    if n < |sources| {
      assert sources[..n + 1][..n] == sources[..n];
      SharedStop(sources, n + 1, fetch, normalize);
    } else {
      assert sources[..n] == sources;
    }
  }

  /** oas3_to_turtle of the playground version: the rights holder only when given a non-empty
      one, and no agent description. */
  function PlaygroundGraph(ds: string, dist: string, access: string, summary: Summary, entries: seq<Entry>,
                           rightsholder: Option<string>, today: string): Graph
  {
    Described(ds, entries, summary.ontologies, summary.domains)
    + (if rightsholder.Some? && rightsholder.value != "" then {Triple(Iri(ds), DctRightsHolder, Iri(rightsholder.value))} else {})
    + DistributionTriples(ds, dist, access, today, DcataptNs)
  }

  /** With no rights holder argument, a rights-holder triple appears only from the schema's own
      contact URL, as a literal. */
  lemma PlaygroundGraphMeaning(ds: string, dist: string, access: string, summary: Summary, entries: seq<Entry>,
                               today: string, h: string)
    requires forall e :: e in entries ==> e.value.Literal? || e.property == DctAccrual
    ensures Triple(Iri(ds), DctRightsHolder, Iri(h)) in PlaygroundGraph(ds, dist, access, summary, entries, Some(h), today) <==> h != ""
    ensures Triple(Iri(ds), DctRightsHolder, Iri(h)) !in PlaygroundGraph(ds, dist, access, summary, entries, None, today)
  {
  }

  method PlaygroundOas3ToTurtle(ds: string, dist: string, access: string, summary: Summary, entries: seq<Entry>,
                                rightsholder: Option<string>, today: string) returns (g: Graph)
    ensures g == PlaygroundGraph(ds, dist, access, summary, entries, rightsholder, today)
  {
    g := Describe(ds, entries, summary.ontologies, summary.domains);
    if rightsholder.Some? && rightsholder.value != "" {
      g := g + {Triple(Iri(ds), DctRightsHolder, Iri(rightsholder.value))};
    }
    g := g + DistributionTriples(ds, dist, access, today, DcataptNs);
  }
}
