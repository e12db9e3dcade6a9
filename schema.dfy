/** Semantic references of annotated OpenAPI schemas: which ontology terms a JSON-LD context
    uses, where their definitions come from, and what a schema covers. */
module Semantic {
  import opened Wrappers
  import opened Strings
  import opened JsonValues
  import opened Rdf

  const ItaliaNs := "https://w3id.org/italia/"
  const OntopiaHost := "https://ontopia-lodview.agid.gov.it/"
  const RdfsDomain := "http://www.w3.org/2000/01/rdf-schema#domain"
  const RdfsIsDefinedBy := "http://www.w3.org/2000/01/rdf-schema#isDefinedBy"

  /** str() of an RDF term. */
  function TermText(t: Term): string
  {
    match t
    case Iri(i) => i
    case Literal(l) => l
    case Blank(b) => b
  }

  // ---- get_asset ----

  /** The triples of the store whose subject is the IRI. */
  function About(store: Graph, uri: string): (r: Graph)
    ensures forall t :: t in r <==> t in store && t.s == Iri(uri)
  {
    set t | t in store && t.s == Iri(uri)
  }

  /** get_asset: the local definitions of the IRI when there are any (the first subject must also
      be truthy, so a non-empty IRI); otherwise the IRI with the namespace host rewritten is
      requested and the body parsed as Turtle into the same graph, either step raising out of the
      function. `store` is the merged local ontologies, `get` the HTTP request (the body, or the
      connection error) and `parseTurtle` rdflib's Turtle parser. */
  function GetAsset(store: Graph, get: string -> Result<string>, parseTurtle: string -> Result<Graph>, uri: string): (r: Result<Graph>)
  {
    var local := About(store, uri);
    if local != {} && uri != "" then Ok(local)
    else
      match get(ReplaceAll(uri, ItaliaNs, OntopiaHost))
      case Raise(e) => Raise(e)
      case Ok(body) =>
        match parseTurtle(body)
        case Raise(e) => Raise(e)
        case Ok(h) => Ok(local + h)
  }

  /** A term defined locally is never fetched; otherwise the outcome is that of requesting the
      ontopia host followed by the rest of the IRI and parsing the body as Turtle: a failed request
      or a body that is not Turtle raises. */
  lemma GetAssetMeaning(store: Graph, get: string -> Result<string>, parseTurtle: string -> Result<Graph>, rest: string)
    requires !Contains(rest, ItaliaNs)
    ensures About(store, ItaliaNs + rest) != {} ==>
      GetAsset(store, get, parseTurtle, ItaliaNs + rest) == Ok(About(store, ItaliaNs + rest))
    ensures About(store, ItaliaNs + rest) == {} ==>
      GetAsset(store, get, parseTurtle, ItaliaNs + rest) ==
        match get(OntopiaHost + rest)
        case Raise(e) => Raise(e)
        case Ok(body) => parseTurtle(body)
  {
    var ns, uri := ItaliaNs, ItaliaNs + rest;
    assert uri[..|ns|] == ns;
    assert uri[|ns|..] == rest;
    ReplaceAllAbsent(rest, ns, OntopiaHost);
    assert ReplaceAll(uri, ns, OntopiaHost) == OntopiaHost + rest;
    if About(store, uri) == {} {
      var fetched := get(OntopiaHost + rest);
      if fetched.Ok? && parseTurtle(fetched.value).Ok? {
        var h := parseTurtle(fetched.value).value;
        assert About(store, uri) + h == h;
      }
    }
  }

  // ---- get_schema_assets ----

  /** The predicates of the normalised context that lie under the allowed namespace. */
  function Expected(normalized: Graph, ns: string): (r: set<string>)
    ensures forall p :: p in r <==> StartsWith(p, ns) && exists t :: t in normalized && t.p == p
  {
    set t | t in normalized && StartsWith(t.p, ns) :: t.p
  }

  /** The expected predicates whose lookup raises. */
  function FailedLookups(expected: set<string>, asset: string -> Result<Graph>): (r: set<string>)
    ensures forall p :: p in r <==> p in expected && asset(p).Raise?
  {
    set p | p in expected && asset(p).Raise?
  }

  /** The union of the definitions fetched for the expected predicates. */
  function Dependencies(expected: set<string>, asset: string -> Result<Graph>): (r: Graph)
    ensures forall t :: t in r <==> exists p :: p in expected && asset(p).Ok? && t in asset(p).value
  {
    set p, t | p in expected && asset(p).Ok? && t in asset(p).value :: t
  }

  /** Expected predicates that are not a subject of the fetched definitions. */
  function Missing(expected: set<string>, deps: Graph): set<string>
  {
    set p | p in expected && Iri(p) !in Subjects(deps)
  }

  /** A missing term is forgiven when it occurs inside some fetched subject. */
  predicate Tolerated(m: string, deps: Graph)
  {
    exists y :: y in Subjects(deps) && Contains(TermText(y), m)
  }

  function MissingMessage(shown: string, ns: string): string
  {
    "Missing dependencies for " + shown + " in (Namespace('" + ns + "'),)"
  }

  /** The check after every lookup has succeeded: the dependencies, or the missing-dependencies
      error when some missing term is not forgiven. `showSet` is Python's repr of a set of IRIs
      (its order is the set's hash order). */
  function Closure(expected: set<string>, deps: Graph, ns: string, showSet: set<string> -> string): Result<Graph>
  {
    var missing := Missing(expected, deps);
    if exists m :: m in missing && !Tolerated(m, deps) then Raise(MissingMessage(showSet(missing), ns))
    else Ok(deps)
  }

  /** get_schema_assets. `normalized` is the URDNA2015 normalisation of the context (or its error)
      and `asset` the memoised get_asset. The lookups run in the iteration order of a Python set,
      so when several raise, which error escapes is left open: it is that of some failing lookup. */
  predicate SchemaAssets(normalized: Result<Graph>, ns: string, asset: string -> Result<Graph>,
                         showSet: set<string> -> string, r: Result<Graph>)
  {
    match normalized
    case Raise(e) => r == Raise(e)
    case Ok(g) =>
      var expected := Expected(g, ns);
      if FailedLookups(expected, asset) != {} then
        r.Raise? && exists p :: p in FailedLookups(expected, asset) && r.error == asset(p).error
      else r == Closure(expected, Dependencies(expected, asset), ns, showSet)
  }

  /** The closure succeeds iff every lookup succeeds and every expected term is defined by the
      fetched graphs or occurs inside one of their subjects; it then holds every fetched definition
      and nothing else. It raises the error of a failing lookup when there is one, and otherwise
      the missing-dependencies error. */
  lemma SchemaAssetsMeaning(g: Graph, ns: string, asset: string -> Result<Graph>, showSet: set<string> -> string, r: Result<Graph>)
    requires SchemaAssets(Ok(g), ns, asset, showSet, r)
    ensures var deps := Dependencies(Expected(g, ns), asset);
      && (r.Ok? <==>
            && (forall p :: p in Expected(g, ns) ==> asset(p).Ok?)
            && forall p :: p in Expected(g, ns) ==> Iri(p) in Subjects(deps) || Tolerated(p, deps))
      && (r.Ok? ==> forall t :: t in r.value <==> exists p :: p in Expected(g, ns) && t in asset(p).value)
      && (r.Raise? && FailedLookups(Expected(g, ns), asset) != {} ==>
            exists p :: p in Expected(g, ns) && asset(p).Raise? && r.error == asset(p).error)
      && (r.Raise? && FailedLookups(Expected(g, ns), asset) == {} ==>
            r.error == MissingMessage(showSet(Missing(Expected(g, ns), deps)), ns))
  {
    var expected := Expected(g, ns);
    var deps := Dependencies(expected, asset);
    if FailedLookups(expected, asset) != {} {
      var p :| p in FailedLookups(expected, asset);
      assert !asset(p).Ok?;
    } else if r.Ok? {
      forall p | p in expected
        ensures Iri(p) in Subjects(deps) || Tolerated(p, deps)
      {
        if Iri(p) !in Subjects(deps) {
          assert p in Missing(expected, deps);
        }
      }
    }
  }

  /** get_schema_assets: the lookup loop, then the search for a missing term that no subject
      contains. */
  method GetSchemaAssets(normalized: Result<Graph>, ns: string, asset: string -> Result<Graph>, showSet: set<string> -> string)
    returns (r: Result<Graph>)
    ensures SchemaAssets(normalized, ns, asset, showSet, r)
  {
    if normalized.Raise? {
      return Raise(normalized.error);
    }
    var expected := Expected(normalized.value, ns);
    var fetched := FetchAll(expected, asset);
    if fetched.Raise? {
      return Raise(fetched.error);
    }
    var deps := fetched.value;
    var missing := Missing(expected, deps);
    var left := missing;
    while left != {}
      invariant left <= missing
      invariant forall m :: m in missing - left ==> Tolerated(m, deps)
      decreases left
    {
      var m :| m in left;
      if !Tolerated(m, deps) {
        return Raise(MissingMessage(showSet(missing), ns));
      }
      left := left - {m};
    }
    r := Ok(deps);
  }

  /** `semantic_dependencies += get_asset(p)` for every expected predicate, in some order; the
      first lookup that raises ends the loop. */
  method FetchAll(expected: set<string>, asset: string -> Result<Graph>) returns (r: Result<Graph>)
    ensures r.Ok? <==> FailedLookups(expected, asset) == {}
    ensures r.Ok? ==> r.value == Dependencies(expected, asset)
    ensures r.Raise? ==> exists p :: p in FailedLookups(expected, asset) && r.error == asset(p).error
  {
    var deps := {};
    var left := expected;
    while left != {}
      invariant left <= expected
      invariant FailedLookups(expected - left, asset) == {}
      invariant deps == Dependencies(expected - left, asset)
      decreases left
    {
      var p :| p in left;
      var a := asset(p);
      if a.Raise? {
        assert p in FailedLookups(expected, asset);
        return Raise(a.error);
      }
      deps := deps + a.value;
      left := left - {p};
    }
    assert expected - left == expected;
    r := Ok(deps);
  }

  // ---- get_semantic_summary / get_context_references ----

  /** The classes named as domains and the ontologies the terms are defined by. */
  datatype Summary = Summary(domains: set<Term>, ontologies: set<Term>)

  function SummaryOf(g: Graph): (r: Summary)
    ensures forall d :: d in r.domains <==> exists t :: t in g && t.p == RdfsDomain && t.o == d
    ensures forall o :: o in r.ontologies <==> exists t :: t in g && t.p == RdfsIsDefinedBy && t.o == o
  {
    Summary(ObjectsOf(g, RdfsDomain), ObjectsOf(g, RdfsIsDefinedBy))
  }

  /** get_semantic_summary of one context, given how its closure turns out. */
  function SemanticSummary(assets: Result<Graph>): Result<Summary>
  {
    match assets
    case Raise(e) => Raise(e)
    case Ok(g) => Ok(SummaryOf(g))
  }

  /** One step of a JSONPath location: a mapping key or a list position. */
  datatype Step = Key(name: string) | At(index: nat)

  /** A match of `$..key`: where its enclosing mapping is, that mapping, and the value. */
  datatype Hit = Hit(path: seq<Step>, parent: seq<Member>, value: Json)

  /** The matches of the recursive-descent query `$..key`, in the order the query enumerates them:
      a mapping's own entry first, then every value below it, keys and list items in order. */
  function Found(j: Json, key: string, path: seq<Step>): seq<Hit>
    decreases j, 1
  {
    match j
    case Obj(ms) =>
      (match Get(ms, key) case Some(v) => [Hit(path, ms, v)] case None => []) + FoundInMembers(ms, key, path)
    case Arr(items) => FoundInItems(items, 0, key, path)
    case _ => []
  }

  function FoundInMembers(ms: seq<Member>, key: string, path: seq<Step>): seq<Hit>
    decreases ms, 0
  {
    if ms == [] then []
    else Found(ms[0].value, key, path + [Key(ms[0].key)]) + FoundInMembers(ms[1..], key, path)
  }

  function FoundInItems(items: seq<Json>, offset: nat, key: string, path: seq<Step>): seq<Hit>
    decreases items, 0
  {
    if items == [] then []
    else Found(items[0], key, path + [At(offset)]) + FoundInItems(items[1..], offset + 1, key, path)
  }

  /** Every match is an entry `key` of the mapping it reports. */
  lemma {:induction false} FoundAreEntries(j: Json, key: string, path: seq<Step>)
    ensures forall h :: h in Found(j, key, path) ==> Get(h.parent, key) == Some(h.value)
    decreases j, 1
  {
    match j
    case Obj(ms) => FoundInMembersAreEntries(ms, key, path);
    case Arr(items) => FoundInItemsAreEntries(items, 0, key, path);
    case _ =>
  }

  lemma {:induction false} FoundInMembersAreEntries(ms: seq<Member>, key: string, path: seq<Step>)
    ensures forall h :: h in FoundInMembers(ms, key, path) ==> Get(h.parent, key) == Some(h.value)
    decreases ms, 0
  {
    if ms != [] {
      FoundAreEntries(ms[0].value, key, path + [Key(ms[0].key)]);
      FoundInMembersAreEntries(ms[1..], key, path);
    }
  }

  lemma {:induction false} FoundInItemsAreEntries(items: seq<Json>, offset: nat, key: string, path: seq<Step>)
    ensures forall h :: h in FoundInItems(items, offset, key, path) ==> Get(h.parent, key) == Some(h.value)
    decreases items, 0
  {
    if items != [] {
      FoundAreEntries(items[0], key, path + [At(offset)]);
      FoundInItemsAreEntries(items[1..], offset + 1, key, path);
    }
  }

  /** The contexts of a schema: the values of `x-jsonld-context` at any depth. */
  function Contexts(schema: Json): seq<Json>
  {
    Values(Found(schema, "x-jsonld-context", []))
  }

  function Values(hits: seq<Hit>): (r: seq<Json>)
    ensures |r| == |hits|
    ensures forall k :: 0 <= k < |hits| ==> r[k] == hits[k].value
  {
    if hits == [] then [] else [hits[0].value] + Values(hits[1..])
  }

  /** get_context_references: the summaries of the contexts united in order; the first context
      whose closure fails stops the scan. `summarize` is get_semantic_summary. */
  function ContextReferences(contexts: seq<Json>, summarize: Json -> Result<Summary>): Result<Summary>
    decreases |contexts|
  {
    if contexts == [] then Ok(Summary({}, {}))
    else
      match ContextReferences(contexts[..|contexts| - 1], summarize)
      case Raise(e) => Raise(e)
      case Ok(acc) =>
        match summarize(contexts[|contexts| - 1])
        case Raise(e) => Raise(e)
        case Ok(s) => Ok(Summary(acc.domains + s.domains, acc.ontologies + s.ontologies))
  }

  /** When no context fails, the domains and ontologies are exactly those of some context; with no
      context at all both sets are empty. */
  lemma {:induction false} ContextReferencesMeaning(contexts: seq<Json>, summarize: Json -> Result<Summary>)
    requires ContextReferences(contexts, summarize).Ok?
    ensures forall k :: 0 <= k < |contexts| ==> summarize(contexts[k]).Ok?
    ensures forall d :: d in ContextReferences(contexts, summarize).value.domains <==>
      exists k :: 0 <= k < |contexts| && d in summarize(contexts[k]).value.domains
    ensures forall o :: o in ContextReferences(contexts, summarize).value.ontologies <==>
      exists k :: 0 <= k < |contexts| && o in summarize(contexts[k]).value.ontologies
    decreases |contexts|
  {
    if contexts != [] {
      var init := contexts[..|contexts| - 1];
      ContextReferencesMeaning(init, summarize);
      assert forall k :: 0 <= k < |init| ==> init[k] == contexts[k];
    }
  }

  /** get_context_references, uniting the summaries one context at a time. */
  method GetContextReferences(contexts: seq<Json>, summarize: Json -> Result<Summary>) returns (r: Result<Summary>)
    ensures r == ContextReferences(contexts, summarize)
  {
    var domains: set<Term> := {};
    var ontologies: set<Term> := {};
    for i := 0 to |contexts|
      invariant ContextReferences(contexts[..i], summarize) == Ok(Summary(domains, ontologies))
    {
      assert contexts[..i + 1][..i] == contexts[..i];
      var s := summarize(contexts[i]);
      if s.Raise? {
        ReferencesStop(contexts, i + 1, summarize);
        return Raise(s.error);
      }
      domains := domains + s.value.domains;
      ontologies := ontologies + s.value.ontologies;
    }
    assert contexts[..|contexts|] == contexts;
    r := Ok(Summary(domains, ontologies));
  }

  /** Once a context fails, the outcome no longer changes. */
  lemma {:induction false} ReferencesStop(contexts: seq<Json>, n: nat, summarize: Json -> Result<Summary>)
    requires n <= |contexts| && ContextReferences(contexts[..n], summarize).Raise?
    ensures ContextReferences(contexts, summarize) == ContextReferences(contexts[..n], summarize)
    decreases |contexts| - n
  {
    if n < |contexts| {
      assert contexts[..n + 1][..n] == contexts[..n];
      ReferencesStop(contexts, n + 1, summarize);
    } else {
      assert contexts[..n] == contexts;
    }
  }

  // ---- get_context_jsonpointer / _dump ----

  /** The location of a JSONPath match: field and index nodes joined by child nodes. */
  datatype JsonPath = Fields(name: string) | Index(i: nat) | ChildOf(left: JsonPath, right: JsonPath)

  function StepPath(s: Step): JsonPath
  {
    match s
    case Key(n) => Fields(n)
    case At(i) => Index(i)
  }

  /** The full path of a match: each step becomes the right child of the path before it. */
  function FullPath(steps: seq<Step>): JsonPath
    requires steps != []
  {
    if |steps| == 1 then StepPath(steps[0])
    else ChildOf(FullPath(steps[..|steps| - 1]), StepPath(steps[|steps| - 1]))
  }

  /** _dump: the leaves of the path, left to right; an index node has no field name. */
  function Dump(t: JsonPath): Result<seq<string>>
  {
    match t
    case Fields(n) => Ok([n])
    case Index(_) => Raise("'Index' object has no attribute 'fields'")
    case ChildOf(l, r) =>
      match Dump(l)
      case Raise(e) => Raise(e)
      case Ok(a) => (match Dump(r) case Raise(e) => Raise(e) case Ok(b) => Ok(a + b))
  }

  /** get_context_jsonpointer: "#/" and the names of the enclosing mapping's location, joined by
      "/"; a context at the top of the document has no enclosing path. */
  function JsonPointer(h: Hit, key: string): Result<string>
  {
    var full := FullPath(h.path + [Key(key)]);
    match full
    case ChildOf(left, _) =>
      (match Dump(left) case Raise(e) => Raise(e) case Ok(names) => Ok("#/" + Join(names, "/")))
    case _ => Raise("'Fields' object has no attribute 'left'")
  }

  predicate AllKeys(steps: seq<Step>) { forall k :: 0 <= k < |steps| ==> steps[k].Key? }

  function Names(steps: seq<Step>): (r: seq<string>)
    requires AllKeys(steps)
    ensures |r| == |steps|
    ensures forall k :: 0 <= k < |steps| ==> r[k] == steps[k].name
  {
    if steps == [] then [] else Names(steps[..|steps| - 1]) + [steps[|steps| - 1].name]
  }

  /** The leaves of a full path are its step names, in order; an index step makes it fail. */
  lemma {:induction false} DumpFullPath(steps: seq<Step>)
    requires steps != []
    ensures AllKeys(steps) ==> Dump(FullPath(steps)) == Ok(Names(steps))
    ensures !AllKeys(steps) ==> Dump(FullPath(steps)) == Raise("'Index' object has no attribute 'fields'")
    decreases |steps|
  {
    if |steps| > 1 {
      var init := steps[..|steps| - 1];
      DumpFullPath(init);
      assert forall k :: 0 <= k < |init| ==> init[k] == steps[k];
      if !AllKeys(steps) && AllKeys(init) {
        assert !steps[|steps| - 1].Key?;
      }
    } else {
      assert steps[..0] == [];
      assert AllKeys(steps) ==> Names(steps) == [steps[0].name];
    }
  }

  /** The JSON pointer of a match below the top level names the keys leading to its mapping; when no key
      holds a "/", splitting the JSON pointer after "#/" gives those keys back. */
  lemma JsonPointerMeaning(h: Hit, key: string)
    ensures h.path == [] ==> JsonPointer(h, key) == Raise("'Fields' object has no attribute 'left'")
    ensures h.path != [] && !AllKeys(h.path) ==> JsonPointer(h, key) == Raise("'Index' object has no attribute 'fields'")
    ensures h.path != [] && AllKeys(h.path) ==> JsonPointer(h, key) == Ok("#/" + Join(Names(h.path), "/"))
    ensures h.path != [] && AllKeys(h.path) && (forall k :: 0 <= k < |h.path| ==> '/' !in h.path[k].name) ==>
      Split(JsonPointer(h, key).value[2..], '/') == Names(h.path)
  {
    var steps := h.path + [Key(key)];
    if h.path != [] {
      assert steps[..|steps| - 1] == h.path;
      DumpFullPath(h.path);
      if AllKeys(h.path) && (forall k :: 0 <= k < |h.path| ==> '/' !in h.path[k].name) {
        var p := "#/" + Join(Names(h.path), "/");
        assert p[2..] == Join(Names(h.path), "/");
        SplitJoin(Names(h.path), '/');
      }
    } else {
      assert steps == [Key(key)];
    }
  }
}
