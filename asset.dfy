/** The Asset class of asset.py: type classification by suffix, parsing (with the OpenAPI
    retyping), validation dispatch, the SHACL rules search, and the build outputs. */
module AssetModel {
  import opened Wrappers
  import opened Strings
  import opened Paths
  import opened FileSystem
  import opened Rdf
  import JsonValues
  import RuleLookup
  import Build

  /** What `self.g` holds after parse: the loaded YAML document (None for an empty file), the RDF
      graph, or the path of a CSV file. */
  datatype Payload = Unparsed | Document(doc: JsonValues.Json) | Parsed(graph: Graph) | DataFile(file: Path)

  /** The values the `type` argument may take besides None. */
  const AcceptedTypes: seq<string> := ["jsonschema", "graph", "oas3", "csv"]

  function UnsupportedType(t: string): string { "Unsupported asset type: " + t }
  function UnsupportedSuffix(s: string): string { "Unsupported file suffix: " + s }

  /** `__init__`'s choice of `self.type`: an explicit type must be one of the accepted ones and
      then wins; otherwise the name's ending decides, schema endings first. */
  function Classify(requested: Option<string>, name: string): (r: Result<string>)
  {
    if requested.Some? && requested.value !in AcceptedTypes then Raise(UnsupportedType(requested.value))
    else if requested.Some? then Ok(requested.value)
    else if EndsWithAny(name, [".yaml", ".yml", ".json"]) then Ok("schema")
    else if EndsWithAny(name, [".ttl", ".jsonld"]) then Ok("graph")
    else if EndsWith(name, ".csv") then Ok("csv")
    else Raise(UnsupportedSuffix(name))
  }

  /** The classification in full: an accepted explicit type always wins, an unknown one is
      refused; without one, every name gets exactly one of schema, graph or csv by its ending,
      or is refused. */
  lemma ClassifyMeaning(requested: Option<string>, name: string)
    ensures requested.Some? ==>
      (Classify(requested, name).Ok? <==> requested.value in AcceptedTypes) &&
      (requested.value in AcceptedTypes ==> Classify(requested, name) == Ok(requested.value))
    ensures requested.None? ==>
      (Classify(requested, name) == Ok("schema") <==>
        EndsWith(name, ".yaml") || EndsWith(name, ".yml") || EndsWith(name, ".json"))
    ensures requested.None? ==>
      (Classify(requested, name) == Ok("graph") <==>
        !EndsWithAny(name, [".yaml", ".yml", ".json"]) && (EndsWith(name, ".ttl") || EndsWith(name, ".jsonld")))
    ensures requested.None? ==>
      (Classify(requested, name) == Ok("csv") <==>
        !EndsWithAny(name, [".yaml", ".yml", ".json", ".ttl", ".jsonld"]) && EndsWith(name, ".csv"))
    ensures requested.None? && Classify(requested, name).Raise? ==>
      Classify(requested, name).error == UnsupportedSuffix(name)
  {
    var s3 := [".yaml", ".yml", ".json"];
    var s2 := [".ttl", ".jsonld"];
    var s5 := [".yaml", ".yml", ".json", ".ttl", ".jsonld"];
    assert EndsWithAny(name, s3) <==> EndsWith(name, s3[0]) || EndsWith(name, s3[1]) || EndsWith(name, s3[2]);
    assert EndsWithAny(name, s2) <==> EndsWith(name, s2[0]) || EndsWith(name, s2[1]);
    assert EndsWithAny(name, s5) <==> EndsWithAny(name, s3) || EndsWithAny(name, s2) by {
      assert s5 == s3 + s2;
      assert forall k :: 0 <= k < 5 ==> s5[k] == (if k < 3 then s3[k] else s2[k - 3]);
      if EndsWithAny(name, s5) {
        var k :| 0 <= k < 5 && EndsWith(name, s5[k]);
        if k >= 3 {
          assert EndsWith(name, s2[k - 3]);
        }
      }
      if EndsWithAny(name, s2) {
        var k :| 0 <= k < 2 && EndsWith(name, s2[k]);
        assert EndsWith(name, s5[k + 3]);
      }
    }
  }

  /** parse: the new type and payload, and the exception if one is raised. */
  datatype ParseStep = ParseStep(result: Result<()>, kind: string, g: Payload)

  /** `document` is yaml.safe_load of the file's text and `graph` is parse_graph of the path;
      each is consulted only for its own type. The loaded document is stored before the
      `"openapi" in self.g` test, which raises on a document that is not a container. */
  function ParseOutcome(kind: string, path: Path, g: Payload, document: Result<JsonValues.Json>, graph: Result<Graph>): ParseStep
  {
    if kind == "schema" then
      if document.Raise? then ParseStep(Raise(document.error), kind, g)
      else
        match JsonValues.Includes(document.value, "openapi")
        case Raise(e) => ParseStep(Raise(e), kind, Document(document.value))
        case Ok(b) => ParseStep(Ok(()), if b then "oas3" else kind, Document(document.value))
    else if kind == "graph" then
      if graph.Raise? then ParseStep(Raise(graph.error), kind, g)
      else ParseStep(Ok(()), kind, Parsed(graph.value))
    else if kind == "csv" then ParseStep(Ok(()), kind, DataFile(path))
    else ParseStep(Raise(UnsupportedSuffix(Name(path))), kind, g)
  }

  /** Parsing changes the type only from schema to oas3, and exactly when the document includes
      "openapi" (a top-level key of a mapping, an element of a list, a substring of a string); an
      explicitly given jsonschema or oas3 asset cannot be parsed and keeps its payload. */
  lemma ParseRetypes(kind: string, path: Path, g: Payload, document: Result<JsonValues.Json>, graph: Result<Graph>)
    ensures var step := ParseOutcome(kind, path, g, document, graph);
      && (step.kind != kind <==> kind == "schema" && document.Ok? && JsonValues.Includes(document.value, "openapi") == Ok(true))
      && (step.kind != kind ==> step.kind == "oas3")
      && (kind == "jsonschema" || kind == "oas3" ==> step.result == Raise(UnsupportedSuffix(Name(path))) && step.g == g)
  {
    if kind != "schema" {
      assert ParseOutcome(kind, path, g, document, graph).kind == kind;
    }
  }

  /** A failed parse leaves the payload as it was, except that a loaded document which is not a
      container is stored before its membership test raises TypeError: an empty file (None)
      raises with the payload already replaced. */
  lemma ParseFailureStores(kind: string, path: Path, g: Payload, document: Result<JsonValues.Json>, graph: Result<Graph>)
    ensures var step := ParseOutcome(kind, path, g, document, graph);
      && (step.result.Raise? && step.g != g ==>
            kind == "schema" && document.Ok? && !JsonValues.Iterable(document.value) && step.g == Document(document.value))
      && (kind == "schema" && document == Ok(JsonValues.Null) ==>
            step == ParseStep(Raise("argument of type 'NoneType' is not iterable"), kind, Document(JsonValues.Null)))
  {
    if kind == "schema" && document == Ok(JsonValues.Null) {
      assert JsonValues.NotIterable(JsonValues.Null) == "argument of type 'NoneType' is not iterable";
    }
  }

  /** The validator chosen for a type: v_map has no entry for jsonschema. */
  datatype Validator = CheckSchema | ValidateSpec | ValidateShacl | IsCsv

  function ValidatorFor(kind: string): (r: Result<Validator>)
    ensures r.Raise? <==> kind !in {"schema", "oas3", "graph", "csv"}
    ensures r.Raise? ==> r.error == UnsupportedSuffix(kind)
  {
    if kind == "schema" then Ok(CheckSchema)
    else if kind == "oas3" then Ok(ValidateSpec)
    else if kind == "graph" then Ok(ValidateShacl)
    else if kind == "csv" then Ok(IsCsv)
    else Raise(UnsupportedSuffix(kind))
  }

  /** _validate_shacl after the search: pyshacl's exception or a non-conformance (raised as
      ValueError carrying the report text) propagates. */
  function ShaclOutcome(validation: Result<RuleLookup.Conformance>): (r: Result<()>)
    ensures r.Ok? <==> validation.Ok? && validation.value.conforms
    ensures validation.Ok? && !validation.value.conforms ==> r == Raise(validation.value.reportText)
  {
    match validation
    case Raise(e) => Raise(e)
    case Ok(c) => if c.conforms then Ok(()) else Raise(c.reportText)
  }

  /** The outcome of _validate_shacl for an asset at `path` holding `g`, given the loader's cache
      before the call. */
  function ShaclRulesOutcome(fs: Fs, cwd: Path, path: Path, g: Payload, table: map<string, Graph>,
                             load: string -> Result<Graph>,
                             pyshacl: (Payload, Option<Graph>) -> Result<RuleLookup.Conformance>): Result<()>
    requires cwd.absolute
  {
    var lookup := RuleLookup.Search(fs, Parent(path), RuleLookup.AtNameless, RuleLookup.MaxDepth);
    if lookup.found.None? then ShaclOutcome(pyshacl(g, None))
    else
      var key := RuleLookup.RulesPathString(cwd, lookup.found.value);
      var loaded := if key in table then Ok(table[key]) else load(key);
      if loaded.Raise? then Raise(loaded.error) else ShaclOutcome(pyshacl(g, Some(loaded.value)))
  }

  /** A relative asset path is searched up to its top directory and then ".", which stops the
      search: a file two directories deep examines at most three directories. */
  lemma ShaclSearchStopsAtDot(fs: Fs, a: string, b: string, n: string)
    requires IsComponent(a) && IsComponent(b) && IsComponent(n)
    ensures var lookup := RuleLookup.Search(fs, Parent(Path(false, [a, b, n])), RuleLookup.AtNameless, RuleLookup.MaxDepth);
      |lookup.examined| <= 3 &&
      (lookup.found.Some? ==> lookup.found.value in {Path(false, [a, b]), Path(false, [a]), Path(false, [])})
  {
    var d := Path(false, [a, b]);
    assert Path(false, [a, b, n]).parts[..2] == [a, b];
    assert Parent(Path(false, [a, b, n])) == d;
    var stop := RuleLookup.AtNameless;
    RuleLookup.SearchShape(fs, d, stop, RuleLookup.MaxDepth);
    var ex := RuleLookup.Search(fs, d, stop, RuleLookup.MaxDepth).examined;
    assert RuleLookup.Ancestor(d, 1) == Path(false, [a]);
    assert RuleLookup.Ancestor(d, 2) == Path(false, []);
    assert ex != [];
    assert RuleLookup.Last(ex) == ex[|ex| - 1] == RuleLookup.Ancestor(d, |ex| - 1);
    assert RuleLookup.Ancestor(d, 0) == d;
    if |ex| == 1 {
      assert RuleLookup.Last(ex) == d;
    } else if |ex| == 2 {
      assert RuleLookup.Last(ex) == Path(false, [a]);
    } else {
      assert RuleLookup.Last(ex) == Path(false, []);
    }
  }

  class Asset {
    var path: Path
    /** `self.type`. */
    var kind: string
    /** `self.g`. */
    var g: Payload

    constructor(path: Path, kind: string)
      ensures this.path == path && this.kind == kind && g == Unparsed
    {
      this.path := path;
      this.kind := kind;
      g := Unparsed;
    }

    /** parse. */
    method Parse(document: Result<JsonValues.Json>, graph: Result<Graph>) returns (r: Result<()>)
      modifies this
      ensures var step := ParseOutcome(old(kind), old(path), old(g), document, graph);
        r == step.result && kind == step.kind && g == step.g && path == old(path)
    {
      if kind == "schema" {
        if document.Raise? {
          return Raise(document.error);
        }
        g := Document(document.value);
        var openapi := JsonValues.Includes(document.value, "openapi");
        if openapi.Raise? {
          return Raise(openapi.error);
        }
        if openapi.value {
          kind := "oas3";
        }
        return Ok(());
      }
      if kind == "graph" {
        if graph.Raise? {
          return Raise(graph.error);
        }
        g := Parsed(graph.value);
        return Ok(());
      }
      if kind == "csv" {
        g := DataFile(path);
        return Ok(());
      }
      return Raise(UnsupportedSuffix(Name(path)));
    }

    /** _validate_shacl: the nearest `rules.shacl` within MAX_DEPTH directories from the asset's
        directory, stopping after a directory with an empty name (the relative path's "."). The
        rules graph comes through the memoised loader, whose error propagates. */
    method ValidateShaclRules(fs: Fs, cwd: Path, cache: Memo, load: string -> Result<Graph>,
                              pyshacl: (Payload, Option<Graph>) -> Result<RuleLookup.Conformance>)
      returns (r: Result<()>)
      requires cwd.absolute
      modifies cache
      ensures r == ShaclRulesOutcome(fs, cwd, path, g, old(cache.table), load, pyshacl)
    {
      var found, examined := RuleLookup.FindRules(fs, Parent(path), RuleLookup.AtNameless, RuleLookup.MaxDepth);
      var shapes: Option<Graph> := None;
      if found.Some? {
        var key := RuleLookup.RulesPathString(cwd, found.value);
        var loaded := RuleLookup.GetShaclGraph(cache, key, load);
        if loaded.Raise? {
          return Raise(loaded.error);
        }
        shapes := Some(loaded.value);
      }
      r := ShaclOutcome(pyshacl(g, shapes));
    }

    /** validate: dispatch on the type; the library validators are parameters. */
    method Validate(fs: Fs, cwd: Path, cache: Memo, load: string -> Result<Graph>,
                    checkSchema: Payload -> Result<()>, validateSpec: Payload -> Result<()>,
                    pyshacl: (Payload, Option<Graph>) -> Result<RuleLookup.Conformance>,
                    isCsv: Payload -> Result<()>)
      returns (r: Result<()>)
      requires cwd.absolute
      modifies cache
      ensures ValidatorFor(kind).Raise? ==> r == Raise(ValidatorFor(kind).error)
      ensures ValidatorFor(kind) == Ok(CheckSchema) ==> r == checkSchema(g)
      ensures ValidatorFor(kind) == Ok(ValidateSpec) ==> r == validateSpec(g)
      ensures ValidatorFor(kind) == Ok(IsCsv) ==> r == isCsv(g)
      ensures ValidatorFor(kind) == Ok(ValidateShacl) ==>
        r == ShaclRulesOutcome(fs, cwd, path, g, old(cache.table), load, pyshacl)
    {
      var v := ValidatorFor(kind);
      if v.Raise? {
        return Raise(v.error);
      }
      match v.value {
        case CheckSchema => r := checkSchema(g);
        case ValidateSpec => r := validateSpec(g);
        case IsCsv => r := isCsv(g);
        case ValidateShacl => r := ValidateShaclRules(fs, cwd, cache, load, pyshacl);
      }
    }

    /** _build_graph: `.rdf` then `.jsonld` beside `dest_dir / path` (or `dest_dir / name` when
        the tree is not preserved), each written only when stale; the written paths in order. */
    method BuildGraph(fs: Fs, dest: Path, preserveTree: bool) returns (built: seq<Path>)
      requires path in fs && Name(path) != ""
      ensures built == Build.StaleTargets(fs, path, GraphTargets(dest, path, preserveTree))
    {
      built := Build.WriteStale(fs, path, GraphTargets(dest, path, preserveTree));
    }

    /** _build_schema: the JSON (or JSON-LD) file written, with the same naming as the build
        tool but no check of the suffix. */
    function SchemaTarget(dest: Path): (r: Path)
      reads this
      requires Name(path) != ""
      ensures Parent(r) == Concat(dest, Parent(path))
      ensures Name(r) == Build.JsonName(Name(path))
    {
      Build.JsonTarget(dest, path)
    }
  }

  /** The two graph outputs of _build_graph. */
  function GraphTargets(dest: Path, path: Path, preserveTree: bool): (r: seq<Path>)
    requires Name(path) != ""
    ensures |r| == 2
    ensures preserveTree ==> Parent(r[0]) == Parent(Concat(dest, path))
    ensures !preserveTree ==> Parent(r[0]) == dest && Parent(r[1]) == dest
    ensures Name(r[0]) == Stem(Name(path)) + ".rdf" && Name(r[1]) == Stem(Name(path)) + ".jsonld"
  {
    var base := if preserveTree then Concat(dest, path) else Child(dest, Name(path));
    assert Name(base) == Name(path);
    [WithSuffix(base, ".rdf"), WithSuffix(base, ".jsonld")]
  }

  /** __init__: the classification's exception, or a fresh unparsed asset of the chosen type. The
      repository-relative rewriting of the path is left to the caller. */
  method NewAsset(path: Path, requested: Option<string>) returns (r: Result<Asset>)
    ensures r.Raise? <==> Classify(requested, Name(path)).Raise?
    ensures r.Raise? ==> r.error == Classify(requested, Name(path)).error
    ensures r.Ok? ==> fresh(r.value)
    ensures r.Ok? ==> r.value.path == path && r.value.g == Unparsed && r.value.kind == Classify(requested, Name(path)).value
  {
    var c := Classify(requested, Name(path));
    if c.Raise? {
      return Raise(c.error);
    }
    var a := new Asset(path, c.value);
    return Ok(a);
  }

  /** What serialize would produce: a JSON or YAML dump of a schema, a YAML or RDF rendering of a
      graph, or an exception. */
  datatype Serialized = JsonDump | YamlDump | GraphAsYaml | GraphAs(format: string) | Raised(error: string)

  const SelfAttributeError := "'Asset' object has no attribute 'self'"

  /** serialize as written: the fall-through raise formats `self.self.path.name`, so every
      unsupported combination raises AttributeError instead of NotImplementedError. */
  function SerializeAsWritten(kind: string, format: string): Serialized
  {
    if (kind == "schema" || kind == "oas3") && format == "json" then JsonDump
    else if (kind == "schema" || kind == "oas3") && format == "yaml" then YamlDump
    else if kind == "graph" then (if format == "yaml" then GraphAsYaml else GraphAs(format))
    else Raised(SelfAttributeError)
  }

  /** serialize as evidently intended: the same dispatch, raising the unsupported-suffix error. */
  function SerializeIntended(kind: string, format: string, name: string): (r: Serialized)
  {
    if (kind == "schema" || kind == "oas3") && format == "json" then JsonDump
    else if (kind == "schema" || kind == "oas3") && format == "yaml" then YamlDump
    else if kind == "graph" then (if format == "yaml" then GraphAsYaml else GraphAs(format))
    else Raised(UnsupportedSuffix(name))
  }

  /** A CSV asset cannot be serialized: as written it fails with AttributeError. */
  lemma CsvSerializeRaisesAttributeError(format: string)
    ensures SerializeAsWritten("csv", format) == Raised(SelfAttributeError)
    ensures SerializeAsWritten("csv", format) != SerializeIntended("csv", format, "a.csv")
  {
    assert SelfAttributeError != UnsupportedSuffix("a.csv") by {
      assert SelfAttributeError[0] == '\'';
      assert UnsupportedSuffix("a.csv")[0] == 'U';
    }
  }

  /** The corrected serialize agrees with the original on every supported combination and
      reports the unsupported ones with the asset's name. */
  lemma SerializeIntendedMeaning(kind: string, format: string, name: string)
    ensures SerializeIntended(kind, format, name).Raised? <==>
      !(kind == "graph" || ((kind == "schema" || kind == "oas3") && (format == "json" || format == "yaml")))
    ensures SerializeIntended(kind, format, name).Raised? ==>
      SerializeIntended(kind, format, name).error == UnsupportedSuffix(name)
    ensures !SerializeIntended(kind, format, name).Raised? ==>
      SerializeIntended(kind, format, name) == SerializeAsWritten(kind, format)
  {
  }
}
