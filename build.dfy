/** Build-output naming and freshness: build_yaml_asset (tools.py, validate.py),
    build_semantic_asset and build_vocabularies (tools.py), build_asset and generate_asset
    (playground/tools.py), jsonschema_to_rdf's guard and load_all_assets (utils.py). */
module Build {
  import opened Wrappers
  import opened Strings
  import opened Paths
  import opened FileSystem
  import opened Glob
  import opened Rdf

  /** The name written for a YAML source: `x.ld.yaml` becomes `x.jsonld`, any other name has its
      last suffix replaced by `.json` (`dpath_name` then `with_suffix(dsuffix)`). */
  function JsonName(name: string): (r: string)
    requires name != ""
  {
    if EndsWith(name, ".ld.yaml") then Stem(Stem(name)) + ".jsonld" else Stem(name) + ".json"
  }

  /** `(dest / path.parent / dpath_name).with_suffix(dsuffix)`: an absolute source keeps its own
      directory, because `/` with an absolute right operand discards the left one. */
  function JsonTarget(dest: Path, src: Path): (r: Path)
    requires Name(src) != ""
    ensures Parent(r) == Concat(dest, Parent(src))
    ensures Name(r) == JsonName(Name(src))
  {
    var dir := Concat(dest, Parent(src));
    Path(dir.absolute, dir.parts + [JsonName(Name(src))])
  }

  /** build_yaml_asset's JSON output (identical in tools.py and validate.py): anything whose last
      suffix is not `.yaml` raises ValueError. */
  function YamlJsonTarget(buildpath: Path, fpath: Path): (r: Result<Path>)
    ensures r.Raise? <==> Suffix(Name(fpath)) != ".yaml"
  {
    if Suffix(Name(fpath)) != ".yaml" then Raise("Not a yaml file: " + AsPosix(fpath))
    else Ok(JsonTarget(buildpath, fpath))
  }

  /** tools.py also copies the source, unchanged, to `buildpath / parent / name`. */
  function YamlCopyTarget(buildpath: Path, fpath: Path): (r: Path)
    requires Name(fpath) != ""
    ensures Parent(r) == Concat(buildpath, Parent(fpath)) && Name(r) == Name(fpath)
  {
    var dir := Concat(buildpath, Parent(fpath));
    Path(dir.absolute, dir.parts + [Name(fpath)])
  }

  /** `x.ld.yaml` is written as `x.jsonld` beside the other outputs of its directory. */
  lemma LdYamlBecomesJsonLd(buildpath: Path, fpath: Path, x: string)
    requires x != "" && Name(fpath) == x + ".ld.yaml"
    ensures YamlJsonTarget(buildpath, fpath).Ok?
    ensures Name(YamlJsonTarget(buildpath, fpath).value) == x + ".jsonld"
  {
    var n := x + ".ld.yaml";
    assert n[|n| - 8..] == ".ld.yaml";
    DotsAt(x, ".ld", ".yaml");
    assert n == (x + ".ld") + ".yaml";
    DotsAt(x, "", ".ld");
    assert x + ".ld" == (x + "") + ".ld";
  }

  /** With `tail` a dot-led suffix without another dot, the suffix of `x + mid + tail` is `tail`
      as long as something precedes it, and the stem is everything before. */
  lemma DotsAt(x: string, mid: string, tail: string)
    requires x != ""
    requires |tail| >= 2 && tail[0] == '.' && '.' !in tail[1..]
    ensures Suffix(x + mid + tail) == tail && Stem(x + mid + tail) == x + mid
  {
    var n := x + mid + tail;
    var i := |x + mid|;
    assert n[i] == '.';
    forall j | i < j < |n| ensures n[j] != '.' {
      assert n[j] == tail[j - i] == tail[1..][j - i - 1];
    }
    assert LastIndexOf(n, '.') == i;
    assert n[i..] == tail;
    assert n[..i] == x + mid;
  }

  /** Any other YAML name loses its `.yaml` for `.json`. */
  lemma YamlBecomesJson(buildpath: Path, fpath: Path, x: string)
    requires x != "" && Name(fpath) == x + ".yaml" && !EndsWith(x + ".yaml", ".ld.yaml")
    ensures YamlJsonTarget(buildpath, fpath).Ok?
    ensures Name(YamlJsonTarget(buildpath, fpath).value) == x + ".json"
  {
    DotsAt(x, "", ".yaml");
    assert x + "" + ".yaml" == x + ".yaml";
  }

  /** A name whose last suffix is not `.yaml` (a `.yml` file, say) is refused. */
  lemma YmlRefused(buildpath: Path, fpath: Path)
    requires Name(fpath) == "a.yml"
    ensures YamlJsonTarget(buildpath, fpath).Raise?
  {
    DotsAt("a", "", ".yml");
    assert "a" + "" + ".yml" == "a.yml";
  }

  /** The serialisations of a Turtle asset, in the order they are written. */
  const SemanticExtensions: seq<string> := [".rdf", ".jsonld", ".nt"]

  /** `(dest_dir / asset_path).with_suffix(ext)` for every extension. */
  function SemanticTargets(dest: Path, asset: Path): (r: seq<Path>)
    requires Name(Concat(dest, asset)) != ""
    ensures |r| == 3
    ensures forall k :: 0 <= k < 3 ==> r[k] == WithSuffix(Concat(dest, asset), SemanticExtensions[k])
  {
    var p := Concat(dest, asset);
    SemanticExtensionsValid();
    [WithSuffix(p, ".rdf"), WithSuffix(p, ".jsonld"), WithSuffix(p, ".nt")]
  }

  lemma SemanticExtensionsValid()
    ensures SemanticExtensions == [".rdf", ".jsonld", ".nt"]
    ensures ValidSuffix(".rdf") && ValidSuffix(".jsonld") && ValidSuffix(".nt")
  {
  }

  /** The targets build_semantic_asset writes: those that are not newer than the source. */
  function StaleTargets(fs: Fs, asset: Path, targets: seq<Path>): (r: seq<Path>)
    requires asset in fs
    ensures forall t :: t in r <==> t in targets && IsRecentThan(fs, asset, t)
  {
    if targets == [] then []
    else (if IsRecentThan(fs, asset, targets[0]) then [targets[0]] else []) + StaleTargets(fs, asset, targets[1..])
  }

  /** build_semantic_asset: the paths serialised, in order. The source is parsed first (the parse
      is a parameter; its exception propagates). */
  method BuildSemanticAsset(fs: Fs, asset: Path, dest: Path, parsed: Result<Graph>) returns (r: Result<seq<Path>>)
    requires asset in fs
    requires Name(Concat(dest, asset)) != ""
    ensures "out" in Suffixes(Name(asset)) ==> r == Ok([])
    ensures "out" !in Suffixes(Name(asset)) && parsed.Raise? ==> r == Raise(parsed.error)
    ensures "out" !in Suffixes(Name(asset)) && parsed.Ok? ==>
      r == Ok(StaleTargets(fs, asset, SemanticTargets(dest, asset)))
  {
    if "out" in Suffixes(Name(asset)) {
      return Ok([]);
    }
    if parsed.Raise? {
      return Raise(parsed.error);
    }
    var written := WriteStale(fs, asset, SemanticTargets(dest, asset));
    return Ok(written);
  }

  /** The loop over the serialisations: each target is written only when the source is not older. */
  method WriteStale(fs: Fs, asset: Path, targets: seq<Path>) returns (written: seq<Path>)
    requires asset in fs
    ensures written == StaleTargets(fs, asset, targets)
  {
    written := [];
    for i := 0 to |targets|
      invariant written == StaleTargets(fs, asset, targets[..i])
    {
      assert targets[..i + 1] == targets[..i] + [targets[i]];
      StaleTargetsAppend(fs, asset, targets[..i], targets[i]);
      if IsRecentThan(fs, asset, targets[i]) {
        written := written + [targets[i]];
      }
    }
    assert targets[..|targets|] == targets;
  }

  lemma {:induction false} StaleTargetsAppend(fs: Fs, asset: Path, ts: seq<Path>, t: Path)
    requires asset in fs
    ensures StaleTargets(fs, asset, ts + [t]) ==
      StaleTargets(fs, asset, ts) + (if IsRecentThan(fs, asset, t) then [t] else [])
    decreases |ts|
  {
    if ts != [] {
      assert (ts + [t])[1..] == ts[1..] + [t];
      StaleTargetsAppend(fs, asset, ts[1..], t);
    }
  }

  /** The `"out" in suffixes` guard never fires: suffixes carry their dot. So a parsed source gets
      every stale target written, whatever its name. */
  lemma OutGuardNeverFires(name: string)
    ensures "out" !in Suffixes(name)
  {
    SuffixesNeverBare(name, "out");
  }

  /** A target is rewritten when missing or not newer than the source: equal times count as
      stale, a strictly newer target is kept. */
  lemma FreshnessRule(fs: Fs, src: Path, dst: Path)
    requires src in fs
    ensures dst !in fs ==> IsRecentThan(fs, src, dst)
    ensures dst in fs ==> (IsRecentThan(fs, src, dst) <==> fs[dst].mtime <= fs[src].mtime)
  {
  }

  /** `asset_path.parent.glob("context-*.ld.yaml")`, in directory order. */
  function FrameContexts(fs: Fs, asset: Path): (r: seq<Path>)
    ensures forall p :: p in r <==> exists n :: n in Entries(fs, Parent(asset)) && Matches("context-*.ld.yaml", n) && p == Child(Parent(asset), n)
  {
    ContextsAmong(Parent(asset), Entries(fs, Parent(asset)))
  }

  function ContextsAmong(d: Path, names: seq<string>): (r: seq<Path>)
    ensures forall p :: p in r <==> exists n :: n in names && Matches("context-*.ld.yaml", n) && p == Child(d, n)
  {
    if names == [] then []
    else
      var rest := ContextsAmong(d, names[1..]);
      assert forall n :: n in names <==> n == names[0] || n in names[1..];
      (if Matches("context-*.ld.yaml", names[0]) then [Child(d, names[0])] else []) + rest
  }

  /** A framing context is named `context-` + anything + `.ld.yaml`. */
  lemma FrameContextNames(n: string)
    ensures Matches("context-*.ld.yaml", n) <==>
      |n| >= 16 && StartsWith(n, "context-") && EndsWith(n, ".ld.yaml")
  {
    ContextPatternParts();
    SplitPatternMatches("context-*.ld.yaml", "context-", ".ld.yaml", n);
  }

  lemma ContextPatternParts()
    ensures "context-*.ld.yaml" == "context-" + "*" + ".ld.yaml"
    ensures StarFree("context-") && StarFree(".ld.yaml")
  {
  }

  /** What build_vocabularies and build_asset do per framing context: one frame_vocabulary_to_csv
      call each, in glob order. */
  method FramingCalls(fs: Fs, asset: Path) returns (calls: seq<Path>)
    ensures calls == FrameContexts(fs, asset)
  {
    var d := Parent(asset);
    var names := Entries(fs, d);
    calls := [];
    for i := 0 to |names|
      invariant calls == ContextsAmong(d, names[..i])
    {
      assert names[..i + 1] == names[..i] + [names[i]];
      ContextsAmongAppend(d, names[..i], names[i]);
      if Matches("context-*.ld.yaml", names[i]) {
        calls := calls + [Child(d, names[i])];
      }
    }
    assert names[..|names|] == names;
  }

  lemma {:induction false} ContextsAmongAppend(d: Path, names: seq<string>, n: string)
    ensures ContextsAmong(d, names + [n]) ==
      ContextsAmong(d, names) + (if Matches("context-*.ld.yaml", n) then [Child(d, n)] else [])
    decreases |names|
  {
    if names != [] {
      assert (names + [n])[1..] == names[1..] + [n];
      ContextsAmongAppend(d, names[1..], n);
    }
  }

  /** playground build_asset: every serialisation is written, with no freshness test, then every
      framing context beside the asset is framed. */
  method BuildAsset(fs: Fs, asset: Path, dest: Path, parsed: Result<Graph>)
    returns (r: Result<seq<Path>>, frames: seq<Path>)
    requires Name(Concat(dest, asset)) != ""
    ensures "out" in Suffixes(Name(asset)) ==> r == Ok([]) && frames == []
    ensures "out" !in Suffixes(Name(asset)) && parsed.Raise? ==> r == Raise(parsed.error) && frames == []
    ensures "out" !in Suffixes(Name(asset)) && parsed.Ok? ==>
      r == Ok(SemanticTargets(dest, asset)) && frames == FrameContexts(fs, asset)
  {
    frames := [];
    if "out" in Suffixes(Name(asset)) {
      return Ok([]), [];
    }
    if parsed.Raise? {
      return Raise(parsed.error), [];
    }
    var written := WriteAll(SemanticTargets(dest, asset));
    frames := FramingCalls(fs, asset);
    return Ok(written), frames;
  }

  /** The serialisation loop of build_asset: every target is written, in order. */
  method WriteAll(targets: seq<Path>) returns (written: seq<Path>)
    ensures written == targets
  {
    written := [];
    for i := 0 to |targets|
      invariant written == targets[..i]
    {
      written := written + [targets[i]];
    }
    assert targets[..|targets|] == targets;
  }

  // root.glob with the pattern star-slash-star-slash-star.ttl: the entries named `*.ttl` exactly two directory levels down,
  // directories enumerated in order.
  function TurtleTwoDown(fs: Fs, root: Path): seq<Path>
  {
    Level1(fs, root, SubdirNames(fs, root))
  }

  function Level1(fs: Fs, root: Path, firsts: seq<string>): seq<Path>
  {
    if firsts == [] then []
    else
      var a := Child(root, firsts[0]);
      Level2(fs, a, SubdirNames(fs, a)) + Level1(fs, root, firsts[1..])
  }

  function Level2(fs: Fs, a: Path, seconds: seq<string>): seq<Path>
  {
    if seconds == [] then []
    else
      var b := Child(a, seconds[0]);
      TurtlesIn(b, Entries(fs, b)) + Level2(fs, a, seconds[1..])
  }

  function TurtlesIn(b: Path, names: seq<string>): (r: seq<Path>)
    ensures forall p :: p in r ==> exists n :: n in names && Matches("*.ttl", n) && p == Child(b, n)
  {
    if names == [] then []
    else (if Matches("*.ttl", names[0]) then [Child(b, names[0])] else []) + TurtlesIn(b, names[1..])
  }

  /** Every path generate_asset builds is a `.ttl` name in a subdirectory of a subdirectory of
      the root. */
  lemma {:induction false} TurtleTwoDownShape(fs: Fs, root: Path, firsts: seq<string>, p: Path)
    requires p in Level1(fs, root, firsts)
    ensures exists x, y, n :: x in firsts && EndsWith(n, ".ttl") && p == Child(Child(Child(root, x), y), n)
    decreases |firsts|
  {
    var a := Child(root, firsts[0]);
    if p in Level2(fs, a, SubdirNames(fs, a)) {
      var y, n := Level2Shape(fs, a, SubdirNames(fs, a), p);
      assert firsts[0] in firsts;
    } else {
      TurtleTwoDownShape(fs, root, firsts[1..], p);
      var x, y, n :| x in firsts[1..] && EndsWith(n, ".ttl") && p == Child(Child(Child(root, x), y), n);
      assert x in firsts;
    }
  }

  lemma {:induction false} Level2Shape(fs: Fs, a: Path, seconds: seq<string>, p: Path)
    returns (y: string, n: string)
    requires p in Level2(fs, a, seconds)
    ensures EndsWith(n, ".ttl") && p == Child(Child(a, y), n)
    decreases |seconds|
  {
    var b := Child(a, seconds[0]);
    if p in TurtlesIn(b, Entries(fs, b)) {
      n :| n in Entries(fs, b) && Matches("*.ttl", n) && p == Child(b, n);
      y := seconds[0];
      assert "*.ttl" == "*" + ".ttl";
      assert StarFree(".ttl");
      StarSuffixMatches(".ttl", n);
    } else {
      y, n := Level2Shape(fs, a, seconds[1..], p);
    }
  }

  /** The keys a JSON Schema document holds, and whether check_schema accepts it. */
  datatype SchemaDoc = SchemaDoc(checkSchema: Result<()>, keys: set<string>)

  /** jsonschema_to_rdf up to the conversion: check_schema's error first, then the refusal of a
      document that already has a `@context`; Ok(()) means the conversion goes ahead. */
  function JsonSchemaToRdfGuard(doc: SchemaDoc): (r: Result<()>)
    ensures r.Ok? <==> doc.checkSchema.Ok? && "@context" !in doc.keys
    ensures doc.checkSchema.Ok? && "@context" in doc.keys ==> r == Raise(MultipleContexts)
  {
    if doc.checkSchema.Raise? then Raise(doc.checkSchema.error)
    else if "@context" in doc.keys then Raise(MultipleContexts)
    else Ok(())
  }

  const MultipleContexts := "Multiple contexts are not supported"

  /** load_all_assets: the recursive `.ttl` glob is every `.ttl` path under the directory, at any depth
      (`files` is the enumeration); names containing "aligns" are skipped, the rest are parsed
      (through the memoised parse_graph, a parameter here) and merged. */
  predicate Loaded(f: Path) { !Contains(Name(f), "aligns") }

  function MergedGraphs(files: seq<Path>, parse: Path -> Result<Graph>): (r: Result<Graph>)
  {
    if files == [] then Ok({})
    else if !Loaded(files[0]) then MergedGraphs(files[1..], parse)
    else if parse(files[0]).Raise? then Raise(parse(files[0]).error)
    else match MergedGraphs(files[1..], parse)
      case Raise(e) => Raise(e)
      case Ok(g) => Ok(parse(files[0]).value + g)
  }

  /** On success the merged graph is exactly the union of the loaded files' graphs. */
  lemma {:induction false} MergedGraphsUnion(files: seq<Path>, parse: Path -> Result<Graph>, t: Triple)
    requires MergedGraphs(files, parse).Ok?
    ensures forall f :: f in files && Loaded(f) ==> parse(f).Ok?
    ensures t in MergedGraphs(files, parse).value <==>
      exists f :: f in files && Loaded(f) && t in parse(f).value
    decreases |files|
  {
    if files != [] {
      MergedGraphsUnion(files[1..], parse, t);
      assert forall f :: f in files <==> f == files[0] || f in files[1..];
    }
  }

  /** Prepends the graph merged so far to the outcome of the remaining files. */
  function AfterMerged(g: Graph, rest: Result<Graph>): Result<Graph>
  {
    match rest
    case Raise(e) => Raise(e)
    case Ok(h) => Ok(g + h)
  }

  lemma MergeStep(g: Graph, files: seq<Path>, parse: Path -> Result<Graph>)
    requires files != []
    ensures !Loaded(files[0]) ==>
      AfterMerged(g, MergedGraphs(files, parse)) == AfterMerged(g, MergedGraphs(files[1..], parse))
    ensures Loaded(files[0]) && parse(files[0]).Raise? ==>
      AfterMerged(g, MergedGraphs(files, parse)) == Raise(parse(files[0]).error)
    ensures Loaded(files[0]) && parse(files[0]).Ok? ==>
      AfterMerged(g, MergedGraphs(files, parse)) ==
      AfterMerged(g + parse(files[0]).value, MergedGraphs(files[1..], parse))
  {
    if Loaded(files[0]) && parse(files[0]).Ok? && MergedGraphs(files[1..], parse).Ok? {
      var h := MergedGraphs(files[1..], parse).value;
      assert g + (parse(files[0]).value + h) == (g + parse(files[0]).value) + h;
    }
  }

  method LoadAllAssets(files: seq<Path>, parse: Path -> Result<Graph>) returns (r: Result<Graph>)
    ensures r == MergedGraphs(files, parse)
  {
    var g: Graph := {};
    var i := 0;
    assert files[0..] == files;
    assert AfterMerged(g, MergedGraphs(files, parse)) == MergedGraphs(files, parse) by {
      assert forall h: Graph :: {} + h == h;
    }
    while i < |files|
      invariant 0 <= i <= |files|
      invariant MergedGraphs(files, parse) == AfterMerged(g, MergedGraphs(files[i..], parse))
    {
      assert files[i..][0] == files[i] && files[i..][1..] == files[i + 1..];
      MergeStep(g, files[i..], parse);
      if Loaded(files[i]) {
        var parsed := parse(files[i]);
        if parsed.Raise? {
          return Raise(parsed.error);
        }
        g := g + parsed.value;
      }
      i := i + 1;
    }
    return Ok(g);
  }
}
