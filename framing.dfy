/** JSON-LD framing contexts (framing.py and its older twin playground/framing.py): the split of a
    context into namespaces and fields, the choice of the index, the stripping of framed entries,
    and the files frame_vocabulary_to_csv and generate_frame write. The framing itself (pyld) is a
    parameter. */
module Framing {
  import opened Wrappers
  import opened Strings
  import opened Paths
  import opened FileSystem
  import opened JsonValues
  import Build

  /** A context value naming a namespace: a string whose last character is '#' or '/'. */
  predicate IsNamespaceValue(v: Json)
  {
    v.Str? && v.s != "" && (v.s[|v.s| - 1] == '#' || v.s[|v.s| - 1] == '/')
  }

  /** The empty string has no last character: `v[-1]` raises IndexError. */
  predicate IsEmptyText(v: Json) { v == Str("") }

  function NamespacesOf(ctx: seq<Member>): (r: seq<Member>)
    ensures forall m :: m in r <==> m in ctx && IsNamespaceValue(m.value)
    decreases |ctx|
  {
    if ctx == [] then []
    else
      var last := ctx[|ctx| - 1];
      NamespacesOf(ctx[..|ctx| - 1]) + (if IsNamespaceValue(last.value) then [last] else [])
  }

  function FieldsOf(ctx: seq<Member>): (r: seq<Member>)
    ensures forall m :: m in r <==> m in ctx && !IsNamespaceValue(m.value)
    decreases |ctx|
  {
    if ctx == [] then []
    else
      var last := ctx[|ctx| - 1];
      FieldsOf(ctx[..|ctx| - 1]) + (if IsNamespaceValue(last.value) then [] else [last])
  }

  predicate HasEmptyText(ctx: seq<Member>) { exists k :: 0 <= k < |ctx| && IsEmptyText(ctx[k].value) }

  /** The parts of a framing context: namespaces and fields in context order, the index field and
      the metadata context (Null when there is none). */
  datatype Components = Components(namespaces: seq<Member>, fields: seq<Member>, index: Option<string>, metadataContext: Json)

  const StringIndexError := "string index out of range"

  /** `frame["@context"]` and its `.items()`. */
  function ContextOf(frame: seq<Member>): Result<seq<Member>>
  {
    match Get(frame, "@context")
    case None => Raise("'@context'")
    case Some(v) => if v.Obj? then Ok(v.members) else Raise(NoItems(v))
  }

  /** The try block: `_meta.index` is kept only if it names a field; a missing key (KeyError)
      gives no index, while subscripting a non-mapping or using an unhashable index raises. */
  function IndexChoice(frame: seq<Member>, fields: seq<Member>): Result<(Option<string>, Json)>
  {
    match Get(frame, "_meta")
    case None => Ok((None, Null))
    case Some(meta) =>
      match meta
      case Obj(ms) =>
        (match Get(ms, "index")
         case None => Ok((None, Null))
         case Some(ix) =>
           if ix.Arr? || ix.Obj? then Raise(Unhashable(ix))
           else if ix.Str? && ix.s in Keys(fields) then
             Ok((Some(ix.s), match Get(ms, "_context") case Some(c) => c case None => Null))
           else Ok((None, Null)))
      case Str(_) => Raise("string indices must be integers")
      case Arr(_) => Raise("list indices must be integers or slices, not str")
      case _ => Raise(NotSubscriptable(meta))
  }

  /** frame_components. */
  function ComponentsOf(frame: seq<Member>): Result<Components>
  {
    match ContextOf(frame)
    case Raise(e) => Raise(e)
    case Ok(ctx) =>
      if HasEmptyText(ctx) then Raise(StringIndexError)
      else match IndexChoice(frame, FieldsOf(ctx))
        case Raise(e) => Raise(e)
        case Ok(choice) => Ok(Components(NamespacesOf(ctx), FieldsOf(ctx), choice.0, choice.1))
  }

  /** Every context member lands in exactly one of namespaces and fields, order kept. */
  lemma {:induction false} PartitionMeaning(ctx: seq<Member>)
    ensures |NamespacesOf(ctx)| + |FieldsOf(ctx)| == |ctx|
    ensures forall m :: m in ctx ==> (m in NamespacesOf(ctx) <==> m !in FieldsOf(ctx))
  {
    if ctx != [] {
      PartitionMeaning(ctx[..|ctx| - 1]);
    }
  }

  /** An empty string value raises; the index, when there is one, is `_meta.index` and names a
      field; the split is that of the context. */
  lemma ComponentsMeaning(frame: seq<Member>)
    ensures ComponentsOf(frame).Ok? ==>
      var c := ComponentsOf(frame).value;
      c.namespaces == NamespacesOf(ContextOf(frame).value) && c.fields == FieldsOf(ContextOf(frame).value)
    ensures ComponentsOf(frame).Ok? && ComponentsOf(frame).value.index.Some? ==>
      var c := ComponentsOf(frame).value;
      var meta := Get(frame, "_meta");
      c.index.value in Keys(c.fields) && meta.Some? && meta.value.Obj? &&
      Get(meta.value.members, "index") == Some(Str(c.index.value))
    ensures ContextOf(frame).Ok? && HasEmptyText(ContextOf(frame).value) ==> ComponentsOf(frame) == Raise(StringIndexError)
  {
    if ContextOf(frame).Ok? && !HasEmptyText(ContextOf(frame).value) {
      IndexChoiceMeaning(frame, FieldsOf(ContextOf(frame).value));
    }
  }

  /** A chosen index is the string `_meta.index` and names one of the fields. */
  lemma IndexChoiceMeaning(frame: seq<Member>, fields: seq<Member>)
    ensures IndexChoice(frame, fields).Ok? && IndexChoice(frame, fields).value.0.Some? ==>
      var meta := Get(frame, "_meta");
      IndexChoice(frame, fields).value.0.value in Keys(fields) && meta.Some? && meta.value.Obj? &&
      Get(meta.value.members, "index") == Some(Str(IndexChoice(frame, fields).value.0.value))
  {
    var meta := Get(frame, "_meta");
    if meta.Some? && meta.value.Obj? {
      var ix := Get(meta.value.members, "index");
      if ix.Some? && ix.value.Str? && ix.value.s in Keys(fields) {
        assert IndexChoice(frame, fields).value.0 == Some(ix.value.s);
      }
    }
  }

  /** Without a `_meta` entry there is no index (the plain `context.ld.yaml` of the vocabularies);
      with one naming a field, that field is the index (`context-short.ld.yaml`). */
  lemma IndexExamples(ctx: seq<Member>, f: string)
    requires !HasEmptyText(ctx) && f in Keys(FieldsOf(ctx))
    ensures ComponentsOf([Member("@context", Obj(ctx))]) ==
      Ok(Components(NamespacesOf(ctx), FieldsOf(ctx), None, Null))
    ensures ComponentsOf([Member("@context", Obj(ctx)), Member("_meta", Obj([Member("index", Str(f))]))]) ==
      Ok(Components(NamespacesOf(ctx), FieldsOf(ctx), Some(f), Null))
  {
    PlainFrame([Member("@context", Obj(ctx))], ctx);
    IndexedFrame([Member("@context", Obj(ctx)), Member("_meta", Obj([Member("index", Str(f))]))], ctx,
                 [Member("index", Str(f))], f);
  }

  lemma PlainFrame(frame: seq<Member>, ctx: seq<Member>)
    requires frame == [Member("@context", Obj(ctx))] && !HasEmptyText(ctx)
    ensures ComponentsOf(frame) == Ok(Components(NamespacesOf(ctx), FieldsOf(ctx), None, Null))
  {
    assert Get(frame, "@context") == Some(Obj(ctx));
    assert Get(frame, "_meta") == None by {
      assert Keys(frame) == ["@context"];
    }
  }

  lemma IndexedFrame(frame: seq<Member>, ctx: seq<Member>, meta: seq<Member>, f: string)
    requires frame == [Member("@context", Obj(ctx)), Member("_meta", Obj(meta))]
    requires meta == [Member("index", Str(f))]
    requires !HasEmptyText(ctx) && f in Keys(FieldsOf(ctx))
    ensures ComponentsOf(frame) == Ok(Components(NamespacesOf(ctx), FieldsOf(ctx), Some(f), Null))
  {
    assert Get(frame, "@context") == Some(Obj(ctx));
    assert Get(frame, "_meta") == Some(Obj(meta));
    assert Get(meta, "index") == Some(Str(f));
    assert Get(meta, "_context") == None by {
      assert Keys(meta) == ["index"];
    }
    assert ContextOf(frame) == Ok(ctx);
    IndexChoiceNamed(frame, FieldsOf(ctx), meta, f);
  }

  lemma IndexChoiceNamed(frame: seq<Member>, fields: seq<Member>, meta: seq<Member>, f: string)
    requires Get(frame, "_meta") == Some(Obj(meta)) && Get(meta, "index") == Some(Str(f))
    requires f in Keys(fields) && Get(meta, "_context") == None
    ensures IndexChoice(frame, fields) == Ok((Some(f), Null))
  {
  }

  /** frame_components: the context is split by SplitContext, then the index is chosen. */
  method FrameComponents(frame: seq<Member>) returns (r: Result<Components>)
    ensures r == ComponentsOf(frame)
  {
    var context := ContextOf(frame);
    if context.Raise? {
      return Raise(context.error);
    }
    var ok, namespaces, fields := SplitContext(context.value);
    if !ok {
      return Raise(StringIndexError);
    }
    var choice := IndexChoice(frame, fields);
    if choice.Raise? {
      return Raise(choice.error);
    }
    r := Ok(Components(namespaces, fields, choice.value.0, choice.value.1));
  }

  /** The loop of frame_components filling the two dictionaries; it stops at an empty string. */
  method SplitContext(ctx: seq<Member>) returns (ok: bool, namespaces: seq<Member>, fields: seq<Member>)
    ensures ok <==> !HasEmptyText(ctx)
    ensures ok ==> namespaces == NamespacesOf(ctx) && fields == FieldsOf(ctx)
  {
    namespaces, fields := [], [];
    for i := 0 to |ctx|
      invariant namespaces == NamespacesOf(ctx[..i]) && fields == FieldsOf(ctx[..i])
      invariant !HasEmptyText(ctx[..i])
    {
      var v := ctx[i].value;
      if v.Str? && v.s == "" {
        assert IsEmptyText(ctx[i].value);
        return false, namespaces, fields;
      }
      SplitStep(ctx, i);
      if IsNamespaceValue(v) {
        namespaces := namespaces + [ctx[i]];
      } else {
        fields := fields + [ctx[i]];
      }
    }
    assert ctx[..|ctx|] == ctx;
    return true, namespaces, fields;
  }

  /** One more context member: it joins the namespaces or the fields, and is an empty string or not. */
  lemma SplitStep(ctx: seq<Member>, i: nat)
    requires i < |ctx|
    ensures NamespacesOf(ctx[..i + 1]) == NamespacesOf(ctx[..i]) + (if IsNamespaceValue(ctx[i].value) then [ctx[i]] else [])
    ensures FieldsOf(ctx[..i + 1]) == FieldsOf(ctx[..i]) + (if IsNamespaceValue(ctx[i].value) then [] else [ctx[i]])
    ensures HasEmptyText(ctx[..i + 1]) <==> HasEmptyText(ctx[..i]) || IsEmptyText(ctx[i].value)
  {
    assert ctx[..i + 1] == ctx[..i] + [ctx[i]];
    NamespacesAppend(ctx[..i], ctx[i]);
    FieldsAppend(ctx[..i], ctx[i]);
    EmptyTextAppend(ctx[..i], ctx[i]);
  }

  lemma EmptyTextAppend(ctx: seq<Member>, m: Member)
    ensures HasEmptyText(ctx + [m]) <==> HasEmptyText(ctx) || IsEmptyText(m.value)
  {
    if HasEmptyText(ctx) {
      var k :| 0 <= k < |ctx| && IsEmptyText(ctx[k].value);
      assert (ctx + [m])[k] == ctx[k];
    }
    if HasEmptyText(ctx + [m]) {
      var k :| 0 <= k < |ctx + [m]| && IsEmptyText((ctx + [m])[k].value);
      if k < |ctx| {
        assert (ctx + [m])[k] == ctx[k];
      }
    }
    if IsEmptyText(m.value) {
      assert (ctx + [m])[|ctx|] == m;
    }
  }

  lemma NamespacesAppend(ctx: seq<Member>, m: Member)
    ensures NamespacesOf(ctx + [m]) == NamespacesOf(ctx) + (if IsNamespaceValue(m.value) then [m] else [])
  {
    assert (ctx + [m])[..|ctx|] == ctx;
  }

  lemma FieldsAppend(ctx: seq<Member>, m: Member)
    ensures FieldsOf(ctx + [m]) == FieldsOf(ctx) + (if IsNamespaceValue(m.value) then [] else [m])
  {
    assert (ctx + [m])[..|ctx|] == ctx;
  }

  /** The three-part frame_components of playground/framing.py: the same split and index, without
      the metadata context. */
  function ComponentsTriple(frame: seq<Member>): Result<(seq<Member>, seq<Member>, Option<string>)>
  {
    match ComponentsOf(frame)
    case Raise(e) => Raise(e)
    case Ok(c) => Ok((c.namespaces, c.fields, c.index))
  }

  /** What pyld's frame returns, reduced to what the tools read: the `@graph` entries when the
      key is present, and the top-level members otherwise. */
  datatype Projection = Projection(graph: Option<seq<seq<Member>>>, top: seq<Member>)

  /** A framed vocabulary: its entries and the framing context's `@context`. */
  datatype Framed = Framed(graph: seq<seq<Member>>, context: Json)

  /** `{k: v for k, v in e.items() if k in c}`: an entry stripped to the members whose key the
      context value `c` includes; the first membership test that raises ends the comprehension. */
  function StripEntry(e: seq<Member>, c: Json): (r: Result<seq<Member>>)
    ensures r.Raise? <==> e != [] && !Iterable(c)
    ensures r.Raise? ==> r.error == NotIterable(c)
    ensures r.Ok? ==> |r.value| <= |e| && forall m :: m in r.value <==> m in e && Includes(c, m.key) == Ok(true)
  {
    if e == [] then Ok([])
    else match Includes(c, e[0].key)
      case Raise(x) => Raise(x)
      case Ok(b) =>
        match StripEntry(e[1..], c)
        case Raise(x) => Raise(x)
        case Ok(rest) => Ok((if b then [e[0]] else []) + rest)
  }

  /** The list comprehension over the framed entries: each entry stripped in order, or the first
      exception. */
  function Strip(entries: seq<seq<Member>>, c: Json): (r: Result<seq<seq<Member>>>)
    ensures r.Raise? <==> !Iterable(c) && exists k :: 0 <= k < |entries| && entries[k] != []
    ensures r.Raise? ==> r.error == NotIterable(c)
    ensures r.Ok? ==> |r.value| == |entries| && forall k :: 0 <= k < |entries| ==> StripEntry(entries[k], c) == Ok(r.value[k])
    decreases |entries|
  {
    if entries == [] then Ok([])
    else match StripEntry(entries[0], c)
      case Raise(x) => Raise(x)
      case Ok(s) =>
        match Strip(entries[1..], c)
        case Raise(x) => Raise(x)
        case Ok(rest) => Ok([s] + rest)
  }

  /** The entries framing strips: the `@graph` list, or the whole projection as one entry. */
  function Entries(p: Projection): seq<seq<Member>>
  {
    if p.graph.Some? then p.graph.value else [p.top]
  }

  /** frame_vocabulary of framing.py: `context["@context"]` is looked up (KeyError or TypeError
      when it cannot be), each entry keeps the members whose key is `in` it, and the result carries
      it unchanged. */
  function FrameVocabulary(context: Json, projection: Result<Projection>): (r: Result<Framed>)
  {
    match projection
    case Raise(e) => Raise(e)
    case Ok(p) =>
      match Subscript(context, "@context")
      case Raise(e) => Raise(e)
      case Ok(c) =>
        match Strip(Entries(p), c)
        case Raise(e) => Raise(e)
        case Ok(s) => Ok(Framed(s, c))
  }

  /** frame_vocabulary of playground/framing.py: `@graph` is required. */
  function FrameVocabularyStrict(context: Json, projection: Result<Projection>): (r: Result<Framed>)
  {
    match projection
    case Raise(e) => Raise(e)
    case Ok(p) =>
      if p.graph.None? then Raise("'@graph'")
      else match Subscript(context, "@context")
        case Raise(e) => Raise(e)
        case Ok(c) =>
          match Strip(p.graph.value, c)
          case Raise(e) => Raise(e)
          case Ok(s) => Ok(Framed(s, c))
  }

  /** Framing succeeds exactly when the projection does, `@context` can be read, and it is a
      container or there is no member to test against it; then every entry is kept, holding
      exactly its members whose key `@context` includes (a key of a mapping, an element of a list,
      a substring of a string), and `@context` is returned as it is. The two versions differ only
      on a projection without `@graph`. */
  lemma FrameVocabularyMeaning(context: Json, projection: Result<Projection>)
    ensures var r := FrameVocabulary(context, projection);
      var c := Subscript(context, "@context");
      && (r.Ok? <==>
            projection.Ok? && c.Ok? &&
            (Iterable(c.value) || forall k :: 0 <= k < |Entries(projection.value)| ==> Entries(projection.value)[k] == []))
      && (r.Raise? && projection.Ok? && c.Ok? ==> r.error == NotIterable(c.value))
      && (r.Ok? ==>
            var entries := Entries(projection.value);
            && |r.value.graph| == |entries|
            && r.value.context == c.value
            && forall k, m :: 0 <= k < |entries| ==>
                 (m in r.value.graph[k] <==> m in entries[k] && Includes(c.value, m.key) == Ok(true)))
    ensures projection.Ok? && projection.value.graph.Some? ==>
      FrameVocabularyStrict(context, projection) == FrameVocabulary(context, projection)
    ensures projection.Ok? && projection.value.graph.None? ==>
      FrameVocabularyStrict(context, projection) == Raise("'@graph'")
  {
    var r := FrameVocabulary(context, projection);
    if r.Ok? {
      var entries := Entries(projection.value);
      var c := Subscript(context, "@context").value;
      forall k, m | 0 <= k < |entries|
        ensures m in r.value.graph[k] <==> m in entries[k] && Includes(c, m.key) == Ok(true)
      {
        assert StripEntry(entries[k], c) == Ok(r.value.graph[k]);
      }
    }
  }

  /** `"." + frame_context.stem[8:]`: the part of the context's stem after "context-". */
  function ContextPrefix(frameContext: Path): (r: string)
    ensures r != "" && r[0] == '.'
    ensures '/' !in Name(frameContext) ==> '/' !in r
  {
    var stem := Stem(Name(frameContext));
    assert Stem(Name(frameContext)) + Suffix(Name(frameContext)) == Name(frameContext);
    assert forall c :: c in stem ==> c in Name(frameContext) by {
      forall c | c in stem ensures c in Name(frameContext) {
        var k :| 0 <= k < |stem| && stem[k] == c;
        assert Name(frameContext)[k] == c;
      }
    }
    "." + (if |stem| >= 8 then stem[8..] else "")
  }

  /** The YAML written for a vocabulary and a framing context. */
  function FramedYamlTarget(dest: Path, vpath: Path, frameContext: Path): (r: Path)
    requires Name(Concat(dest, vpath)) != "" && '/' !in Name(frameContext)
    ensures Name(r) == Stem(Name(Concat(dest, vpath))) + ContextPrefix(frameContext) + ".yaml"
    ensures Parent(r) == Parent(Concat(dest, vpath))
  {
    var pre := ContextPrefix(frameContext);
    YamlSuffixValid(pre);
    Regroup(Stem(Name(Concat(dest, vpath))), pre, ".yaml");
    WithSuffix(Concat(dest, vpath), pre + ".yaml")
  }

  lemma YamlSuffixValid(pre: string)
    requires pre != "" && pre[0] == '.' && '/' !in pre
    ensures ValidSuffix(pre + ".yaml")
  {
    assert (pre + ".yaml")[0] == '.';
    assert '/' !in ".yaml";
    NoSlashConcat(pre, ".yaml");
  }

  lemma NoSlashConcat(a: string, b: string)
    requires '/' !in a && '/' !in b
    ensures '/' !in a + b
  {
  }

  /** The CSV beside it: the `.yaml` suffix is replaced by `.csv`. */
  function CsvTarget(yaml: Path): (r: Path)
    requires Name(yaml) != ""
  {
    WithSuffix(yaml, ".csv")
  }

  /** A frame named `context-w.yaml` gives the prefix `.w`. */
  lemma ContextPrefixOf(frameContext: Path, w: string)
    requires Name(frameContext) == "context-" + w + ".yaml"
    ensures ContextPrefix(frameContext) == "." + w
  {
    Build.DotsAt("context-", w, ".yaml");
    assert ("context-" + w)[8..] == w;
  }

  /** A vocabulary `x.ttl` framed with `context-w.yaml` gives `x.w.yaml` and `x.w.csv` in the
      same directory (`context-short.ld.yaml` is the case `w = "short.ld"`). */
  lemma FramedNames(dest: Path, vpath: Path, x: string, frameContext: Path, w: string)
    requires x != "" && Name(Concat(dest, vpath)) == x + ".ttl"
    requires Name(frameContext) == "context-" + w + ".yaml" && '/' !in Name(frameContext)
    ensures var y := FramedYamlTarget(dest, vpath, frameContext);
      Name(y) == x + "." + w + ".yaml" && Name(CsvTarget(y)) == x + "." + w + ".csv" &&
      Parent(CsvTarget(y)) == Parent(y)
  {
    var y := FramedYamlTarget(dest, vpath, frameContext);
    FramedYamlName(dest, vpath, x, frameContext, w);
    YamlStem(x, w);
    CsvBeside(y, x + "." + w);
  }

  lemma YamlStem(x: string, w: string)
    requires x != ""
    ensures Stem(x + "." + w + ".yaml") == x + "." + w
  {
    Build.DotsAt(x + ".", w, ".yaml");
  }

  lemma CsvBeside(y: Path, base: string)
    requires Name(y) == base + ".yaml" && Stem(base + ".yaml") == base
    ensures Name(CsvTarget(y)) == base + ".csv" && Parent(CsvTarget(y)) == Parent(y)
  {
  }

  lemma FramedYamlName(dest: Path, vpath: Path, x: string, frameContext: Path, w: string)
    requires x != "" && Name(Concat(dest, vpath)) == x + ".ttl"
    requires Name(frameContext) == "context-" + w + ".yaml" && '/' !in Name(frameContext)
    ensures Name(FramedYamlTarget(dest, vpath, frameContext)) == x + "." + w + ".yaml"
  {
    ContextPrefixOf(frameContext, w);
    TurtleStem(x);
    DottedName(Stem(Name(Concat(dest, vpath))), ContextPrefix(frameContext), x, w);
  }

  lemma DottedName(stem: string, prefix: string, x: string, w: string)
    requires stem == x && prefix == "." + w
    ensures stem + prefix + ".yaml" == x + "." + w + ".yaml"
  {
    assert x + ("." + w) + ".yaml" == x + "." + w + ".yaml";
  }

  lemma TurtleStem(x: string)
    requires x != ""
    ensures Stem(x + ".ttl") == x
  {
    Build.DotsAt(x, "", ".ttl");
    assert x + "" + ".ttl" == x + ".ttl";
  }

  // ---- frame_vocabulary_to_csv (framing.py) ----

  function MetadataMessage(frameContext: Path, vpath: Path): string
  {
    "Metadata context defined in " + AsPosix(frameContext) +
    " cannot be used to extract meaningful data from RDF file: " + AsPosix(vpath) + "."
  }

  function BadVersionMessage(version: string, vpath: Path): string
  {
    "Bad version " + version + " for " + AsPosix(vpath)
  }

  const MissingIndex := "Missing index."

  /** `if "@value" in version: version = version.get("@value", version)`: a mapping is unwrapped;
      a string or list that contains "@value" has no `get`; other values cannot be searched. */
  function UnwrapVersion(v: Json): (r: Result<Json>)
    ensures v.Obj? && "@value" !in Keys(v.members) ==> r == Ok(v)
    ensures v.Obj? && "@value" in Keys(v.members) ==> r == Ok(Get(v.members, "@value").value)
  {
    match v
    case Obj(ms) => if "@value" in Keys(ms) then Ok(Get(ms, "@value").value) else Ok(v)
    case Str(s) => if Contains(s, "@value") then Raise("'str' object has no attribute 'get'") else Ok(v)
    case Arr(items) => if Str("@value") in items then Raise("'list' object has no attribute 'get'") else Ok(v)
    case _ => Raise("argument of type '" + TypeName(v) + "' is not iterable")
  }

  /** The first framed metadata entry, with its version unwrapped, and the version text. */
  datatype Metadata = Metadata(entry: seq<Member>, version: string)

  /** The try block on the framed metadata: a missing entry or version is reported as unusable
      metadata; a version that is not a string after unwrapping is a bad version. */
  function CsvMetadata(framed: Result<Framed>, frameContext: Path, vpath: Path, show: Json -> string): (r: Result<Metadata>)
  {
    match framed
    case Raise(e) => Raise(e)
    case Ok(f) =>
      if f.graph == [] then Raise(MetadataMessage(frameContext, vpath))
      else
        var entry := f.graph[0];
        match Get(entry, "version")
        case None => Raise(MetadataMessage(frameContext, vpath))
        case Some(v) =>
          match UnwrapVersion(v)
          case Raise(e) => Raise(e)
          case Ok(u) =>
            if !u.Str? then Raise(BadVersionMessage(show(u), vpath))
            else if v.Obj? && "@value" in Keys(v.members) then Ok(Metadata(Set(entry, "version", u), u.s))
            else Ok(Metadata(entry, u.s))
  }

  /** A version given as `{"@value": text}` is unwrapped and written back into the entry; any
      non-string version is refused. */
  lemma CsvMetadataVersion(f: Framed, frameContext: Path, vpath: Path, show: Json -> string, t: string)
    requires f.graph != [] && Get(f.graph[0], "version") == Some(Obj([Member("@value", Str(t))]))
    ensures CsvMetadata(Ok(f), frameContext, vpath, show).Ok?
    ensures CsvMetadata(Ok(f), frameContext, vpath, show).value.version == t
    ensures Get(CsvMetadata(Ok(f), frameContext, vpath, show).value.entry, "version") == Some(Str(t))
  {
    var v := Obj([Member("@value", Str(t))]);
    assert Keys(v.members) == ["@value"];
    SetMeaning(f.graph[0], "version", Str(t));
  }

  /** The comment lines written for the metadata: only url, title, version and description, in
      the entry's order. */
  function PreambleLines(entry: seq<Member>, show: Json -> string): (r: seq<string>)
    ensures |r| <= |entry|
  {
    if entry == [] then []
    else
      (if entry[0].key in ["url", "title", "version", "description"]
       then ["# " + entry[0].key + ": " + show(entry[0].value)] else []) + PreambleLines(entry[1..], show)
  }

  /** The two comment lines that open the CSV: the source file and the JSON-LD context. */
  function Header(vpath: Path, contextJson: Json, dumps: Json -> string): (r: seq<string>)
    ensures |r| == 2
  {
    ["# Serializing " + AsPosix(vpath), "# @context: " + dumps(contextJson)]
  }

  function Preamble(vpath: Path, contextJson: Json, entry: seq<Member>, show: Json -> string, dumps: Json -> string): seq<string>
  {
    Header(vpath, contextJson, dumps) + PreambleLines(entry, show)
  }

  /** What frame_vocabulary_to_csv leaves behind: the files written (in order), the comment lines
      of the CSV, the sqlite tables, and how it ended. */
  datatype Export = Export(written: seq<Path>, preamble: seq<string>, tables: seq<string>, result: Result<()>)

  function Failed(written: seq<Path>, e: string): Export { Export(written, [], [], Raise(e)) }

  /** The sqlite table name: the last `/`-segment of the url, lower-cased. */
  function TableName(entry: seq<Member>): Result<string>
  {
    match Get(entry, "url")
    case None => Raise("'url'")
    case Some(u) =>
      if !u.Str? then Raise("'" + TypeName(u) + "' object has no attribute 'split'")
      else
        var pieces := Split(u.s, '/');
        Ok(Lower(pieces[|pieces| - 1]))
  }

  /** The sqlite tables of df_to_sqlite; the description must be present. */
  function Tables(entry: seq<Member>, version: string): (r: Result<seq<string>>)
    ensures r.Ok? ==> |r.value| == 2 && r.value[1] == r.value[0] + "#meta"
  {
    match TableName(entry)
    case Raise(e) => Raise(e)
    case Ok(name) =>
      if Get(entry, "description").None? then Raise("'description'")
      else Ok([name + "#" + version, name + "#" + version + "#meta"])
  }

  /** The JSON Schema output, beside the framed YAML. */
  function SchemaOutTarget(dest: Path, vpath: Path, frameContext: Path): Path
    requires Name(Concat(dest, vpath)) != "" && '/' !in Name(frameContext)
  {
    var pre := ContextPrefix(frameContext);
    assert (pre + ".oas3.yaml")[0] == '.';
    NoSlashConcat(pre, ".oas3.yaml");
    WithSuffix(Concat(dest, vpath), pre + ".oas3.yaml")
  }

  /** Everything after the metadata has been extracted. */
  function ExportFramed(fs: Fs, vpath: Path, frameContext: Path, dest: Path, dumpSqlite: bool,
                        index: Option<string>, meta: Metadata, contextJson: Json,
                        show: Json -> string, dumps: Json -> string): Export
    requires vpath in fs && Name(Concat(dest, vpath)) != "" && '/' !in Name(frameContext)
  {
    var yaml := FramedYamlTarget(dest, vpath, frameContext);
    Outputs(if IsRecentThan(fs, vpath, yaml) then [yaml] else [], CsvTarget(yaml), Child(dest, "datastore.db"),
            SchemaOutTarget(dest, vpath, frameContext), dumpSqlite, index,
            Preamble(vpath, contextJson, meta.entry, show, dumps),
            if dumpSqlite then Tables(meta.entry, meta.version) else Ok([]))
  }

  /** The writes after the YAML: a missing index fails before the CSV; otherwise the CSV, the
      sqlite store when asked for (unless building its tables fails), and the schema. */
  function Outputs(w0: seq<Path>, csv: Path, db: Path, schema: Path, dumpSqlite: bool, index: Option<string>,
                   preamble: seq<string>, tables: Result<seq<string>>): Export
  {
    if index.None? || index.value == "" then Failed(w0, MissingIndex)
    else
      var w1 := w0 + [csv];
      if tables.Raise? then Export(w1, preamble, [], Raise(tables.error))
      else
        var w2 := if dumpSqlite then w1 + [db] else w1;
        Export(w2 + [schema], preamble, tables.value, Ok(()))
  }

  lemma OutputsMeaning(w0: seq<Path>, csv: Path, db: Path, schema: Path, dumpSqlite: bool, index: Option<string>,
                       preamble: seq<string>, tables: Result<seq<string>>)
    ensures var x := Outputs(w0, csv, db, schema, dumpSqlite, index, preamble, tables);
      && (index.None? || index == Some("") ==> x == Failed(w0, MissingIndex))
      && (x.result.Ok? ==>
            x.written == w0 + [csv] + (if dumpSqlite then [db] else []) + [schema] && x.tables == tables.value)
      && (x.result.Raise? ==> x.tables == [])
  {
    var x := Outputs(w0, csv, db, schema, dumpSqlite, index, preamble, tables);
    if x.result.Ok? && !dumpSqlite {
      assert w0 + [csv] + [] == w0 + [csv];
    }
  }

  /** frame_vocabulary_to_csv. `load` is yaml_load of the framing context, `check` the JSON-LD
      parse inside is_framing_context (which never returns false), `frame` pyld's framing of the
      vocabulary under a given frame. */
  function CsvExport(fs: Fs, vpath: Path, frameContext: Path, dest: Path, dumpSqlite: bool,
                     load: Result<Json>, check: Json -> Result<()>, frame: Json -> Result<Projection>,
                     show: Json -> string, dumps: Json -> string): Export
    requires vpath in fs && Name(Concat(dest, vpath)) != "" && '/' !in Name(frameContext)
  {
    if load.Raise? then Failed([], load.error)
    else
      var context := load.value;
      if check(context).Raise? then Failed([], check(context).error)
      else if !context.Obj? then Failed([], Subscript(context, "@context").error)
      else match ComponentsOf(context.members)
        case Raise(e) => Failed([], e)
        case Ok(c) =>
          var framedMeta := FrameVocabulary(c.metadataContext, frame(c.metadataContext));
          match CsvMetadata(framedMeta, frameContext, vpath, show)
          case Raise(e) => Failed([], e)
          case Ok(meta) =>
            match FrameVocabulary(context, frame(context))
            case Raise(e) => Failed([], e)
            case Ok(data) =>
              ExportFramed(fs, vpath, frameContext, dest, dumpSqlite, c.index, meta, data.context, show, dumps)
  }

  /** The outputs in order: the framed YAML when stale, the CSV, the sqlite store when asked for,
      and the JSON Schema; with no usable index only the YAML may have been written. */
  lemma ExportMeaning(fs: Fs, vpath: Path, frameContext: Path, dest: Path, dumpSqlite: bool,
                      index: Option<string>, meta: Metadata, contextJson: Json,
                      show: Json -> string, dumps: Json -> string)
    requires vpath in fs && Name(Concat(dest, vpath)) != "" && '/' !in Name(frameContext)
    ensures var x := ExportFramed(fs, vpath, frameContext, dest, dumpSqlite, index, meta, contextJson, show, dumps);
      var yaml := FramedYamlTarget(dest, vpath, frameContext);
      var w0 := if IsRecentThan(fs, vpath, yaml) then [yaml] else [];
      && (index.None? || index == Some("") ==> x == Failed(w0, MissingIndex))
      && (x.result.Ok? ==>
            x.written == w0 + [CsvTarget(yaml)] + (if dumpSqlite then [Child(dest, "datastore.db")] else []) +
                         [SchemaOutTarget(dest, vpath, frameContext)] &&
            (dumpSqlite ==> x.tables == Tables(meta.entry, meta.version).value) &&
            (!dumpSqlite ==> x.tables == []))
      && (x.result.Raise? ==> x.tables == [])
  {
    var yaml := FramedYamlTarget(dest, vpath, frameContext);
    OutputsMeaning(if IsRecentThan(fs, vpath, yaml) then [yaml] else [], CsvTarget(yaml), Child(dest, "datastore.db"),
                   SchemaOutTarget(dest, vpath, frameContext), dumpSqlite, index,
                   Preamble(vpath, contextJson, meta.entry, show, dumps),
                   if dumpSqlite then Tables(meta.entry, meta.version) else Ok([]));
  }

  /** frame_vocabulary_to_csv, writing the comment lines in a loop over the metadata entry. */
  method FrameVocabularyToCsv(fs: Fs, vpath: Path, frameContext: Path, dest: Path, dumpSqlite: bool,
                              load: Result<Json>, check: Json -> Result<()>, frame: Json -> Result<Projection>,
                              show: Json -> string, dumps: Json -> string)
    returns (x: Export)
    requires vpath in fs && Name(Concat(dest, vpath)) != "" && '/' !in Name(frameContext)
    ensures x == CsvExport(fs, vpath, frameContext, dest, dumpSqlite, load, check, frame, show, dumps)
  {
    if load.Raise? {
      return Failed([], load.error);
    }
    var context := load.value;
    if check(context).Raise? {
      return Failed([], check(context).error);
    }
    if !context.Obj? {
      return Failed([], Subscript(context, "@context").error);
    }
    var comps := FrameComponents(context.members);
    if comps.Raise? {
      return Failed([], comps.error);
    }
    var c := comps.value;
    var meta := CsvMetadata(FrameVocabulary(c.metadataContext, frame(c.metadataContext)), frameContext, vpath, show);
    if meta.Raise? {
      return Failed([], meta.error);
    }
    var data := FrameVocabulary(context, frame(context));
    if data.Raise? {
      return Failed([], data.error);
    }
    x := WriteOutputs(fs, vpath, frameContext, dest, dumpSqlite, c.index, meta.value, data.value.context, show, dumps);
  }

  /** The writes that follow a successful framing: YAML, CSV with its comment lines, sqlite, schema. */
  method WriteOutputs(fs: Fs, vpath: Path, frameContext: Path, dest: Path, dumpSqlite: bool,
                      index: Option<string>, meta: Metadata, contextJson: Json,
                      show: Json -> string, dumps: Json -> string)
    returns (x: Export)
    requires vpath in fs && Name(Concat(dest, vpath)) != "" && '/' !in Name(frameContext)
    ensures x == ExportFramed(fs, vpath, frameContext, dest, dumpSqlite, index, meta, contextJson, show, dumps)
  {
    var yaml := FramedYamlTarget(dest, vpath, frameContext);
    var written := if IsRecentThan(fs, vpath, yaml) then [yaml] else [];
    if index.None? || index.value == "" {
      return Failed(written, MissingIndex);
    }
    var lines := WritePreamble(meta.entry, show);
    var preamble := Header(vpath, contextJson, dumps) + lines;
    written := written + [CsvTarget(yaml)];
    var tables: seq<string> := [];
    if dumpSqlite {
      var t := Tables(meta.entry, meta.version);
      if t.Raise? {
        return Export(written, preamble, [], Raise(t.error));
      }
      tables := t.value;
      written := written + [Child(dest, "datastore.db")];
    }
    written := written + [SchemaOutTarget(dest, vpath, frameContext)];
    x := Export(written, preamble, tables, Ok(()));
  }

  /** The `for k, v in csv_metadata.items()` loop. */
  method WritePreamble(entry: seq<Member>, show: Json -> string) returns (lines: seq<string>)
    ensures lines == PreambleLines(entry, show)
  {
    lines := [];
    for i := 0 to |entry|
      invariant lines == PreambleLines(entry[..i], show)
    {
      assert entry[..i + 1] == entry[..i] + [entry[i]];
      PreambleAppend(entry[..i], entry[i], show);
      if entry[i].key in ["url", "title", "version", "description"] {
        lines := lines + ["# " + entry[i].key + ": " + show(entry[i].value)];
      }
    }
    assert entry[..|entry|] == entry;
  }

  lemma {:induction false} PreambleAppend(entry: seq<Member>, m: Member, show: Json -> string)
    ensures PreambleLines(entry + [m], show) == PreambleLines(entry, show) +
      (if m.key in ["url", "title", "version", "description"] then ["# " + m.key + ": " + show(m.value)] else [])
    decreases |entry|
  {
    if entry != [] {
      assert (entry + [m])[1..] == entry[1..] + [m];
      PreambleAppend(entry[1..], m, show);
    }
  }

  // ---- generate_frame (playground/framing.py) ----

  /** One framing context of generate_frame: the YAML is always written, then a missing index
      raises before the CSV. `prepared` is what the context came to before anything is written. */
  datatype Step = Step(written: seq<Path>, result: Result<()>)

  function FrameStep(vpath: Path, dest: Path, c: Path, prepared: Result<Option<string>>): Step
    requires Name(Concat(dest, vpath)) != "" && '/' !in Name(c)
  {
    match prepared
    case Raise(e) => Step([], Raise(e))
    case Ok(index) =>
      var yaml := FramedYamlTarget(dest, vpath, c);
      if index.None? || index.value == "" then Step([yaml], Raise(MissingIndex))
      else Step([yaml, CsvTarget(yaml)], Ok(()))
  }

  /** Everything one context goes through before its YAML is written: loading, the schema check,
      the split of the context and the framing; the index it names, or the first error. */
  function Prepared(c: Path, load: Path -> Result<Json>, check: Json -> Result<()>,
                    frame: Json -> Result<Projection>): Result<Option<string>>
  {
    match load(c)
    case Raise(e) => Raise(e)
    case Ok(context) =>
      if check(context).Raise? then Raise(check(context).error)
      else if !context.Obj? then Raise(Subscript(context, "@context").error)
      else match ComponentsTriple(context.members)
        case Raise(e) => Raise(e)
        case Ok(parts) =>
          match FrameVocabularyStrict(context, frame(context))
          case Raise(e) => Raise(e)
          case Ok(_) => Ok(parts.2)
  }

  function Preparation(load: Path -> Result<Json>, check: Json -> Result<()>,
                       frame: Json -> Result<Projection>): Path -> Result<Option<string>>
  {
    c => Prepared(c, load, check, frame)
  }

  predicate NamesWithoutSlash(cs: seq<Path>) { forall k :: 0 <= k < |cs| ==> '/' !in Name(cs[k]) }

  /** The contexts handled in order, stopping at the first failure. */
  function Frames(vpath: Path, dest: Path, cs: seq<Path>, prep: Path -> Result<Option<string>>): Step
    requires Name(Concat(dest, vpath)) != "" && NamesWithoutSlash(cs)
    decreases |cs|
  {
    if cs == [] then Step([], Ok(()))
    else
      var prev := Frames(vpath, dest, cs[..|cs| - 1], prep);
      if prev.result.Raise? then prev
      else
        var s := FrameStep(vpath, dest, cs[|cs| - 1], prep(cs[|cs| - 1]));
        Step(prev.written + s.written, s.result)
  }

  /** After a failure nothing more is done. */
  lemma {:induction false} FramesStop(vpath: Path, dest: Path, cs: seq<Path>, n: nat, prep: Path -> Result<Option<string>>)
    requires Name(Concat(dest, vpath)) != "" && NamesWithoutSlash(cs) && n <= |cs|
    requires Frames(vpath, dest, cs[..n], prep).result.Raise?
    ensures Frames(vpath, dest, cs, prep) == Frames(vpath, dest, cs[..n], prep)
    decreases |cs| - n
  {
    if n < |cs| {
      assert cs[..n + 1][..n] == cs[..n];
      FramesStop(vpath, dest, cs, n + 1, prep);
    } else {
      assert cs[..n] == cs;
    }
  }

  /** A run that completes writes a YAML and a CSV per context, two files each. */
  lemma {:induction false} FramesComplete(vpath: Path, dest: Path, cs: seq<Path>, prep: Path -> Result<Option<string>>)
    requires Name(Concat(dest, vpath)) != "" && NamesWithoutSlash(cs)
    requires Frames(vpath, dest, cs, prep).result.Ok?
    ensures |Frames(vpath, dest, cs, prep).written| == 2 * |cs|
    ensures forall k :: 0 <= k < |cs| ==>
      Frames(vpath, dest, cs, prep).written[2 * k] == FramedYamlTarget(dest, vpath, cs[k]) &&
      Frames(vpath, dest, cs, prep).written[2 * k + 1] == CsvTarget(FramedYamlTarget(dest, vpath, cs[k]))
    decreases |cs|
  {
    if cs != [] {
      var init := cs[..|cs| - 1];
      var c := cs[|cs| - 1];
      FramesLast(vpath, dest, cs, prep);
      var prev := Frames(vpath, dest, init, prep);
      FramesComplete(vpath, dest, init, prep);
      var w := Frames(vpath, dest, cs, prep).written;
      forall k | 0 <= k < |cs|
        ensures w[2 * k] == FramedYamlTarget(dest, vpath, cs[k])
        ensures w[2 * k + 1] == CsvTarget(FramedYamlTarget(dest, vpath, cs[k]))
      {
        if k < |init| {
          assert init[k] == cs[k];
          assert w[2 * k] == prev.written[2 * k];
          assert w[2 * k + 1] == prev.written[2 * k + 1];
        } else {
          assert k == |init| && c == cs[k];
          assert w[2 * k] == FramedYamlTarget(dest, vpath, c);
        }
      }
    }
  }

  /** A completed run is the completed run over all but the last context, then that context's
      two files. */
  lemma FramesLast(vpath: Path, dest: Path, cs: seq<Path>, prep: Path -> Result<Option<string>>)
    requires Name(Concat(dest, vpath)) != "" && NamesWithoutSlash(cs) && cs != []
    requires Frames(vpath, dest, cs, prep).result.Ok?
    ensures NamesWithoutSlash(cs[..|cs| - 1])
    ensures Frames(vpath, dest, cs[..|cs| - 1], prep).result.Ok?
    ensures Frames(vpath, dest, cs, prep).written ==
      Frames(vpath, dest, cs[..|cs| - 1], prep).written +
      [FramedYamlTarget(dest, vpath, cs[|cs| - 1]), CsvTarget(FramedYamlTarget(dest, vpath, cs[|cs| - 1]))]
  {
    assert NamesWithoutSlash(cs[..|cs| - 1]);
    StepComplete(vpath, dest, cs[|cs| - 1], prep(cs[|cs| - 1]));
  }

  lemma StepComplete(vpath: Path, dest: Path, c: Path, prepared: Result<Option<string>>)
    requires Name(Concat(dest, vpath)) != "" && '/' !in Name(c)
    requires FrameStep(vpath, dest, c, prepared).result.Ok?
    ensures FrameStep(vpath, dest, c, prepared).written ==
      [FramedYamlTarget(dest, vpath, c), CsvTarget(FramedYamlTarget(dest, vpath, c))]
  {
  }

  /** One more context after a run that completed so far. */
  lemma FramesExtend(vpath: Path, dest: Path, cs: seq<Path>, i: nat, prep: Path -> Result<Option<string>>)
    requires Name(Concat(dest, vpath)) != "" && NamesWithoutSlash(cs) && i < |cs|
    requires Frames(vpath, dest, cs[..i], prep).result.Ok?
    ensures NamesWithoutSlash(cs[..i + 1])
    ensures var s := FrameStep(vpath, dest, cs[i], prep(cs[i]));
      Frames(vpath, dest, cs[..i + 1], prep) == Step(Frames(vpath, dest, cs[..i], prep).written + s.written, s.result)
  {
    assert cs[..i + 1][..i] == cs[..i];
    assert NamesWithoutSlash(cs[..i + 1]);
  }

  /** generate_frame: one framing per `context-*.ld.yaml` beside the vocabulary, in glob order. */
  method GenerateFrame(fs: Fs, vpath: Path, dest: Path, load: Path -> Result<Json>, check: Json -> Result<()>,
                       frame: Json -> Result<Projection>)
    returns (x: Step)
    requires Name(Concat(dest, vpath)) != "" && NamesWithoutSlash(Build.FrameContexts(fs, vpath))
    ensures x == Frames(vpath, dest, Build.FrameContexts(fs, vpath), Preparation(load, check, frame))
  {
    var cs := Build.FrameContexts(fs, vpath);
    var prep := Preparation(load, check, frame);
    var written: seq<Path> := [];
    for i := 0 to |cs|
      invariant NamesWithoutSlash(cs[..i])
      invariant Frames(vpath, dest, cs[..i], prep) == Step(written, Ok(()))
    {
      FramesExtend(vpath, dest, cs, i, prep);
      var s := FrameStep(vpath, dest, cs[i], prep(cs[i]));
      if s.result.Raise? {
        FramesStop(vpath, dest, cs, i + 1, prep);
        return Step(written + s.written, s.result);
      }
      written := written + s.written;
    }
    assert cs[..|cs|] == cs;
    x := Step(written, Ok(()));
  }
}
