/** The semantic bundle of an OpenAPI document: how many schemas carry a JSON-LD context, how
    many of each such schema's properties the context annotates, and which schemas refer to each
    ontology term. */
module SemanticBundle {
  import opened Wrappers
  import opened JsonValues
  import opened Semantic

  /** The coverage of one annotated schema: annotated and total properties, and its summary. */
  datatype Coverage = Coverage(semantic: nat, total: nat, summary: Summary)

  /** The bundle: the document title, the number of declared schemas, the number of annotated
      ones, the coverage per schema pointer and the referring pointers per ontology term. */
  datatype Bundle = Bundle(title: Json, schemaTotal: nat, covered: nat,
                           coverage: map<string, Coverage>, referrers: map<string, seq<string>>)

  const ContextKey := "x-jsonld-context"

  /** len() of a JSON value. */
  function Len(j: Json): (r: Result<nat>)
    ensures j.Obj? ==> r == Ok(|j.members|)
  {
    match j
    case Obj(ms) => Ok(|ms|)
    case Arr(items) => Ok(|items|)
    case Str(s) => Ok(|s|)
    case _ => Raise("object of type '" + TypeName(j) + "' has no len()")
  }

  /** The bundle before any context: the title (which must exist), the number of schemas under
      `components` (none when absent) and nothing covered. */
  function Start(spec: Json): Result<Bundle>
  {
    match Subscript(spec, "info")
    case Raise(e) => Raise(e)
    case Ok(info) =>
      match Subscript(info, "title")
      case Raise(e) => Raise(e)
      case Ok(title) =>
        match GetOr(spec, "components", Obj([]))
        case Raise(e) => Raise(e)
        case Ok(components) =>
          match GetOr(components, "schemas", Obj([]))
          case Raise(e) => Raise(e)
          case Ok(schemas) =>
            match Len(schemas)
            case Raise(e) => Raise(e)
            case Ok(n) => Ok(Bundle(title, n, 0, map[], map[]))
  }

  // ---- properties_score ----

  /** The value a context gives a property, None when the context has no such entry. */
  function Annotation(context: Json, name: string): Json
  {
    if context.Obj? then (match Get(context.members, name) case Some(v) => v case None => Null) else Null
  }

  /** The running (annotated, total) pair after one more property. */
  function Tally(acc: (nat, nat), annotated: bool): (nat, nat)
  {
    (if annotated then acc.0 + 1 else acc.0, acc.1 + 1)
  }

  /** (annotated, total) over the properties: each property schema must be a mapping and the
      context must be one; a property counts as annotated when the context's value for it is
      truthy. */
  function Score(props: seq<Member>, context: Json): (r: Result<(nat, nat)>)
    ensures r.Ok? ==> r.value.0 <= r.value.1 == |props|
    decreases |props|
  {
    if props == [] then Ok((0, 0))
    else
      match Score(props[..|props| - 1], context)
      case Raise(e) => Raise(e)
      case Ok(acc) =>
        var p := props[|props| - 1];
        if !p.value.Obj? then Raise(NoGet(p.value))
        else if !context.Obj? then Raise(NoGet(context))
        else Ok(Tally(acc, Annotated(context, p)))
  }

  /** Whether the context gives a property a truthy value. */
  predicate Annotated(context: Json, p: Member)
  {
    Truthy(Annotation(context, p.key))
  }

  predicate AllAnnotated(props: seq<Member>, context: Json)
  {
    forall k :: 0 <= k < |props| ==> Annotated(context, props[k])
  }

  predicate NoneAnnotated(props: seq<Member>, context: Json)
  {
    forall k :: 0 <= k < |props| ==> !Annotated(context, props[k])
  }

  /** Every property is annotated iff the score is full, and none is iff it is zero. */
  lemma ScoreMeaning(props: seq<Member>, context: Json)
    requires Score(props, context).Ok?
    ensures Score(props, context).value.0 == |props| <==> forall k :: 0 <= k < |props| ==> Truthy(Annotation(context, props[k].key))
    ensures Score(props, context).value.0 == 0 <==> forall k :: 0 <= k < |props| ==> !Truthy(Annotation(context, props[k].key))
  {
    ScoreFull(props, context);
    ScoreZero(props, context);
  }

  lemma {:induction false} ScoreFull(props: seq<Member>, context: Json)
    requires Score(props, context).Ok?
    ensures Score(props, context).value.0 == |props| <==> AllAnnotated(props, context)
    decreases |props|
  {
    if props != [] {
      var init := props[..|props| - 1];
      ScoreFull(init, context);
      AnnotatedSnoc(props, context);
    }
  }

  lemma {:induction false} ScoreZero(props: seq<Member>, context: Json)
    requires Score(props, context).Ok?
    ensures Score(props, context).value.0 == 0 <==> NoneAnnotated(props, context)
    decreases |props|
  {
    if props != [] {
      var init := props[..|props| - 1];
      ScoreZero(init, context);
      AnnotatedSnoc(props, context);
    }
  }

  /** All (none) of the properties are annotated iff all (none) but the last are and the last is (is not). */
  lemma AnnotatedSnoc(props: seq<Member>, context: Json)
    requires props != []
    ensures var init, last := props[..|props| - 1], props[|props| - 1];
      && (AllAnnotated(props, context) <==> AllAnnotated(init, context) && Annotated(context, last))
      && (NoneAnnotated(props, context) <==> NoneAnnotated(init, context) && !Annotated(context, last))
  {
    var init := props[..|props| - 1];
    EverySnoc(props, init, m => Annotated(context, m));
    EverySnoc(props, init, m => !Annotated(context, m));
  }

  lemma EverySnoc(xs: seq<Member>, init: seq<Member>, p: Member -> bool)
    requires xs != [] && init == xs[..|xs| - 1]
    ensures (forall k :: 0 <= k < |xs| ==> p(xs[k])) <==>
      (forall k :: 0 <= k < |init| ==> p(init[k])) && p(xs[|xs| - 1])
  {
    assert forall k :: 0 <= k < |init| ==> init[k] == xs[k];
  }

  /** The properties loop. */
  method ScoreProperties(props: seq<Member>, context: Json) returns (r: Result<(nat, nat)>)
    ensures r == Score(props, context)
  {
    var semantic, total := 0, 0;
    for i := 0 to |props|
      invariant Score(props[..i], context) == Ok((semantic, total))
    {
      ScoreNext(props, i, context);
      if !props[i].value.Obj? {
        ScoreStop(props, i + 1, context);
        return Raise(NoGet(props[i].value));
      }
      total := total + 1;
      if !context.Obj? {
        ScoreStop(props, i + 1, context);
        return Raise(NoGet(context));
      }
      if Annotated(context, props[i]) {
        semantic := semantic + 1;
      }
    }
    assert props[..|props|] == props;
    r := Ok((semantic, total));
  }

  /** The score of one more property, from the score of those before it. */
  lemma ScoreNext(props: seq<Member>, i: nat, context: Json)
    requires i < |props|
    ensures Score(props[..i + 1], context) ==
      match Score(props[..i], context)
      case Raise(e) => Raise(e)
      case Ok(acc) =>
        if !props[i].value.Obj? then Raise(NoGet(props[i].value))
        else if !context.Obj? then Raise(NoGet(context))
        else Ok(Tally(acc, Annotated(context, props[i])))
  {
    assert props[..i + 1][..i] == props[..i];
  }

  lemma {:induction false} ScoreStop(props: seq<Member>, n: nat, context: Json)
    requires n <= |props| && Score(props[..n], context).Raise?
    ensures Score(props, context) == Score(props[..n], context)
    decreases |props| - n
  {
    if n < |props| {
      assert props[..n + 1][..n] == props[..n];
      ScoreStop(props, n + 1, context);
    } else {
      assert props[..n] == props;
    }
  }

  // ---- referrers ----

  function Repeat(x: string, n: nat): (r: seq<string>)
    ensures |r| == n && forall k :: 0 <= k < n ==> r[k] == x
  {
    if n == 0 then [] else Repeat(x, n - 1) + [x]
  }

  function Count(xs: seq<string>, x: string): nat
  {
    if xs == [] then 0 else (if xs[0] == x then 1 else 0) + Count(xs[1..], x)
  }

  /** The referrer list of one term with the schema fragment appended, starting an empty list when new. */
  function Refer(refs: map<string, seq<string>>, name: string, fragment: string): map<string, seq<string>>
  {
    refs[name := (if name in refs then refs[name] else []) + [fragment]]
  }

  /** The referrer loop over the terms the context validates, in order. */
  function AddReferrers(refs: map<string, seq<string>>, names: seq<string>, fragment: string): map<string, seq<string>>
    decreases |names|
  {
    if names == [] then refs else AddReferrers(Refer(refs, names[0], fragment), names[1..], fragment)
  }

  /** Every validated term gets the schema fragment once per occurrence; other lists are untouched. */
  lemma {:induction false} AddReferrersMeaning(refs: map<string, seq<string>>, names: seq<string>, fragment: string, n: string)
    ensures n in AddReferrers(refs, names, fragment) <==> n in refs || n in names
    ensures n in refs && n !in names ==> AddReferrers(refs, names, fragment)[n] == refs[n]
    ensures n in refs || n in names ==>
      AddReferrers(refs, names, fragment)[n] == (if n in refs then refs[n] else []) + Repeat(fragment, Count(names, n))
    decreases |names|
  {
    if names != [] {
      var next := Refer(refs, names[0], fragment);
      AddReferrersMeaning(next, names[1..], fragment, n);
      if n == names[0] {
        var old0 := if n in refs then refs[n] else [];
        assert Repeat(fragment, Count(names, n)) == [fragment] + Repeat(fragment, Count(names[1..], n)) by {
          RepeatCons(fragment, Count(names[1..], n));
        }
        assert old0 + [fragment] + Repeat(fragment, Count(names[1..], n)) == old0 + Repeat(fragment, Count(names, n));
      } else {
        assert n in names ==> n in names[1..] by {
          if n in names {
            var k :| 0 <= k < |names| && names[k] == n;
            assert k > 0 && names[1..][k - 1] == n;
          }
        }
      }
    }
  }

  lemma RepeatCons(x: string, n: nat)
    ensures Repeat(x, n + 1) == [x] + Repeat(x, n)
  {
  }

  method AddReferrerLoop(refs: map<string, seq<string>>, names: seq<string>, fragment: string) returns (r: map<string, seq<string>>)
    ensures r == AddReferrers(refs, names, fragment)
  {
    r := refs;
    for i := 0 to |names|
      invariant AddReferrers(refs, names, fragment) == AddReferrers(r, names[i..], fragment)
    {
      assert names[i..][1..] == names[i + 1..];
      r := Refer(r, names[i], fragment);
    }
  }

  // ---- one annotated schema ----

  /** One yielded context: its JSON pointer (which may fail), the schema check of the enclosing schema,
      the object-type requirement, the score, the summary and the validated terms. `summarize` is
      get_semantic_summary, `validated` the terms validate_context reports. */
  function HitStep(b: Bundle, h: Hit, checkSchema: seq<Member> -> Result<()>,
                   summarize: Json -> Result<Summary>, validated: Json -> Result<seq<string>>): Result<Bundle>
  {
    match JsonPointer(h, ContextKey)
    case Raise(e) => Raise(e)
    case Ok(fragment) =>
      if checkSchema(h.parent).Raise? then Raise(checkSchema(h.parent).error)
      else if Get(h.parent, "type") != Some(Str("object")) then Raise("NotImplementedError")
      else
        var props := match Get(h.parent, "properties") case Some(v) => v case None => Obj([]);
        if !props.Obj? then Raise(NoItems(props))
        else match Score(props.members, h.value)
          case Raise(e) => Raise(e)
          case Ok(score) =>
            match summarize(h.value)
            case Raise(e) => Raise(e)
            case Ok(summary) =>
              match validated(h.value)
              case Raise(e) => Raise(e)
              case Ok(names) =>
                Ok(Bundle(b.title, b.schemaTotal, b.covered + 1, b.coverage[fragment := Coverage(score.0, score.1, summary)],
                          AddReferrers(b.referrers, names, fragment)))
  }

  /** The contexts handled in order, the first failure ending the bundle. */
  function Steps(b: Bundle, hits: seq<Hit>, checkSchema: seq<Member> -> Result<()>,
                 summarize: Json -> Result<Summary>, validated: Json -> Result<seq<string>>): Result<Bundle>
    decreases |hits|
  {
    if hits == [] then Ok(b)
    else
      match Steps(b, hits[..|hits| - 1], checkSchema, summarize, validated)
      case Raise(e) => Raise(e)
      case Ok(acc) => HitStep(acc, hits[|hits| - 1], checkSchema, summarize, validated)
  }

  /** ndc_semantic_bundle. */
  function NdcBundle(spec: Json, checkSchema: seq<Member> -> Result<()>,
                     summarize: Json -> Result<Summary>, validated: Json -> Result<seq<string>>): Result<Bundle>
  {
    match Start(spec)
    case Raise(e) => Raise(e)
    case Ok(b) => Steps(b, Found(spec, ContextKey, []), checkSchema, summarize, validated)
  }

  /** A completed bundle counts every context once, keeps title and schema total, scores each
      annotated schema within its property count, and records a JSON pointer of some context for
      every covered schema. */
  lemma {:induction false} StepsMeaning(b: Bundle, hits: seq<Hit>, checkSchema: seq<Member> -> Result<()>,
                                        summarize: Json -> Result<Summary>, validated: Json -> Result<seq<string>>)
    requires Steps(b, hits, checkSchema, summarize, validated).Ok?
    ensures var r := Steps(b, hits, checkSchema, summarize, validated).value;
      && r.covered == b.covered + |hits|
      && r.title == b.title && r.schemaTotal == b.schemaTotal
      && (forall f :: f in r.coverage ==> f in b.coverage || exists k :: 0 <= k < |hits| && JsonPointer(hits[k], ContextKey) == Ok(f))
      && (forall f :: f in r.coverage && f !in b.coverage ==> r.coverage[f].semantic <= r.coverage[f].total)
    decreases |hits|
  {
    if hits != [] {
      var init := hits[..|hits| - 1];
      StepsMeaning(b, init, checkSchema, summarize, validated);
      assert forall k :: 0 <= k < |init| ==> init[k] == hits[k];
    }
  }

  /** ndc_semantic_bundle, one yielded context at a time. */
  method NdcSemanticBundle(spec: Json, checkSchema: seq<Member> -> Result<()>,
                           summarize: Json -> Result<Summary>, validated: Json -> Result<seq<string>>)
    returns (r: Result<Bundle>)
    ensures r == NdcBundle(spec, checkSchema, summarize, validated)
  {
    var start := Start(spec);
    if start.Raise? {
      return Raise(start.error);
    }
    r := BundleLoop(start.value, Found(spec, ContextKey, []), checkSchema, summarize, validated);
  }

  /** The loop over get_context_info. */
  method BundleLoop(start: Bundle, hits: seq<Hit>, checkSchema: seq<Member> -> Result<()>,
                    summarize: Json -> Result<Summary>, validated: Json -> Result<seq<string>>)
    returns (r: Result<Bundle>)
    ensures r == Steps(start, hits, checkSchema, summarize, validated)
  {
    var b := start;
    for i := 0 to |hits|
      invariant Steps(start, hits[..i], checkSchema, summarize, validated) == Ok(b)
    {
      assert hits[..i + 1][..i] == hits[..i];
      var next := AnnotatedSchema(b, hits[i], checkSchema, summarize, validated);
      if next.Raise? {
        BundleStop(start, hits, i + 1, checkSchema, summarize, validated);
        return Raise(next.error);
      }
      b := next.value;
    }
    assert hits[..|hits|] == hits;
    r := Ok(b);
  }

  /** The body of the loop over get_context_info. */
  method AnnotatedSchema(b: Bundle, h: Hit, checkSchema: seq<Member> -> Result<()>,
                         summarize: Json -> Result<Summary>, validated: Json -> Result<seq<string>>)
    returns (r: Result<Bundle>)
    ensures r == HitStep(b, h, checkSchema, summarize, validated)
  {
    var fragment := JsonPointer(h, ContextKey);
    if fragment.Raise? {
      return Raise(fragment.error);
    }
    if checkSchema(h.parent).Raise? {
      return Raise(checkSchema(h.parent).error);
    }
    var covered := b.covered + 1;
    if Get(h.parent, "type") != Some(Str("object")) {
      return Raise("NotImplementedError");
    }
    var props := match Get(h.parent, "properties") case Some(v) => v case None => Obj([]);
    if !props.Obj? {
      return Raise(NoItems(props));
    }
    var score := ScoreProperties(props.members, h.value);
    if score.Raise? {
      return Raise(score.error);
    }
    var summary := summarize(h.value);
    if summary.Raise? {
      return Raise(summary.error);
    }
    var names := validated(h.value);
    if names.Raise? {
      return Raise(names.error);
    }
    var refs := AddReferrerLoop(b.referrers, names.value, fragment.value);
    r := Ok(Bundle(b.title, b.schemaTotal, covered,
                   b.coverage[fragment.value := Coverage(score.value.0, score.value.1, summary.value)], refs));
  }

  lemma {:induction false} BundleStop(b: Bundle, hits: seq<Hit>, n: nat, checkSchema: seq<Member> -> Result<()>,
                                      summarize: Json -> Result<Summary>, validated: Json -> Result<seq<string>>)
    requires n <= |hits| && Steps(b, hits[..n], checkSchema, summarize, validated).Raise?
    ensures Steps(b, hits, checkSchema, summarize, validated) == Steps(b, hits[..n], checkSchema, summarize, validated)
    decreases |hits| - n
  {
    if n < |hits| {
      assert hits[..n + 1][..n] == hits[..n];
      BundleStop(b, hits, n + 1, checkSchema, summarize, validated);
    } else {
      assert hits[..n] == hits;
    }
  }
}
