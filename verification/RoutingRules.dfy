/** The routing rules, spelled out on the fields of a model record. */
module RoutingRules {
  import opened PyValue
  import opened Text
  import opened Registry
  import opened Breaker
  import opened Routing

  // ---- Numbers

  /** A price counts as given if it is a number from zero up; anything else costs 999. */
  lemma PriceOf(py: Python, m: Object)
    ensures forall r | Get(m, "cost_input_1m") == Num(Fin(r)) && r >= 0.0 :: InputCost(py, m) == r
    ensures forall r | Get(m, "cost_output_1m") == Num(Fin(r)) && r >= 0.0 :: OutputCost(py, m) == r
    ensures forall r | Get(m, "cost_input_1m") == Num(Fin(r)) && r < 0.0 :: InputCost(py, m) == 999.0
    ensures Get(m, "cost_input_1m") in {Null, Num(NaN), Num(PosInf), Num(NegInf)} ==> InputCost(py, m) == 999.0
    ensures Get(m, "cost_output_1m") in {Null, Num(NaN), Num(PosInf), Num(NegInf)} ==> OutputCost(py, m) == 999.0
  {
  }

  /** Intelligence that is no finite number is zero. */
  lemma IntelligenceOf(py: Python, m: Object)
    ensures forall r | Get(m, "intelligence") == Num(Fin(r)) :: Intelligence(py, m) == r
    ensures Get(m, "intelligence") in {Null, Num(NaN), Num(PosInf), Num(NegInf)} ==> Intelligence(py, m) == 0.0
  {
  }

  /** A model is a last resort if it says so, or is free and below the floor; it is normal if it does not say so and is
      not below the floor. */
  lemma BucketOnFields(py: Python, m: Object, floor: int, input: real, output: real, mind: real)
    requires Get(m, "cost_input_1m") == Num(Fin(input)) && Get(m, "cost_output_1m") == Num(Fin(output))
    requires input >= 0.0 && output >= 0.0 && Get(m, "intelligence") == Num(Fin(mind))
    requires Get(m, "fallback_only") in {Null, Bool(false), Bool(true)}
    ensures var below := mind < 0.0 || mind < floor as real;
            && (BucketOf(py, m, floor) == LastResort <==>
                  Get(m, "fallback_only") == Bool(true) || (below && input == 0.0 && output == 0.0))
            && (BucketOf(py, m, floor) == Normal <==> Get(m, "fallback_only") != Bool(true) && !below)
  {
  }

  // ---- Filters

  /** A record whose fields have the types its writers give them. */
  ghost predicate Plain(m: Object) {
    && Get(m, "id").Str? && Get(m, "tags").List? && "capability_evidence" !in m
    && (forall x | x in Get(m, "tags").items :: x.Str?)
    && (forall f | f in {"supports_image", "supports_tools", "supports_stream"} :: Get(m, f).Bool?)
    && Get(m, "cost_input_1m").Num? && Get(m, "cost_input_1m").f.Fin? && Get(m, "cost_input_1m").f.r >= 0.0
  }

  /** The query's price limit is a number from zero up. */
  ghost predicate PlainQuery(q: Query) {
    q.maxCost.Num? && q.maxCost.f.Fin? && q.maxCost.f.r >= 0.0
  }

  /** No tag of the model reads `word`, whatever the case. */
  ghost predicate Untagged(m: Object, word: string)
    requires Get(m, "tags").List?
  {
    forall x | x in Get(m, "tags").items && x.Str? :: Lower(x.s) != word
  }

  ghost predicate Admissible(q: Query, m: Object)
    requires Plain(m) && PlainQuery(q)
  {
    && (forall e | e in q.exclude :: Lower(e) != Lower(Get(m, "id").s))
    && Untagged(m, "unstable")
    && (forall a | a in q.avoid :: Untagged(m, Lower(a)))
    && Get(m, "enabled") != Bool(false) && Get(m, "routing_verified") != Bool(false)
    && (forall f | f in q.required && q.required[f] :: Get(m, f) == Bool(true))
    && Get(m, "cost_input_1m").f.r <= q.maxCost.f.r
  }

  lemma TagsOnFields(py: Python, m: Object, word: string)
    requires Plain(m)
    ensures word !in FilterTags(py, m) <==> Untagged(m, word)
  {
    var items := Get(m, "tags").items;
    if word in FilterTags(py, m) {
      var i :| 0 <= i < |FilterTags(py, m)| && FilterTags(py, m)[i] == word;
      assert items[i] in items;
    }
    if !Untagged(m, word) {
      var x :| x in items && x.Str? && Lower(x.s) == word;
      var i :| 0 <= i < |items| && items[i] == x;
      assert FilterTags(py, m)[i] == word;
    }
  }

  lemma CapabilitiesOnFields(py: Python, m: Object, required: map<string, bool>)
    requires Plain(m)
    ensures SupportsCapabilities(py, m, required)
       <==> forall f | f in required && required[f] :: Get(m, f) == Bool(true)
  {
    var n := NormalizeCapabilities(py, m, None);
    forall f: string
      ensures (Get(n, f) == Bool(true) && Get(Fields(Get(n, "capability_evidence")), f) != Str(UNKNOWN_EVIDENCE))
         <==> Get(m, f) == Bool(true)
    {
      FieldKept(py, m, f);
    }
  }

  lemma FieldKept(py: Python, m: Object, f: string)
    requires Plain(m)
    ensures var n := NormalizeCapabilities(py, m, None);
            && (Get(n, f) == Bool(true) <==> Get(m, f) == Bool(true))
            && (Get(m, f) == Bool(true) ==> Get(Fields(Get(n, "capability_evidence")), f) != Str(UNKNOWN_EVIDENCE))
  {
  }

  lemma ExcludedOnFields(q: Query, m: Object)
    requires Plain(m)
    ensures Lower(ModelId(m)) !in seq(|q.exclude|, i requires 0 <= i < |q.exclude| => Lower(q.exclude[i]))
       <==> forall e | e in q.exclude :: Lower(e) != Lower(Get(m, "id").s)
  {
    var lowered := seq(|q.exclude|, i requires 0 <= i < |q.exclude| => Lower(q.exclude[i]));
    if Lower(ModelId(m)) in lowered {
      var i :| 0 <= i < |lowered| && lowered[i] == Lower(ModelId(m));
      assert q.exclude[i] in q.exclude;
    }
    if e :| e in q.exclude && Lower(e) == Lower(Get(m, "id").s) {
      var i :| 0 <= i < |q.exclude| && q.exclude[i] == e;
      assert lowered[i] == Lower(e);
    }
  }

  /** For plain records a model is selected if and only if a row of it is admissible and not blocked at its reading. */
  lemma SelectedOnFields(py: Python, q: Query, models: seq<Object>, mem: Snapshot, clock: seq<real>, m: Object)
    requires |clock| == |models| && Plain(m) && PlainQuery(q)
    ensures m in Selected(py, q, models, mem, clock)
       <==> && Admissible(q, m)
            && exists i | 0 <= i < |models| :: models[i] == m && !Blocked(mem, Get(m, "id").s, clock[i])
  {
    EligibleOnFields(py, q, m);
    SelectedExactly(py, q, models, mem, clock, m);
  }

  lemma EligibleOnFields(py: Python, q: Query, m: Object)
    requires Plain(m) && PlainQuery(q)
    ensures Eligible(py, q, m) <==> Admissible(q, m)
  {
    ExcludedOnFields(q, m);
    CapabilitiesOnFields(py, m, q.required);
    PriceOf(py, m);
    TagsOnFields(py, m, "unstable");
    forall a | a in q.avoid
      ensures Lower(a) !in FilterTags(py, m) <==> Untagged(m, Lower(a))
    {
      TagsOnFields(py, m, Lower(a));
    }
  }

  // ---- Modalities

  /** A model that lists no modalities counts its images, and audio and video if its tags name them. */
  lemma ModalitiesByDefault(m: Object, tags: set<string>)
    requires Get(m, "input_modalities") == Null && Get(m, "output_modalities") == Null
    requires Get(m, "supports_image").Bool?
    ensures ModalityCount(m, tags) == (if Get(m, "supports_image") == Bool(true) then 1 else 0)
                                      + (if "audio" in tags then 1 else 0) + (if "video" in tags then 1 else 0)
  {
    var text, both := [Str("text")], [Str("text"), Str("image")];
    assert (set x | x in text) == {Str("text")};
    assert (set x | x in both) == {Str("text"), Str("image")};
    assert Extra(text) == 0 && Extra(both) == 1;
  }

  /** One that lists them counts each kind once but the first, and audio and video tags that the input list lacks. */
  lemma ListedModalities(m: Object, tags: set<string>, inputs: seq<Value>, outputs: seq<Value>)
    requires Get(m, "input_modalities") == List(inputs) && Get(m, "output_modalities") == List(outputs)
    requires inputs != [] && outputs != []
    ensures ModalityCount(m, tags) + 2 == |set x | x in inputs| + |set x | x in outputs|
                                          + (if "audio" in tags && Str("audio") !in inputs then 1 else 0)
                                          + (if "video" in tags && Str("video") !in inputs then 1 else 0)
  {
    var ins, outs := set x | x in inputs, set x | x in outputs;
    assert inputs[0] in ins && outputs[0] in outs;
    assert |ins| > 0 && |outs| > 0;
    assert Extra(inputs) == |ins| - 1 && Extra(outputs) == |outs| - 1;
  }

  /** A list of strings is read as tags trimmed and in lower case. */
  lemma TagWords(py: Python, m: Object, word: string)
    requires Get(m, "tags").List? && forall x | x in Get(m, "tags").items :: x.Str?
    ensures KeyTags(py, m).Some?
    ensures word in KeyTags(py, m).value <==> exists x | x in Get(m, "tags").items :: Lower(Strip(x.s)) == word
  {
    var items := Get(m, "tags").items;
    var asSet := set x | x in items;
    assert TagItems(Get(m, "tags")).Some? && TagItems(Get(m, "tags")).value == asSet;
    forall x | x in items
      ensures Lower(Strip(x.s)) in KeyTags(py, m).value
    {
      assert x in asSet && Show(py.render, x) == x.s;
    }
    if word in KeyTags(py, m).value {
      var x :| x in asSet && Lower(Strip(Show(py.render, x))) == word;
      assert x in items && Show(py.render, x) == x.s;
    }
  }

  /** A query without a price limit of its own is limited by the budget. */
  lemma LimitFromBudget(py: Python, q: Query)
    requires q.budgetCap >= 0.0
    ensures q.maxCost == Null ==> CostLimit(py, q) == q.budgetCap
    ensures forall l | q.maxCost == Num(Fin(l)) && l >= 0.0 :: CostLimit(py, q) == l
  {
  }
}
