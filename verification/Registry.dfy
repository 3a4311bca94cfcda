/** Normalisation of model records. */
module Registry {
  import opened PyValue
  import opened Text

  // ---- Normalisation

  const UNKNOWN_MODEL_COST := 999.0
  const UNKNOWN_EVIDENCE := "unknown"

  function CostValue(py: Python, v: Value, default: real): real {
    match ToFloat(py, v)
    case Some(Fin(r)) => if r < 0.0 then default else r
    case _ => default
  }

  function FallbackField(fallback: Option<Object>, field: string): Value {
    match fallback
    case None => Null
    case Some(prior) => Get(prior, field)
  }

  function CostField(py: Python, model: Object, fallback: Option<Object>, field: string): Value {
    var own := Get(model, field);
    Num(Fin(CostValue(py, if own == Null then FallbackField(fallback, field) else own, UNKNOWN_MODEL_COST)))
  }

  function NormalizeCosts(py: Python, model: Object, fallback: Option<Object>): Object {
    model["cost_input_1m" := CostField(py, model, fallback, "cost_input_1m")]
         ["cost_output_1m" := CostField(py, model, fallback, "cost_output_1m")]
  }

  function LowerChar(c: char): char {
    if 'A' <= c <= 'Z' then (c as int + 32) as char else c
  }

  function Lower(s: string): string {
    seq(|s|, i requires 0 <= i < |s| => LowerChar(s[i]))
  }

  function CoerceBool(v: Value): Option<bool> {
    match v
    case Bool(b) => Some(b)
    case Str(s) =>
      var word := Lower(Strip(s));
      if word in ["true", "1", "yes", "on"] then Some(true)
      else if word in ["false", "0", "no", "off"] then Some(false)
      else None
    case _ => None
  }

  function Fields(v: Value): Object {
    if v.Dict? then v.fields else map[]
  }

  /** The record's own statement about a capability: the direct field, else the nested descriptor. */
  function Declared(model: Object, field: string, short: string): Value {
    var nested := Fields(Get(model, "capabilities"));
    if Get(model, field) != Null then Get(model, field)
    else if short in nested then nested[short]
    else Get(nested, field)
  }

  function Capability(model: Object, fallback: Option<Object>, field: string, short: string): bool {
    var own := Declared(model, field, short);
    match CoerceBool(if own == Null then FallbackField(fallback, field) else own)
    case None => false
    case Some(b) => b
  }

  function Evidence(py: Python, model: Object, fallback: Option<Object>, field: string, short: string): string {
    var source :=
      if Declared(model, field, short) != Null then
        EvidenceOr(py, Fields(Get(model, "capability_evidence")), field, "explicit_descriptor")
      else if FallbackField(fallback, field) != Null then
        EvidenceOr(py, Fields(FallbackField(fallback, "capability_evidence")), field, "inherited_descriptor")
      else UNKNOWN_EVIDENCE;
    if |source| > 80 then source[..80] else source
  }

  function EvidenceOr(py: Python, evidence: Object, field: string, default: string): string {
    if Truthy(Get(evidence, field)) then Show(py.render, Get(evidence, field)) else default
  }

  function NormalizeCapabilities(py: Python, model: Object, fallback: Option<Object>): Object {
    model["supports_image" := Bool(Capability(model, fallback, "supports_image", "image"))]
         ["supports_tools" := Bool(Capability(model, fallback, "supports_tools", "tools"))]
         ["supports_stream" := Bool(Capability(model, fallback, "supports_stream", "stream"))]
         ["capability_evidence" := Dict(map[
            "supports_image" := Str(Evidence(py, model, fallback, "supports_image", "image")),
            "supports_tools" := Str(Evidence(py, model, fallback, "supports_tools", "tools")),
            "supports_stream" := Str(Evidence(py, model, fallback, "supports_stream", "stream"))])]
  }

  function NormalizeRecord(py: Python, model: Object, fallback: Option<Object>): Object {
    NormalizeCapabilities(py, NormalizeCosts(py, model, fallback), fallback)
  }

  /** A model is trusted with a capability only on evidence that is not unknown. */
  predicate SupportsCapabilities(py: Python, model: Object, required: map<string, bool>) {
    var normalized := NormalizeCapabilities(py, model, None);
    forall field | field in required && required[field] ::
      && Get(normalized, field) == Bool(true)
      && Get(Fields(Get(normalized, "capability_evidence")), field) != Str(UNKNOWN_EVIDENCE)
  }

  lemma CostsStable(py: Python, model: Object, fallback: Option<Object>, prior: Object)
    requires Get(prior, "cost_input_1m") == CostField(py, model, fallback, "cost_input_1m")
    requires Get(prior, "cost_output_1m") == CostField(py, model, fallback, "cost_output_1m")
    ensures NormalizeCosts(py, model, Some(prior)) == NormalizeCosts(py, model, fallback)
  {
  }

  lemma CapabilityStable(py: Python, model: Object, fallback: Option<Object>, prior: Object, field: string,
                         short: string)
    requires py.Sane()
    requires Get(prior, field) == Bool(Capability(model, fallback, field, short))
    requires Get(Fields(Get(prior, "capability_evidence")), field) == Str(Evidence(py, model, fallback, field, short))
    ensures Capability(model, Some(prior), field, short) == Capability(model, fallback, field, short)
    ensures Evidence(py, model, Some(prior), field, short) == Evidence(py, model, fallback, field, short)
  {
  }

  lemma CapabilitiesStable(py: Python, model: Object, fallback: Option<Object>, prior: Object)
    requires py.Sane() && prior == NormalizeCapabilities(py, model, fallback)
    ensures NormalizeCapabilities(py, model, Some(prior)) == prior
  {
    CapabilityStable(py, model, fallback, prior, "supports_image", "image");
    CapabilityStable(py, model, fallback, prior, "supports_tools", "tools");
    CapabilityStable(py, model, fallback, prior, "supports_stream", "stream");
  }

  /** A normalised record used as its own fallback changes nothing; unknown evidence stays unknown. */
  lemma NormalizeStable(py: Python, model: Object, fallback: Option<Object>)
    requires py.Sane()
    ensures NormalizeRecord(py, model, Some(NormalizeRecord(py, model, fallback)))
            == NormalizeRecord(py, model, fallback)
  {
    var prior := NormalizeRecord(py, model, fallback);
    CostsStable(py, model, fallback, prior);
    CapabilitiesStable(py, NormalizeCosts(py, model, fallback), fallback, prior);
  }
}
