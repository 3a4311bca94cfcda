/** Record normalisation and snapshot replacement, spelled out on the fields of the records. */
module RegistryRules {
  import opened PyValue
  import opened Text
  import opened Registry
  import opened ProviderSnapshot

  const CAPABILITIES := {"supports_image", "supports_tools", "supports_stream"}

  // ---- Prices

  /** A price of its own counts, else the one of the record it replaces, else 999; so do negative and infinite ones. */
  lemma PriceInherited(py: Python, model: Object, fallback: Option<Object>, field: string)
    requires field in {"cost_input_1m", "cost_output_1m"}
    ensures var price := Get(NormalizeRecord(py, model, fallback), field);
            && (forall r | Get(model, field) == Num(Fin(r)) && r >= 0.0 :: price == Num(Fin(r)))
            && (forall r | Get(model, field) == Num(Fin(r)) && r < 0.0 :: price == Num(Fin(999.0)))
            && (Get(model, field) in {Num(NaN), Num(PosInf), Num(NegInf)} ==> price == Num(Fin(999.0)))
            && (Get(model, field) == Null && fallback == None ==> price == Num(Fin(999.0)))
            && (Get(model, field) == Null ==>
                  forall r, prior | fallback == Some(prior) && Get(prior, field) == Num(Fin(r)) && r >= 0.0 ::
                    price == Num(Fin(r)))
  {
    assert Get(NormalizeRecord(py, model, fallback), field) == CostField(py, model, fallback, field);
  }

  // ---- Capabilities

  predicate SaysYes(word: string) {
    word == "true" || word == "1" || word == "yes" || word == "on"
  }

  predicate SaysNo(word: string) {
    word == "false" || word == "0" || word == "no" || word == "off"
  }

  /** Yes and no may be said in words, in any case and with spaces around; anything else says nothing. */
  lemma WordsForBool(s: string)
    ensures CoerceBool(Str(s)) == if SaysYes(Lower(Strip(s))) then Some(true)
                                  else if SaysNo(Lower(Strip(s))) then Some(false)
                                  else None
  {
    var word := Lower(Strip(s));
    assert SaysYes(word) <==> word in ["true", "1", "yes", "on"];
    assert SaysNo(word) <==> word in ["false", "0", "no", "off"];
  }

  lemma ValuesForBool(b: bool)
    ensures CoerceBool(Bool(b)) == Some(b) && CoerceBool(Null) == None
  {
  }

  function ShortName(field: string): string
    requires field in CAPABILITIES
  {
    field[9..]
  }

  /** A capability of the record itself counts, with the evidence it gives or as an explicit one. */
  lemma CapabilityDeclared(py: Python, model: Object, fallback: Option<Object>, field: string, b: bool)
    requires field in CAPABILITIES && Get(model, field) == Bool(b)
    ensures var r := NormalizeRecord(py, model, fallback);
            && Get(r, field) == Bool(b)
            && (Get(model, "capability_evidence") == Null ==>
                  Get(Fields(Get(r, "capability_evidence")), field) == Str("explicit_descriptor"))
  {
  }

  /** Evidence the record gives for a capability it has is kept, cut to eighty characters. */
  lemma EvidenceGiven(py: Python, model: Object, fallback: Option<Object>, field: string, word: string)
    requires field in CAPABILITIES && Get(model, field) != Null && word != ""
    requires Get(Fields(Get(model, "capability_evidence")), field) == Str(word)
    ensures var kept := Get(Fields(Get(NormalizeRecord(py, model, fallback), "capability_evidence")), field);
            && (|word| <= 80 ==> kept == Str(word))
            && (|word| > 80 ==> kept == Str(word[..80]))
  {
  }

  /** A descriptor nested under its short name counts where the record has no field of its own. */
  lemma CapabilityNested(py: Python, model: Object, fallback: Option<Object>, field: string, b: bool)
    requires field in CAPABILITIES && Get(model, field) == Null
    requires Get(Fields(Get(model, "capabilities")), ShortName(field)) == Bool(b)
    ensures Get(NormalizeRecord(py, model, fallback), field) == Bool(b)
  {
    assert ShortName("supports_image") == "image" && ShortName("supports_tools") == "tools";
    assert ShortName("supports_stream") == "stream";
  }

  /** Where the record says nothing, the record it replaces is believed, and marked as inherited. */
  lemma CapabilityInherited(py: Python, model: Object, prior: Object, field: string, b: bool)
    requires field in CAPABILITIES && Get(model, field) == Null && Get(model, "capabilities") == Null
    requires Get(prior, field) == Bool(b) && Get(prior, "capability_evidence") == Null
    ensures var r := NormalizeRecord(py, model, Some(prior));
            && Get(r, field) == Bool(b)
            && Get(Fields(Get(r, "capability_evidence")), field) == Str("inherited_descriptor")
  {
  }

  /** Where nobody says anything, the capability is denied and its evidence unknown. */
  lemma CapabilityUnknown(py: Python, model: Object, fallback: Option<Object>, field: string)
    requires field in CAPABILITIES && Get(model, field) == Null && Get(model, "capabilities") == Null
    requires fallback.None? || Get(fallback.value, field) == Null
    ensures var r := NormalizeRecord(py, model, fallback);
            && Get(r, field) == Bool(false)
            && Get(Fields(Get(r, "capability_evidence")), field) == Str("unknown")
  {
  }

  /** Every other field is kept. */
  lemma OtherFieldsKept(py: Python, model: Object, fallback: Option<Object>, field: string)
    requires field !in CAPABILITIES + {"cost_input_1m", "cost_output_1m", "capability_evidence"}
    ensures Get(NormalizeRecord(py, model, fallback), field) == Get(model, field)
    ensures field in NormalizeRecord(py, model, fallback) <==> field in model
  {
  }

  // ---- Replacement

  /** An adopted record is the raw one under the provider's name. */
  lemma AdoptedFields(py: Python, provider: string, raw: Object, prior: map<string, Object>, field: string)
    requires field !in CAPABILITIES + {"cost_input_1m", "cost_output_1m", "capability_evidence", "provider"}
    ensures Get(Adopted(py, provider, raw, prior), field) == Get(raw, field)
    ensures Get(Adopted(py, provider, raw, prior), "provider") == Str(provider)
  {
    OtherFieldsKept(py, raw["provider" := Str(provider)], Lookup(prior, SnapshotId(py, raw)), field);
    OtherFieldsKept(py, raw["provider" := Str(provider)], Lookup(prior, SnapshotId(py, raw)), "provider");
  }

  /** A record without a price of its own takes the one its provider had under the same id. */
  lemma AdoptedPrice(py: Python, provider: string, raw: Object, prior: map<string, Object>, field: string, r: real)
    requires field in {"cost_input_1m", "cost_output_1m"} && Get(raw, field) == Null && r >= 0.0
    requires SnapshotId(py, raw) in prior && Get(prior[SnapshotId(py, raw)], field) == Num(Fin(r))
    ensures Get(Adopted(py, provider, raw, prior), field) == Num(Fin(r))
  {
    PriceInherited(py, raw["provider" := Str(provider)], Some(prior[SnapshotId(py, raw)]), field);
  }

  /** Nothing changed if and only if no change is reported. */
  lemma NoChangeIff(before: map<string, Object>, after: map<string, Object>)
    ensures Changes(before, after) == 0 <==> before == after
  {
    var added, removed := after.Keys - before.Keys, before.Keys - after.Keys;
    var updated := set id | id in before.Keys * after.Keys && before[id] != after[id];
    if before == after {
      assert added == {} && removed == {} && updated == {};
    }
    if Changes(before, after) == 0 {
      assert added == {} && removed == {} && updated == {};
      forall id | id in before || id in after
        ensures id in before && id in after && before[id] == after[id]
      {
        assert id !in added && id !in removed && id !in updated;
      }
    }
  }

  /** A new record counts once, and so does a record that is gone. */
  lemma NewRecordCounts(models: map<string, Object>, id: string, m: Object)
    requires id !in models
    ensures Changes(models, models[id := m]) == 1 && Changes(models[id := m], models) == 1
  {
    var after := models[id := m];
    assert after.Keys - models.Keys == {id} && models.Keys - after.Keys == {};
    assert (set x | x in models.Keys * after.Keys && models[x] != after[x]) == {};
    assert (set x | x in after.Keys * models.Keys && after[x] != models[x]) == {};
  }

  /** A record that is written again counts if it differs. */
  lemma ChangedRecordCounts(models: map<string, Object>, id: string, m: Object)
    requires id in models && models[id] != m
    ensures Changes(models, models[id := m]) == 1
  {
    var after := models[id := m];
    assert after.Keys == models.Keys && models.Keys - models.Keys == {};
    assert (set x | x in models.Keys * after.Keys && models[x] != after[x]) == {id};
  }
}
