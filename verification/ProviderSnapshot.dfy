/** Replacing one provider's models in the registry by a snapshot of the upstream catalogue. */
module ProviderSnapshot {
  import opened PyValue
  import opened Text
  import opened Sorting
  import opened Registry

  // ---- Ids and their order

  predicate StrLeq(a: string, b: string) {
    a == "" || (b != "" && (a[0] < b[0] || (a[0] == b[0] && StrLeq(a[1..], b[1..]))))
  }

  lemma {:induction false} StrLeqTotal(a: string, b: string)
    ensures StrLeq(a, b) || StrLeq(b, a)
    ensures StrLeq(a, b) && StrLeq(b, a) ==> a == b
  {
    if a != "" && b != "" && a[0] == b[0] {
      StrLeqTotal(a[1..], b[1..]);
      assert a == [a[0]] + a[1..] && b == [b[0]] + b[1..];
    }
  }

  lemma {:induction false} StrLeqTransitive(a: string, b: string, c: string)
    requires StrLeq(a, b) && StrLeq(b, c)
    ensures StrLeq(a, c)
  {
    if a != "" && a[0] == b[0] == c[0] {
      StrLeqTransitive(a[1..], b[1..], c[1..]);
    }
  }

  predicate HasId(model: Object) {
    Truthy(Get(model, "id"))
  }

  /** `str(model.get("id"))` */
  function IdOf(py: Python, model: Object): string {
    Show(py.render, Get(model, "id"))
  }

  function SortKey(py: Python, model: Object): string {
    ShowOrEmpty(py.render, Get(model, "id"))
  }

  function ById(py: Python): (Object, Object) -> bool {
    (a: Object, b: Object) => StrLeq(SortKey(py, a), SortKey(py, b))
  }

  lemma ByIdTotal(py: Python)
    ensures TotalOrder(ById(py))
  {
    var leq := ById(py);
    forall a: Object, b: Object
      ensures leq(a, b) || leq(b, a)
    {
      StrLeqTotal(SortKey(py, a), SortKey(py, b));
    }
    forall a: Object, b: Object, c: Object | leq(a, b) && leq(b, c)
      ensures leq(a, c)
    {
      StrLeqTransitive(SortKey(py, a), SortKey(py, b), SortKey(py, c));
    }
  }

  // ---- Reference

  predicate Belongs(model: Object, provider: string) {
    Get(model, "provider") == Str(provider)
  }

  function OfProvider(models: seq<Object>, provider: string): seq<Object> {
    if models == [] then []
    else (if Belongs(models[0], provider) then [models[0]] else []) + OfProvider(models[1..], provider)
  }

  function OtherThan(models: seq<Object>, provider: string): seq<Object> {
    if models == [] then []
    else (if Belongs(models[0], provider) then [] else [models[0]]) + OtherThan(models[1..], provider)
  }

  /** The dictionary comprehension over ids: the last record with an id wins. */
  function Index(py: Python, models: seq<Object>): map<string, Object> {
    if models == [] then map[]
    else
      var rest := Index(py, Front(models));
      if HasId(Last(models)) then rest[IdOf(py, Last(models)) := Last(models)] else rest
  }

  function SnapshotId(py: Python, raw: Object): string {
    Strip(ShowOrEmpty(py.render, Get(raw, "id")))
  }

  function Lookup(index: map<string, Object>, id: string): Option<Object> {
    if id in index then Some(index[id]) else None
  }

  function Adopted(py: Python, provider: string, raw: Object, prior: map<string, Object>): Object {
    NormalizeRecord(py, raw["provider" := Str(provider)], Lookup(prior, SnapshotId(py, raw)))
  }

  /** The first record of every id, normalised against the record it replaces. */
  function Replacement(py: Python, provider: string, snapshot: seq<Object>, prior: map<string, Object>,
                       seen: set<string>): seq<Object>
    decreases |snapshot|
  {
    if snapshot == [] then []
    else
      var id := SnapshotId(py, snapshot[0]);
      if id == "" || id in seen then Replacement(py, provider, snapshot[1..], prior, seen)
      else [Adopted(py, provider, snapshot[0], prior)]
           + Replacement(py, provider, snapshot[1..], prior, seen + {id})
  }

  function NewModels(py: Python, models: seq<Object>, provider: string, snapshot: seq<Object>): seq<Object> {
    Sort(ById(py), Replacement(py, provider, snapshot, Index(py, OfProvider(models, provider)), {}))
  }

  function Replaced(py: Python, models: seq<Object>, provider: string, snapshot: seq<Object>): seq<Object> {
    OtherThan(models, provider) + NewModels(py, models, provider, snapshot)
  }

  function Changes(before: map<string, Object>, after: map<string, Object>): nat {
    |after.Keys - before.Keys| + |before.Keys - after.Keys|
    + |set id | id in before.Keys * after.Keys && before[id] != after[id]|
  }

  // ---- The registry

  class ModelRegistry {
    var models: seq<Object>

    method ReplaceProviderModels(py: Python, provider: string, snapshot: seq<Object>) returns (total: nat)
      modifies this
      ensures Strip(provider) == "" ==> models == old(models) && total == 0
      ensures Strip(provider) != "" ==>
                && models == Replaced(py, old(models), Strip(provider), snapshot)
                && total == Changes(Index(py, OfProvider(old(models), Strip(provider))),
                                    Index(py, NewModels(py, old(models), Strip(provider), snapshot)))
    {
      var name := Strip(provider);
      if name == "" {
        return 0;
      }
      var prior := Index(py, OfProvider(models, name));
      var replacement: seq<Object> := [];
      var seen: set<string> := {};
      for i := 0 to |snapshot|
        invariant replacement + Replacement(py, name, snapshot[i..], prior, seen)
               == Replacement(py, name, snapshot, prior, {})
      {
        assert snapshot[i..][1..] == snapshot[i + 1..];
        var id := SnapshotId(py, snapshot[i]);
        if id == "" || id in seen {
          continue;
        }
        seen := seen + {id};
        replacement := replacement + [NormalizeRecord(py, snapshot[i]["provider" := Str(name)], Lookup(prior, id))];
      }
      assert replacement + [] == replacement;
      replacement := Sort(ById(py), replacement);
      var current := Index(py, replacement);
      models := OtherThan(models, name) + replacement;
      total := Changes(prior, current);
    }
  }

  // ---- What a replacement leaves in the registry

  lemma NormalizeKeepsIdentity(py: Python, model: Object, fallback: Option<Object>)
    ensures var r := NormalizeRecord(py, model, fallback);
            Get(r, "id") == Get(model, "id") && Get(r, "provider") == Get(model, "provider")
  {
  }

  /** The id a record is looked up under when it comes again. */
  function TrimmedId(py: Python, model: Object): string {
    Strip(IdOf(py, model))
  }

  ghost predicate DistinctIds(py: Python, models: seq<Object>) {
    forall i, j | 0 <= i < j < |models| :: TrimmedId(py, models[i]) != TrimmedId(py, models[j])
  }

  ghost predicate Fresh(py: Python, models: seq<Object>, id: string) {
    forall m | m in models :: TrimmedId(py, m) != id
  }

  lemma DistinctCons(py: Python, head: Object, rest: seq<Object>)
    requires DistinctIds(py, rest) && Fresh(py, rest, TrimmedId(py, head))
    ensures DistinctIds(py, [head] + rest)
  {
    var all := [head] + rest;
    forall i, j | 0 <= i < j < |all|
      ensures TrimmedId(py, all[i]) != TrimmedId(py, all[j])
    {
      assert rest[j - 1] in rest;
    }
  }

  lemma DistinctTail(py: Python, models: seq<Object>)
    requires models != [] && DistinctIds(py, models)
    ensures DistinctIds(py, models[1..]) && Fresh(py, models[1..], TrimmedId(py, models[0]))
  {
    forall m | m in models[1..]
      ensures TrimmedId(py, m) != TrimmedId(py, models[0])
    {
      var j :| 0 <= j < |models[1..]| && models[1..][j] == m;
      assert models[j + 1] == m;
    }
  }

  lemma AdoptedShape(py: Python, provider: string, raw: Object, prior: map<string, Object>)
    requires SnapshotId(py, raw) != ""
    ensures var m := Adopted(py, provider, raw, prior);
            && Belongs(m, provider) && HasId(m) && IdOf(py, m) == IdOf(py, raw)
            && TrimmedId(py, m) == SnapshotId(py, raw)
  {
    NormalizeKeepsIdentity(py, raw["provider" := Str(provider)], Lookup(prior, SnapshotId(py, raw)));
    assert SnapshotId(py, raw) == if HasId(raw) then TrimmedId(py, raw) else Strip("");
  }

  ghost predicate OwnNamed(py: Python, models: seq<Object>, provider: string, seen: set<string>) {
    forall m | m in models :: Belongs(m, provider) && HasId(m) && TrimmedId(py, m) !in seen
  }

  lemma {:induction false} ReplacementShape(py: Python, provider: string, snapshot: seq<Object>,
                                            prior: map<string, Object>, seen: set<string>)
    ensures OwnNamed(py, Replacement(py, provider, snapshot, prior, seen), provider, seen)
    ensures DistinctIds(py, Replacement(py, provider, snapshot, prior, seen))
    decreases |snapshot|
  {
    if snapshot != [] {
      var raw := snapshot[0];
      var id := SnapshotId(py, raw);
      if id == "" || id in seen {
        ReplacementShape(py, provider, snapshot[1..], prior, seen);
      } else {
        AdoptedShape(py, provider, raw, prior);
        ReplacementShape(py, provider, snapshot[1..], prior, seen + {id});
        var rest := Replacement(py, provider, snapshot[1..], prior, seen + {id});
        assert Fresh(py, rest, id);
        DistinctCons(py, Adopted(py, provider, raw, prior), rest);
      }
    }
  }

  /** Every id of the snapshot is adopted once, from its first record. */
  lemma {:induction false} ReplacementCovers(py: Python, provider: string, snapshot: seq<Object>,
                                             prior: map<string, Object>, seen: set<string>, k: nat)
    requires k < |snapshot|
    requires var id := SnapshotId(py, snapshot[k]);
             id != "" && id !in seen && forall j | 0 <= j < k :: SnapshotId(py, snapshot[j]) != id
    ensures Adopted(py, provider, snapshot[k], prior) in Replacement(py, provider, snapshot, prior, seen)
    decreases |snapshot|
  {
    if k > 0 {
      var id := SnapshotId(py, snapshot[0]);
      assert snapshot[1..][k - 1] == snapshot[k];
      if id == "" || id in seen {
        ReplacementCovers(py, provider, snapshot[1..], prior, seen, k - 1);
      } else {
        ReplacementCovers(py, provider, snapshot[1..], prior, seen + {id}, k - 1);
      }
    }
  }

  /** The first element of every non-empty id that was not seen, mapped. */
  function Firsts<T, U>(s: seq<T>, id: T -> string, f: T -> U, seen: set<string>): seq<U>
    decreases |s|
  {
    if s == [] then []
    else if id(s[0]) == "" || id(s[0]) in seen then Firsts(s[1..], id, f, seen)
    else [f(s[0])] + Firsts(s[1..], id, f, seen + {id(s[0])})
  }

  lemma {:induction false} FirstsFrom<T, U>(s: seq<T>, id: T -> string, f: T -> U, seen: set<string>, u: U)
    returns (k: nat)
    requires u in Firsts(s, id, f, seen)
    ensures k < |s| && u == f(s[k]) && id(s[k]) != ""
    decreases |s|
  {
    if id(s[0]) == "" || id(s[0]) in seen {
      var j := FirstsFrom(s[1..], id, f, seen, u);
      k := j + 1;
    } else if u == f(s[0]) {
      k := 0;
    } else {
      var j := FirstsFrom(s[1..], id, f, seen + {id(s[0])}, u);
      k := j + 1;
    }
  }

  lemma {:induction false} ReplacementIsFirsts(py: Python, provider: string, snapshot: seq<Object>,
                                               prior: map<string, Object>, seen: set<string>)
    ensures Replacement(py, provider, snapshot, prior, seen)
         == Firsts(snapshot, raw => SnapshotId(py, raw), raw => Adopted(py, provider, raw, prior), seen)
    decreases |snapshot|
  {
    if snapshot != [] {
      var id := SnapshotId(py, snapshot[0]);
      ReplacementIsFirsts(py, provider, snapshot[1..], prior, if id == "" || id in seen then seen else seen + {id});
    }
  }

  /** Nothing else is adopted. */
  lemma ReplacementFromSnapshot(py: Python, provider: string, snapshot: seq<Object>,
                                prior: map<string, Object>, seen: set<string>, m: Object)
    returns (k: nat)
    requires m in Replacement(py, provider, snapshot, prior, seen)
    ensures k < |snapshot| && m == Adopted(py, provider, snapshot[k], prior)
    ensures SnapshotId(py, snapshot[k]) != ""
  {
    ReplacementIsFirsts(py, provider, snapshot, prior, seen);
    k := FirstsFrom(snapshot, raw => SnapshotId(py, raw), raw => Adopted(py, provider, raw, prior), seen, m);
  }

  lemma {:induction false} OfProviderConcat(a: seq<Object>, b: seq<Object>, provider: string)
    ensures OfProvider(a + b, provider) == OfProvider(a, provider) + OfProvider(b, provider)
  {
    if a == [] {
      assert a + b == b;
    } else {
      assert (a + b)[1..] == a[1..] + b;
      OfProviderConcat(a[1..], b, provider);
    }
  }

  lemma {:induction false} OtherThanConcat(a: seq<Object>, b: seq<Object>, provider: string)
    ensures OtherThan(a + b, provider) == OtherThan(a, provider) + OtherThan(b, provider)
  {
    if a == [] {
      assert a + b == b;
    } else {
      assert (a + b)[1..] == a[1..] + b;
      OtherThanConcat(a[1..], b, provider);
    }
  }

  lemma {:induction false} FilterOwn(models: seq<Object>, provider: string)
    requires forall m | m in models :: Belongs(m, provider)
    ensures OfProvider(models, provider) == models && OtherThan(models, provider) == []
  {
    if models != [] {
      assert models[0] in models;
      FilterOwn(models[1..], provider);
      assert models == [models[0]] + models[1..];
    }
  }

  lemma {:induction false} FilterOthers(models: seq<Object>, provider: string)
    ensures OfProvider(OtherThan(models, provider), provider) == []
    ensures OtherThan(OtherThan(models, provider), provider) == OtherThan(models, provider)
    ensures forall other | other != provider ::
              OfProvider(OtherThan(models, provider), other) == OfProvider(models, other)
  {
    if models != [] {
      var head, rest := models[0], OtherThan(models[1..], provider);
      FilterOthers(models[1..], provider);
      if !Belongs(head, provider) {
        assert OtherThan(models, provider) == [head] + rest;
        assert ([head] + rest)[1..] == rest;
      } else {
        assert OtherThan(models, provider) == rest;
      }
    }
  }

  lemma NewModelsShape(py: Python, models: seq<Object>, provider: string, snapshot: seq<Object>)
    ensures var r := NewModels(py, models, provider, snapshot);
            && (forall m | m in r :: Belongs(m, provider) && HasId(m))
            && Sorted(ById(py), r)
  {
    var prior := Index(py, OfProvider(models, provider));
    var r := Replacement(py, provider, snapshot, prior, {});
    ReplacementShape(py, provider, snapshot, prior, {});
    SortPermutes(ById(py), r);
    ByIdTotal(py);
    SortSorts(ById(py), r);
  }

  /** Other providers keep their models and their order; the provider holds the new models and nothing else. */
  lemma ReplaceSeparates(py: Python, models: seq<Object>, provider: string, snapshot: seq<Object>)
    ensures var after := Replaced(py, models, provider, snapshot);
            && OtherThan(after, provider) == OtherThan(models, provider)
            && OfProvider(after, provider) == NewModels(py, models, provider, snapshot)
            && forall other | other != provider :: OfProvider(after, other) == OfProvider(models, other)
  {
    var others, own := OtherThan(models, provider), NewModels(py, models, provider, snapshot);
    NewModelsShape(py, models, provider, snapshot);
    OfProviderConcat(others, own, provider);
    OtherThanConcat(others, own, provider);
    FilterOthers(models, provider);
    FilterOwn(own, provider);
    forall other | other != provider
      ensures OfProvider(others + own, other) == OfProvider(models, other)
    {
      OfProviderConcat(others, own, other);
      FilterForeign(own, provider, other);
    }
  }

  lemma {:induction false} FilterForeign(models: seq<Object>, provider: string, other: string)
    requires other != provider && forall m | m in models :: Belongs(m, provider)
    ensures OfProvider(models, other) == []
  {
    if models != [] {
      assert models[0] in models;
      FilterForeign(models[1..], provider, other);
    }
  }

  /** The provider holds one record per snapshot id, taken from the first record with that id, in strictly
      increasing order of id. */
  lemma ProviderHoldsSnapshot(py: Python, models: seq<Object>, provider: string, snapshot: seq<Object>)
    ensures var own := OfProvider(Replaced(py, models, provider, snapshot), provider);
            && (forall i, j | 0 <= i < j < |own| ::
                  StrLeq(IdOf(py, own[i]), IdOf(py, own[j])) && IdOf(py, own[i]) != IdOf(py, own[j]))
            && (forall m | m in own :: exists k | 0 <= k < |snapshot| ::
                  m == Adopted(py, provider, snapshot[k], Index(py, OfProvider(models, provider)))
                  && SnapshotId(py, snapshot[k]) != "")
            && (forall k | 0 <= k < |snapshot| && FirstOfId(py, snapshot, k) ::
                  Adopted(py, provider, snapshot[k], Index(py, OfProvider(models, provider))) in own)
  {
    var prior := Index(py, OfProvider(models, provider));
    var r := Replacement(py, provider, snapshot, prior, {});
    var own := Sort(ById(py), r);
    ReplaceSeparates(py, models, provider, snapshot);
    NewModelsShape(py, models, provider, snapshot);
    ReplacementShape(py, provider, snapshot, prior, {});
    SortPermutes(ById(py), r);
    SortKeepsDistinct(py, r);
    forall i, j | 0 <= i < j < |own|
      ensures StrLeq(IdOf(py, own[i]), IdOf(py, own[j])) && IdOf(py, own[i]) != IdOf(py, own[j])
    {
      assert own[i] in own && own[j] in own;
      assert ById(py)(own[i], own[j]);
    }
    forall m | m in own
      ensures exists k | 0 <= k < |snapshot| ::
                m == Adopted(py, provider, snapshot[k], prior) && SnapshotId(py, snapshot[k]) != ""
    {
      var k := ReplacementFromSnapshot(py, provider, snapshot, prior, {}, m);
    }
    forall k | 0 <= k < |snapshot| && FirstOfId(py, snapshot, k)
      ensures Adopted(py, provider, snapshot[k], prior) in own
    {
      ReplacementCovers(py, provider, snapshot, prior, {}, k);
    }
  }

  ghost predicate FirstOfId(py: Python, snapshot: seq<Object>, k: nat)
    requires k < |snapshot|
  {
    && SnapshotId(py, snapshot[k]) != ""
    && forall j | 0 <= j < k :: SnapshotId(py, snapshot[j]) != SnapshotId(py, snapshot[k])
  }

  lemma {:induction false} InsertKeepsDistinct(py: Python, x: Object, s: seq<Object>)
    requires DistinctIds(py, s) && Fresh(py, s, TrimmedId(py, x))
    ensures DistinctIds(py, Insert(ById(py), x, s))
  {
    if s == [] || ById(py)(x, s[0]) {
      DistinctCons(py, x, s);
    } else {
      DistinctTail(py, s);
      InsertKeepsDistinct(py, x, s[1..]);
      InsertPermutes(ById(py), x, s[1..]);
      var rest := Insert(ById(py), x, s[1..]);
      forall m | m in rest
        ensures TrimmedId(py, m) != TrimmedId(py, s[0])
      {
        assert m in multiset(rest);
        assert s[0] in s;
      }
      DistinctCons(py, s[0], rest);
    }
  }

  lemma {:induction false} SortKeepsDistinct(py: Python, s: seq<Object>)
    requires DistinctIds(py, s)
    ensures DistinctIds(py, Sort(ById(py), s))
  {
    if s != [] {
      DistinctTail(py, s);
      SortKeepsDistinct(py, s[1..]);
      SortPermutes(ById(py), s[1..]);
      assert Fresh(py, Sort(ById(py), s[1..]), TrimmedId(py, s[0]));
      InsertKeepsDistinct(py, s[0], Sort(ById(py), s[1..]));
    }
  }

  // ---- Repeating a replacement

  lemma {:induction false} IndexFinds(py: Python, models: seq<Object>, m: Object)
    requires m in models && HasId(m) && DistinctIds(py, models)
    ensures IdOf(py, m) in Index(py, models) && Index(py, models)[IdOf(py, m)] == m
  {
    var front, last := Front(models), Last(models);
    if last != m {
      var k :| 0 <= k < |models| && models[k] == m;
      assert front[k] == m;
      assert IdOf(py, models[k]) != IdOf(py, models[|models| - 1]);
      IndexFinds(py, front, m);
    }
  }

  /** The record leaves nothing to be inherited: both prices and every capability are its own. */
  predicate SelfDescribing(raw: Object) {
    && Get(raw, "cost_input_1m") != Null && Get(raw, "cost_output_1m") != Null
    && Declared(raw, "supports_image", "image") != Null
    && Declared(raw, "supports_tools", "tools") != Null
    && Declared(raw, "supports_stream", "stream") != Null
  }

  lemma SelfDescribingInheritsNothing(py: Python, raw: Object, provider: string, a: Option<Object>, b: Option<Object>)
    requires SelfDescribing(raw)
    ensures NormalizeRecord(py, raw["provider" := Str(provider)], a)
            == NormalizeRecord(py, raw["provider" := Str(provider)], b)
  {
    var model := raw["provider" := Str(provider)];
    assert NormalizeCosts(py, model, a) == NormalizeCosts(py, model, b);
    CapabilitiesInheritNothing(py, NormalizeCosts(py, model, a), a, b);
  }

  lemma CapabilitiesInheritNothing(py: Python, model: Object, a: Option<Object>, b: Option<Object>)
    requires Declared(model, "supports_image", "image") != Null
    requires Declared(model, "supports_tools", "tools") != Null
    requires Declared(model, "supports_stream", "stream") != Null
    ensures NormalizeCapabilities(py, model, a) == NormalizeCapabilities(py, model, b)
  {
  }

  /** The first record of an id that was not seen. */
  ghost predicate Picked(py: Python, snapshot: seq<Object>, seen: set<string>, k: nat)
    requires k < |snapshot|
  {
    FirstOfId(py, snapshot, k) && SnapshotId(py, snapshot[k]) !in seen
  }

  ghost predicate KeptByRepeat(py: Python, raw: Object) {
    Trimmed(IdOf(py, raw)) || SelfDescribing(raw)
  }

  ghost predicate AllKept(py: Python, snapshot: seq<Object>, seen: set<string>) {
    forall k | 0 <= k < |snapshot| && Picked(py, snapshot, seen, k) :: KeptByRepeat(py, snapshot[k])
  }

  lemma AllKeptTail(py: Python, snapshot: seq<Object>, seen: set<string>)
    requires snapshot != [] && AllKept(py, snapshot, seen)
    ensures var id := SnapshotId(py, snapshot[0]);
            AllKept(py, snapshot[1..], if id == "" || id in seen then seen else seen + {id})
  {
    var id := SnapshotId(py, snapshot[0]);
    var later := if id == "" || id in seen then seen else seen + {id};
    forall k | 0 <= k < |snapshot| - 1 && Picked(py, snapshot[1..], later, k)
      ensures KeptByRepeat(py, snapshot[1..][k])
    {
      assert snapshot[1..][k] == snapshot[k + 1];
      assert forall j | 0 <= j < k :: snapshot[1..][j] == snapshot[j + 1];
      forall j | 0 <= j < k + 1
        ensures SnapshotId(py, snapshot[j]) != SnapshotId(py, snapshot[k + 1])
      {
        assert j > 0 ==> snapshot[j] == snapshot[1..][j - 1];
      }
      assert Picked(py, snapshot, seen, k + 1);
    }
  }

  /** The record is adopted again as it was, given the records adopted before. */
  lemma AdoptedAgain(py: Python, provider: string, raw: Object, prior: map<string, Object>, later: map<string, Object>)
    requires py.Sane() && SnapshotId(py, raw) != "" && KeptByRepeat(py, raw)
    requires var m := Adopted(py, provider, raw, prior); IdOf(py, m) in later && later[IdOf(py, m)] == m
    ensures Adopted(py, provider, raw, later) == Adopted(py, provider, raw, prior)
  {
    var id, model := SnapshotId(py, raw), raw["provider" := Str(provider)];
    if SelfDescribing(raw) {
      SelfDescribingInheritsNothing(py, raw, provider, Lookup(later, id), Lookup(prior, id));
    } else {
      AdoptedShape(py, provider, raw, prior);
      StripTrimmed(IdOf(py, raw));
      NormalizeStable(py, model, Lookup(prior, id));
    }
  }

  /** With the adopted records as prior records, the same records are adopted. */
  lemma {:induction false} ReplacementStable(py: Python, provider: string, snapshot: seq<Object>,
                                             prior: map<string, Object>, later: map<string, Object>,
                                             seen: set<string>)
    requires py.Sane() && AllKept(py, snapshot, seen)
    requires forall m | m in Replacement(py, provider, snapshot, prior, seen) ::
               IdOf(py, m) in later && later[IdOf(py, m)] == m
    ensures Replacement(py, provider, snapshot, later, seen) == Replacement(py, provider, snapshot, prior, seen)
    decreases |snapshot|
  {
    if snapshot != [] {
      var raw := snapshot[0];
      var id := SnapshotId(py, raw);
      AllKeptTail(py, snapshot, seen);
      if id == "" || id in seen {
        ReplacementStable(py, provider, snapshot[1..], prior, later, seen);
      } else {
        var record := Adopted(py, provider, raw, prior);
        assert record in Replacement(py, provider, snapshot, prior, seen);
        assert Picked(py, snapshot, seen, 0);
        AdoptedAgain(py, provider, raw, prior, later);
        ReplacementStable(py, provider, snapshot[1..], prior, later, seen + {id});
      }
    }
  }

  /** Every record that is the first of its id has a trimmed id or describes itself. */
  ghost predicate Repeatable(py: Python, snapshot: seq<Object>) {
    AllKept(py, snapshot, {})
  }

  /** Repeating the call changes no model and reports no change. */
  lemma ReplaceIdempotent(py: Python, models: seq<Object>, provider: string, snapshot: seq<Object>)
    requires py.Sane() && Repeatable(py, snapshot)
    ensures var once := Replaced(py, models, provider, snapshot);
            && Replaced(py, once, provider, snapshot) == once
            && Changes(Index(py, OfProvider(once, provider)), Index(py, NewModels(py, once, provider, snapshot))) == 0
  {
    var prior := Index(py, OfProvider(models, provider));
    var r := Replacement(py, provider, snapshot, prior, {});
    var own := Sort(ById(py), r);
    ReplaceSeparates(py, models, provider, snapshot);
    ReplacementShape(py, provider, snapshot, prior, {});
    SortPermutes(ById(py), r);
    SortKeepsDistinct(py, r);
    var later := Index(py, own);
    forall m | m in r
      ensures IdOf(py, m) in later && later[IdOf(py, m)] == m
    {
      IndexFinds(py, own, m);
    }
    ReplacementStable(py, provider, snapshot, prior, later, {});
    NoChanges(later);
  }

  lemma NoChanges(index: map<string, Object>)
    ensures Changes(index, index) == 0
  {
    assert index.Keys - index.Keys == {};
    assert (set id | id in index.Keys * index.Keys && index[id] != index[id]) == {};
  }

  // ---- Where repeating a replacement changes models

  lemma {:induction false} IndexedId(py: Python, models: seq<Object>, id: string) returns (m: Object)
    requires id in Index(py, models)
    ensures m in models && HasId(m) && IdOf(py, m) == id
  {
    if HasId(Last(models)) && IdOf(py, Last(models)) == id {
      m := Last(models);
    } else {
      m := IndexedId(py, Front(models), id);
    }
  }

  lemma SingleIndex(py: Python, m: Object, provider: string)
    requires Belongs(m, provider) && HasId(m)
    ensures OfProvider([m], provider) == [m] && Index(py, [m]) == map[IdOf(py, m) := m]
  {
    assert [m][1..] == [] && Front([m]) == [];
  }

  /** A record from which everything can be inherited. */
  function Donor(id: string, provider: string): Object {
    map["id" := Str(id), "provider" := Str(provider),
        "cost_input_1m" := Num(Fin(5.0)), "cost_output_1m" := Num(Fin(5.0)),
        "supports_image" := Bool(true), "supports_tools" := Bool(true), "supports_stream" := Bool(true)]
  }

  lemma CapabilityFields(py: Python, model: Object, fallback: Option<Object>)
    ensures var r := NormalizeCapabilities(py, model, fallback);
            && Get(r, "cost_input_1m") == Get(model, "cost_input_1m")
            && Get(r, "cost_output_1m") == Get(model, "cost_output_1m")
            && Get(r, "supports_image") == Bool(Capability(model, fallback, "supports_image", "image"))
            && Get(r, "supports_tools") == Bool(Capability(model, fallback, "supports_tools", "tools"))
            && Get(r, "supports_stream") == Bool(Capability(model, fallback, "supports_stream", "stream"))
  {
  }

  /** Prices and provider play no part in what a record declares. */
  lemma DeclaredApart(py: Python, raw: Object, provider: string, fallback: Option<Object>, field: string, short: string)
    requires field in {"supports_image", "supports_tools", "supports_stream"}
    ensures Declared(NormalizeCosts(py, raw["provider" := Str(provider)], fallback), field, short)
            == Declared(raw, field, short)
  {
  }

  /** A record that does not describe itself inherits something from the donor. */
  lemma InheritsFromDonor(py: Python, raw: Object, id: string, provider: string)
    requires !SelfDescribing(raw)
    ensures NormalizeRecord(py, raw["provider" := Str(provider)], Some(Donor(id, provider)))
         != NormalizeRecord(py, raw["provider" := Str(provider)], None)
  {
    var model, donor := raw["provider" := Str(provider)], Some(Donor(id, provider));
    CapabilityFields(py, NormalizeCosts(py, model, donor), donor);
    CapabilityFields(py, NormalizeCosts(py, model, None), None);
    if Get(raw, "cost_input_1m") != Null && Get(raw, "cost_output_1m") != Null {
      DeclaredApart(py, raw, provider, donor, "supports_image", "image");
      DeclaredApart(py, raw, provider, donor, "supports_tools", "tools");
      DeclaredApart(py, raw, provider, donor, "supports_stream", "stream");
      DeclaredApart(py, raw, provider, None, "supports_image", "image");
      DeclaredApart(py, raw, provider, None, "supports_tools", "tools");
      DeclaredApart(py, raw, provider, None, "supports_stream", "stream");
    }
  }

  /**
   * An id with surrounding whitespace is looked up trimmed but stored as it came, so a record that relies on
   * inheritance forgets what it inherited when the same snapshot comes again.
   */
  lemma UntrimmedIdForgets(py: Python, provider: string, snapshot: seq<Object>, k: nat)
    requires k < |snapshot| && FirstOfId(py, snapshot, k) && !KeptByRepeat(py, snapshot[k])
    ensures var models := [Donor(SnapshotId(py, snapshot[k]), provider)];
            Replaced(py, Replaced(py, models, provider, snapshot), provider, snapshot)
                != Replaced(py, models, provider, snapshot)
  {
    var raw, id := snapshot[k], SnapshotId(py, snapshot[k]);
    var donor := Donor(id, provider);
    var once := Replaced(py, [donor], provider, snapshot);
    var own := OfProvider(once, provider);
    var later := Index(py, own);
    SingleIndex(py, donor, provider);
    var prior := map[id := donor];
    ProviderHoldsSnapshot(py, [donor], provider, snapshot);
    ProviderHoldsSnapshot(py, once, provider, snapshot);
    OwnIdsDistinct(py, [donor], provider, snapshot);
    var first, second := Adopted(py, provider, raw, prior), Adopted(py, provider, raw, later);
    AdoptedShape(py, provider, raw, prior);
    AdoptedShape(py, provider, raw, later);
    if id in later {
      var m := IndexedId(py, own, id);
      StripIsTrimmed(IdOf(py, raw));
      SameRecord(py, own, m, first);
    }
    InheritsFromDonor(py, raw, id, provider);
    assert first != second;
    if Replaced(py, once, provider, snapshot) == once {
      SameRecord(py, own, first, second);
    }
  }

  lemma OwnIdsDistinct(py: Python, models: seq<Object>, provider: string, snapshot: seq<Object>)
    ensures DistinctIds(py, OfProvider(Replaced(py, models, provider, snapshot), provider))
  {
    var prior := Index(py, OfProvider(models, provider));
    ReplaceSeparates(py, models, provider, snapshot);
    ReplacementShape(py, provider, snapshot, prior, {});
    SortKeepsDistinct(py, Replacement(py, provider, snapshot, prior, {}));
  }

  lemma SameRecord(py: Python, models: seq<Object>, a: Object, b: Object)
    requires DistinctIds(py, models) && a in models && b in models && TrimmedId(py, a) == TrimmedId(py, b)
    ensures a == b
  {
    var i :| 0 <= i < |models| && models[i] == a;
    var j :| 0 <= j < |models| && models[j] == b;
    assert !(i < j) && !(j < i);
  }

  /** Every registry is left as it is by the repeated call if and only if the snapshot is repeatable. */
  lemma ReplaceIdempotentIff(py: Python, provider: string, snapshot: seq<Object>)
    requires py.Sane()
    ensures (forall models: seq<Object> ::
               Replaced(py, Replaced(py, models, provider, snapshot), provider, snapshot)
                   == Replaced(py, models, provider, snapshot))
       <==> Repeatable(py, snapshot)
  {
    if Repeatable(py, snapshot) {
      forall models: seq<Object>
        ensures Replaced(py, Replaced(py, models, provider, snapshot), provider, snapshot)
                == Replaced(py, models, provider, snapshot)
      {
        ReplaceIdempotent(py, models, provider, snapshot);
      }
    } else {
      var k :| 0 <= k < |snapshot| && Picked(py, snapshot, {}, k) && !KeptByRepeat(py, snapshot[k]);
      UntrimmedIdForgets(py, provider, snapshot, k);
    }
  }
}
