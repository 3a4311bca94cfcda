/** The ordered candidate list: hard filters, then a total order on quality, price, modality and intelligence. */
module Routing {
  import opened PyValue
  import opened Text
  import opened Sorting
  import opened Registry
  import opened Breaker

  // ---- The sort key

  function IntelligenceValue(py: Python, v: Value): real {
    match ToFloat(py, v)
    case Some(Fin(r)) => r
    case _ => 0.0
  }

  function InputCost(py: Python, m: Object): real {
    CostValue(py, Get(m, "cost_input_1m"), UNKNOWN_MODEL_COST)
  }

  function OutputCost(py: Python, m: Object): real {
    CostValue(py, Get(m, "cost_output_1m"), UNKNOWN_MODEL_COST)
  }

  function Intelligence(py: Python, m: Object): real {
    IntelligenceValue(py, Get(m, "intelligence"))
  }

  predicate Free(py: Python, m: Object) {
    InputCost(py, m) == 0.0 && OutputCost(py, m) == 0.0
  }

  predicate BelowFloor(py: Python, m: Object, floor: int) {
    Intelligence(py, m) < if floor > 0 then floor as real else 0.0
  }

  datatype Bucket = Normal | BelowFloorPaid | LastResort {
    function Rank(): nat {
      match this
      case Normal => 0
      case BelowFloorPaid => 1
      case LastResort => 2
    }
  }

  function BucketOf(py: Python, m: Object, floor: int): Bucket {
    if Truthy(Get(m, "fallback_only")) || (Free(py, m) && BelowFloor(py, m, floor)) then LastResort
    else if BelowFloor(py, m, floor) then BelowFloorPaid
    else Normal
  }

  /** The items of `tags`; `None` where iterating over it raises. */
  function TagItems(v: Value): Option<set<Value>> {
    if !Truthy(v) then Some({})
    else
      match v
      case List(items) => Some(set x | x in items)
      case Str(s) => Some(set c | c in s :: Str([c]))
      case Dict(fields) => Some(set k | k in fields.Keys :: Str(k))
      case _ => None
  }

  function KeyTags(py: Python, m: Object): Option<set<string>> {
    match TagItems(Get(m, "tags"))
    case None => None
    case Some(items) => Some(set x | x in items :: Lower(Strip(Show(py.render, x))))
  }

  function InputModalities(m: Object): seq<Value> {
    match Get(m, "input_modalities")
    case List(items) => items
    case _ => if Truthy(Get(m, "supports_image")) then [Str("text"), Str("image")] else [Str("text")]
  }

  function OutputModalities(m: Object): seq<Value> {
    match Get(m, "output_modalities")
    case List(items) => items
    case _ => [Str("text")]
  }

  function Extra(items: seq<Value>): nat {
    var kinds := |set x | x in items|;
    if kinds == 0 then 0 else kinds - 1
  }

  function ModalityCount(m: Object, tags: set<string>): nat {
    var inputs := InputModalities(m);
    Extra(inputs) + Extra(OutputModalities(m))
    + (if "audio" in tags && Str("audio") !in inputs then 1 else 0)
    + (if "video" in tags && Str("video") !in inputs then 1 else 0)
  }

  datatype Key = Key(bucket: nat, cost: real, modalities: nat, negIntelligence: real, index: nat)

  function SortKey(py: Python, m: Object, floor: int, index: nat): Option<Key> {
    match KeyTags(py, m)
    case None => None
    case Some(tags) =>
      Some(Key(BucketOf(py, m, floor).Rank(), InputCost(py, m) + OutputCost(py, m), ModalityCount(m, tags),
               -Intelligence(py, m), index))
  }

  /** Python's comparison of the key tuples. */
  predicate KeyLeq(a: Key, b: Key) {
    if a.bucket != b.bucket then a.bucket < b.bucket
    else if a.cost != b.cost then a.cost < b.cost
    else if a.modalities != b.modalities then a.modalities < b.modalities
    else if a.negIntelligence != b.negIntelligence then a.negIntelligence < b.negIntelligence
    else a.index <= b.index
  }

  // ---- Filters

  datatype Query = Query(floor: int, exclude: seq<string>, avoid: set<string>, required: map<string, bool>,
                         maxCost: Value, budgetCap: real)

  function FilterTags(py: Python, m: Object): seq<string> {
    match Get(m, "tags")
    case List(items) => seq(|items|, i requires 0 <= i < |items| => Lower(Show(py.render, items[i])))
    case _ => []
  }

  /** The id is a string or missing; lower-casing anything else raises. */
  predicate Named(m: Object) {
    "id" in m ==> m["id"].Str?
  }

  function ModelId(m: Object): string {
    match Get(m, "id")
    case Str(s) => s
    case _ => ""
  }

  function CostLimit(py: Python, q: Query): real {
    if q.maxCost == Null then CostValue(py, Num(Fin(q.budgetCap)), q.budgetCap)
    else CostValue(py, q.maxCost, q.budgetCap)
  }

  predicate Eligible(py: Python, q: Query, m: Object) {
    var tags := FilterTags(py, m);
    && Lower(ModelId(m)) !in seq(|q.exclude|, i requires 0 <= i < |q.exclude| => Lower(q.exclude[i]))
    && "unstable" !in tags
    && Get(m, "enabled") != Bool(false)
    && Get(m, "routing_verified") != Bool(false)
    && (forall t | t in q.avoid :: Lower(t) !in tags)
    && SupportsCapabilities(py, m, q.required)
    && InputCost(py, m) <= CostLimit(py, q)
  }

  /** Models that pass every filter, each checked against the breaker at its own clock reading. */
  function Selected(py: Python, q: Query, models: seq<Object>, mem: Snapshot, clock: seq<real>): seq<Object>
    requires |clock| == |models|
  {
    if models == [] then []
    else
      var n := |models| - 1;
      var rest := Selected(py, q, models[..n], mem, clock[..n]);
      if Eligible(py, q, models[n]) && !Blocked(mem, ModelId(models[n]), clock[n]) then rest + [models[n]] else rest
  }

  // ---- Ordering

  datatype Ranked = Ranked(key: Key, model: Object)

  function RankedLeq(): (Ranked, Ranked) -> bool {
    (a: Ranked, b: Ranked) => KeyLeq(a.key, b.key)
  }

  predicate Sortable(py: Python, models: seq<Object>) {
    forall m | m in models :: KeyTags(py, m).Some?
  }

  function Rank(py: Python, floor: int, models: seq<Object>): seq<Ranked>
    requires Sortable(py, models)
  {
    seq(|models|, i requires 0 <= i < |models| => Ranked(SortKey(py, models[i], floor, i).value, models[i]))
  }

  function Models(ranked: seq<Ranked>): seq<Object> {
    seq(|ranked|, i requires 0 <= i < |ranked| => ranked[i].model)
  }

  function Ordered(py: Python, floor: int, models: seq<Object>): seq<Object>
    requires Sortable(py, models)
  {
    Models(Sort(RankedLeq(), Rank(py, floor, models)))
  }

  datatype Candidates = Candidates(models: seq<Object>) | TypeError | AttributeError

  ghost predicate AllNamed(models: seq<Object>) {
    forall m | m in models :: Named(m)
  }

  /** The rows before the first one whose id cannot be lower-cased. */
  ghost predicate ReadUpTo(models: seq<Object>, read: nat) {
    read <= |models| && AllNamed(models[..read]) && (read < |models| ==> !Named(models[read]))
  }

  lemma PrefixSnoc<T>(s: seq<T>, i: nat)
    requires i < |s|
    ensures s[..i + 1] == s[..i] + [s[i]]
  {
  }

  /** The filter loop; `None` where it raises. `tracker` is null when the breaker is unavailable; `clock` gives one
      reading per row. */
  method FilterCandidates(py: Python, q: Query, models: seq<Object>, tracker: ModelFailureTracker?, clock: seq<real>)
    returns (candidates: Option<seq<Object>>, ghost read: nat)
    requires |clock| == |models| && forall i, j | 0 <= i < j < |clock| :: clock[i] <= clock[j]
    modifies tracker
    ensures ReadUpTo(models, read)
    ensures candidates == if read < |models| then None
                          else Some(Selected(py, q, models,
                                             if tracker == null then EMPTY else old(tracker.Memory()), clock))
    ensures tracker != null ==> Lapsed(old(tracker.Memory()), tracker.Memory(), clock[..read])
  {
    var found: seq<Object> := [];
    ghost var mem := if tracker == null then EMPTY else tracker.Memory();
    for i := 0 to |models|
      invariant found == Selected(py, q, models[..i], mem, clock[..i])
      invariant AllNamed(models[..i])
      invariant tracker != null ==> Lapsed(mem, tracker.Memory(), clock[..i])
    {
      var m := models[i];
      if !Named(m) {
        return None, i;
      }
      SelectedSnoc(py, q, models, mem, clock, i);
      PrefixSnoc(clock, i);
      PrefixSnoc(models, i);
      var admitted := Admits(py, q, m, tracker, clock[i], mem, clock[..i]);
      if admitted {
        found := found + [m];
      }
    }
    assert models[..|models|] == models && clock[..|clock|] == clock;
    return Some(found), |models|;
  }

  /** One row with a proper id: the filters, then the breaker. */
  method Admits(py: Python, q: Query, m: Object, tracker: ModelFailureTracker?, now: real,
                ghost mem: Snapshot, ghost readings: seq<real>)
    returns (admitted: bool)
    requires if tracker == null then mem == EMPTY
             else Lapsed(mem, tracker.Memory(), readings) && forall k | 0 <= k < |readings| :: readings[k] <= now
    modifies tracker
    ensures admitted == (Eligible(py, q, m) && !Blocked(mem, ModelId(m), now))
    ensures tracker != null ==> Lapsed(mem, tracker.Memory(), readings + [now])
  {
    if !Eligible(py, q, m) {
      if tracker != null {
        LapsedLonger(mem, tracker.Memory(), readings, now);
      }
      return false;
    }
    if tracker == null {
      return true;
    }
    var disabled := CheckBreaker(tracker, ModelId(m), now, mem, readings);
    return !disabled;
  }

  /** One breaker check within the loop: it answers as the breaker would have when the loop began. */
  method CheckBreaker(tracker: ModelFailureTracker, id: string, now: real, ghost mem: Snapshot,
                      ghost readings: seq<real>)
    returns (disabled: bool)
    requires Lapsed(mem, tracker.Memory(), readings) && forall k | 0 <= k < |readings| :: readings[k] <= now
    modifies tracker
    ensures disabled == Blocked(mem, id, now)
    ensures Lapsed(mem, tracker.Memory(), readings + [now])
  {
    ghost var before := tracker.Memory();
    LapsedAgrees(mem, before, readings, id, now);
    disabled := tracker.SyncIsDisabled(id, now);
    LapsedStep(mem, before, tracker.Memory(), readings, id, now);
  }

  lemma SelectedSnoc(py: Python, q: Query, models: seq<Object>, mem: Snapshot, clock: seq<real>, i: nat)
    requires |clock| == |models| && i < |models|
    ensures Selected(py, q, models[..i + 1], mem, clock[..i + 1])
         == Selected(py, q, models[..i], mem, clock[..i])
          + if Eligible(py, q, models[i]) && !Blocked(mem, ModelId(models[i]), clock[i]) then [models[i]] else []
  {
    assert models[..i + 1][..i] == models[..i] && clock[..i + 1][..i] == clock[..i];
  }

  method GetOrderedCandidates(py: Python, q: Query, models: seq<Object>, tracker: ModelFailureTracker?,
                              clock: seq<real>)
    returns (r: Candidates, ghost read: nat)
    requires |clock| == |models| && forall i, j | 0 <= i < j < |clock| :: clock[i] <= clock[j]
    modifies tracker
    ensures ReadUpTo(models, read)
    ensures r == if read < |models| then AttributeError
                 else Answer(py, q, Selected(py, q, models,
                                             if tracker == null then EMPTY else old(tracker.Memory()), clock))
    ensures tracker != null ==> Lapsed(old(tracker.Memory()), tracker.Memory(), clock[..read])
  {
    var found;
    found, read := FilterCandidates(py, q, models, tracker, clock);
    if found.None? {
      return AttributeError, read;
    }
    var candidates := found.value;
    if candidates == [] {
      assert Rank(py, q.floor, candidates) == [];
      return Candidates([]), read;
    }
    if !Sortable(py, candidates) {
      return TypeError, read;
    }
    return Candidates(Models(Sort(RankedLeq(), Rank(py, q.floor, candidates)))), read;
  }

  function Answer(py: Python, q: Query, chosen: seq<Object>): Candidates {
    if Sortable(py, chosen) then Candidates(Ordered(py, q.floor, chosen)) else TypeError
  }

  /** The checks made so far only removed cooldowns that had lapsed at one of their clock readings. */
  ghost predicate Lapsed(mem: Snapshot, now: Snapshot, readings: seq<real>) {
    forall id | id in mem.disabledUntil + now.disabledUntil ::
      && id in mem.disabledUntil
      && (id in now.disabledUntil ==> now.disabledUntil[id] == mem.disabledUntil[id])
      && (id !in now.disabledUntil ==> exists k | 0 <= k < |readings| :: mem.disabledUntil[id] <= readings[k])
  }

  lemma LapsedAgrees(mem: Snapshot, now: Snapshot, readings: seq<real>, id: string, t: real)
    requires Lapsed(mem, now, readings) && forall k | 0 <= k < |readings| :: readings[k] <= t
    ensures Blocked(now, id, t) == Blocked(mem, id, t)
  {
    assert id in mem.disabledUntil || id in now.disabledUntil ==> id in mem.disabledUntil + now.disabledUntil;
  }

  lemma LapsedLonger(mem: Snapshot, now: Snapshot, readings: seq<real>, t: real)
    requires Lapsed(mem, now, readings)
    ensures Lapsed(mem, now, readings + [t])
  {
    forall id | id in mem.disabledUntil && id !in now.disabledUntil
      ensures exists k | 0 <= k < |readings + [t]| :: mem.disabledUntil[id] <= (readings + [t])[k]
    {
      assert id in mem.disabledUntil + now.disabledUntil;
      var k :| 0 <= k < |readings| && mem.disabledUntil[id] <= readings[k];
      assert (readings + [t])[k] == readings[k];
    }
    forall id | id in now.disabledUntil
      ensures id in mem.disabledUntil && now.disabledUntil[id] == mem.disabledUntil[id]
    {
      assert id in mem.disabledUntil + now.disabledUntil;
    }
  }

  lemma LapsedStep(mem: Snapshot, now: Snapshot, after: Snapshot, readings: seq<real>, id: string, t: real)
    requires Lapsed(mem, now, readings)
    requires after == if id in Expired(now, t) then Without(now, {id}) else now
    ensures Lapsed(mem, after, readings + [t])
  {
    LapsedLonger(mem, now, readings, t);
    if id in Expired(now, t) {
      assert id in mem.disabledUntil + now.disabledUntil;
      assert (readings + [t])[|readings|] == t;
      forall x | x in mem.disabledUntil + after.disabledUntil
        ensures x in mem.disabledUntil + now.disabledUntil
      {
      }
    }
  }

  // ---- What the order guarantees

  lemma RankedTotal()
    ensures TotalOrder(RankedLeq())
  {
  }

  /** Finite costs and intelligence and distinct positions make the key a strict total order. */
  lemma KeyDistinguishes(py: Python, floor: int, models: seq<Object>, i: nat, j: nat)
    requires Sortable(py, models) && i < |models| && j < |models|
    ensures var s := Rank(py, floor, models); KeyLeq(s[i].key, s[j].key) && KeyLeq(s[j].key, s[i].key) <==> i == j
  {
  }

  lemma ModelsCons(x: Ranked, s: seq<Ranked>)
    ensures Models([x] + s) == [x.model] + Models(s)
  {
  }

  lemma {:induction false} InsertPermutesModels(x: Ranked, s: seq<Ranked>)
    ensures multiset(Models(Insert(RankedLeq(), x, s))) == multiset{x.model} + multiset(Models(s))
  {
    ModelsCons(x, s);
    if s != [] && !RankedLeq()(x, s[0]) {
      InsertPermutesModels(x, s[1..]);
      ModelsCons(s[0], Insert(RankedLeq(), x, s[1..]));
      ModelsCons(s[0], s[1..]);
      assert s == [s[0]] + s[1..];
    }
  }

  lemma {:induction false} SortPermutesModels(s: seq<Ranked>)
    ensures multiset(Models(Sort(RankedLeq(), s))) == multiset(Models(s))
  {
    if s != [] {
      SortPermutesModels(s[1..]);
      InsertPermutesModels(s[0], Sort(RankedLeq(), s[1..]));
      ModelsCons(s[0], s[1..]);
      assert s == [s[0]] + s[1..];
    }
  }

  /** The facts about the sorted candidates, element by element. */
  lemma SortedRank(py: Python, floor: int, models: seq<Object>)
    requires Sortable(py, models)
    ensures var sorted := Sort(RankedLeq(), Rank(py, floor, models));
            && Sorted(RankedLeq(), sorted)
            && multiset(sorted) == multiset(Rank(py, floor, models))
            && forall x | x in sorted :: x in Rank(py, floor, models)
  {
    SortPermutes(RankedLeq(), Rank(py, floor, models));
    RankedTotal();
    SortSorts(RankedLeq(), Rank(py, floor, models));
  }

  lemma RankedKey(py: Python, floor: int, models: seq<Object>, x: Ranked)
    requires Sortable(py, models) && x in Rank(py, floor, models)
    ensures x.key.bucket == BucketOf(py, x.model, floor).Rank()
    ensures x.key.cost == InputCost(py, x.model) + OutputCost(py, x.model)
    ensures x.key.modalities == Modalities(py, x.model) && x.key.negIntelligence == 0.0 - Intelligence(py, x.model)
    ensures x.key.index < |models| && models[x.key.index] == x.model
  {
  }

  /** Modalities beyond plain text, for a model whose tags can be read. */
  function Modalities(py: Python, m: Object): nat {
    match KeyTags(py, m)
    case None => 0
    case Some(tags) => ModalityCount(m, tags)
  }

  /** What is compared last: models alike in bucket and price go by fewer modalities, then by intelligence. */
  ghost predicate ByQuality(py: Python, a: Object, b: Object) {
    && Modalities(py, a) <= Modalities(py, b)
    && (Modalities(py, a) == Modalities(py, b) ==> Intelligence(py, a) >= Intelligence(py, b))
  }

  ghost predicate Alike(py: Python, floor: int, a: Object, b: Object) {
    && BucketOf(py, a, floor) == BucketOf(py, b, floor)
    && InputCost(py, a) + OutputCost(py, a) == InputCost(py, b) + OutputCost(py, b)
  }

  lemma RankedIndex(py: Python, floor: int, models: seq<Object>, x: Ranked, y: Ranked)
    requires Sortable(py, models) && x in Rank(py, floor, models) && y in Rank(py, floor, models)
    requires KeyLeq(x.key, y.key) && KeyLeq(y.key, x.key)
    ensures x == y
  {
    var ranked := Rank(py, floor, models);
    var i :| 0 <= i < |ranked| && ranked[i] == x;
    var j :| 0 <= j < |ranked| && ranked[j] == y;
    assert x.key.index == i && y.key.index == j;
  }

  ghost predicate AlikeInAll(py: Python, floor: int, a: Object, b: Object) {
    Alike(py, floor, a, b) && Modalities(py, a) == Modalities(py, b) && Intelligence(py, a) == Intelligence(py, b)
  }

  /** Quality buckets do not go back, within a bucket the total price does not fall, and at one price simpler and then
      more intelligent models come first. */
  ghost predicate InPolicyOrder(py: Python, floor: int, a: Object, b: Object) {
    && (BucketOf(py, a, floor) == LastResort ==> BucketOf(py, b, floor) == LastResort)
    && (BucketOf(py, a, floor) == BelowFloorPaid ==> BucketOf(py, b, floor) != Normal)
    && (BucketOf(py, a, floor) == BucketOf(py, b, floor) ==>
          InputCost(py, a) + OutputCost(py, a) <= InputCost(py, b) + OutputCost(py, b))
    && (Alike(py, floor, a, b) ==> ByQuality(py, a, b))
  }

  /** The result is a permutation of the selected models, with normal candidates before below-floor paid ones
      before the last resorts, cheaper before dearer within a bucket, and the more intelligent of two alike first. */
  lemma OrderedPermutesAndRanks(py: Python, floor: int, models: seq<Object>)
    requires Sortable(py, models)
    ensures multiset(Ordered(py, floor, models)) == multiset(models)
    ensures forall i, j | 0 <= i < j < |Ordered(py, floor, models)| ::
              InPolicyOrder(py, floor, Ordered(py, floor, models)[i], Ordered(py, floor, models)[j])
  {
    var ranked := Rank(py, floor, models);
    var sorted := Sort(RankedLeq(), ranked);
    SortedRank(py, floor, models);
    SortPermutesModels(ranked);
    assert Models(ranked) == models;
    forall i, j | 0 <= i < j < |sorted|
      ensures InPolicyOrder(py, floor, sorted[i].model, sorted[j].model)
    {
      RankedKey(py, floor, models, sorted[i]);
      RankedKey(py, floor, models, sorted[j]);
      assert RankedLeq()(sorted[i], sorted[j]);
    }
  }

  /** Models that agree in everything the policy looks at keep the order of their rows. */
  lemma TiesKeepRowOrder(py: Python, floor: int, models: seq<Object>, i: nat, j: nat) returns (p: nat, q: nat)
    requires Sortable(py, models) && i < j < |Ordered(py, floor, models)|
    ensures p < |models| && q < |models| && p != q
    ensures var a, b := Ordered(py, floor, models)[i], Ordered(py, floor, models)[j];
            && models[p] == a && models[q] == b
            && (AlikeInAll(py, floor, a, b) ==> p < q)
  {
    var sorted := Sort(RankedLeq(), Rank(py, floor, models));
    SortedRank(py, floor, models);
    RankedKey(py, floor, models, sorted[i]);
    RankedKey(py, floor, models, sorted[j]);
    assert RankedLeq()(sorted[i], sorted[j]);
    p, q := sorted[i].key.index, sorted[j].key.index;
    RanksDistinct(py, floor, models, sorted, i, j);
  }

  /** Every row is ranked once. */
  lemma RanksDistinct(py: Python, floor: int, models: seq<Object>, sorted: seq<Ranked>, i: nat, j: nat)
    requires Sortable(py, models) && multiset(sorted) == multiset(Rank(py, floor, models)) && i < j < |sorted|
    ensures sorted[i].key.index != sorted[j].key.index
  {
    var ranked := Rank(py, floor, models);
    if sorted[i].key.index == sorted[j].key.index {
      assert sorted[i] in multiset(ranked) && sorted[j] in multiset(ranked);
      var a :| 0 <= a < |ranked| && ranked[a] == sorted[i];
      var b :| 0 <= b < |ranked| && ranked[b] == sorted[j];
      assert sorted[i] == sorted[j];
      TwiceInMultiset(sorted, i, j);
      OnceInRank(py, floor, models, a);
    }
  }

  lemma TwiceInMultiset<T>(s: seq<T>, i: nat, j: nat)
    requires i < j < |s| && s[i] == s[j]
    ensures multiset(s)[s[i]] >= 2
  {
    assert s == s[..j] + [s[j]] + s[j + 1..];
    assert s[i] in s[..j] && s[..j][i] == s[i];
  }

  lemma OnceInRank(py: Python, floor: int, models: seq<Object>, a: nat)
    requires Sortable(py, models) && a < |models|
    ensures multiset(Rank(py, floor, models))[Rank(py, floor, models)[a]] == 1
  {
    var ranked := Rank(py, floor, models);
    forall b | 0 <= b < |ranked| && b != a
      ensures ranked[b] != ranked[a]
    {
      assert ranked[b].key.index == b && ranked[a].key.index == a;
    }
    OnceInMultiset(ranked, a);
  }

  lemma OnceInMultiset<T>(s: seq<T>, a: nat)
    requires a < |s| && forall b | 0 <= b < |s| && b != a :: s[b] != s[a]
    ensures multiset(s)[s[a]] == 1
  {
    assert s == s[..a] + [s[a]] + s[a + 1..];
    assert s[a] !in s[..a] && s[a] !in s[a + 1..];
  }

  /** Any arrangement of the ranked candidates that respects the key is the returned one. */
  lemma OrderIsUnique(py: Python, floor: int, models: seq<Object>, other: seq<Ranked>)
    requires Sortable(py, models)
    requires multiset(other) == multiset(Rank(py, floor, models))
    requires Sorted(RankedLeq(), other)
    ensures Models(other) == Ordered(py, floor, models)
  {
    var sorted := Sort(RankedLeq(), Rank(py, floor, models));
    SortedRank(py, floor, models);
    forall x, y | x in sorted && y in sorted && RankedLeq()(x, y) && RankedLeq()(y, x)
      ensures x == y
    {
      RankedIndex(py, floor, models, x, y);
    }
    SortedUnique(RankedLeq(), sorted, other);
  }

  /** A selected model passes every filter, and nothing that passes is lost. */
  lemma {:induction false} SelectedExactly(py: Python, q: Query, models: seq<Object>, mem: Snapshot,
                                           clock: seq<real>, m: Object)
    requires |clock| == |models|
    ensures m in Selected(py, q, models, mem, clock)
       <==> exists i | 0 <= i < |models| ::
              models[i] == m && Eligible(py, q, m) && !Blocked(mem, ModelId(m), clock[i])
  {
    if models != [] {
      var n := |models| - 1;
      SelectedExactly(py, q, models[..n], mem, clock[..n], m);
      assert forall i | 0 <= i < n :: models[..n][i] == models[i] && clock[..n][i] == clock[i];
    }
  }
}
