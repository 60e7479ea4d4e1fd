/**
 * The compact model catalogue: what packages/ai/scripts/generate-models.ts hoists, drops and names, and what
 * packages/ai/src/models-compact.ts makes of it again. Objects stand for their JSON text.
 */
module Catalogue {
  import opened Std

  // ------------------------------------------------------------------------------------------
  // The majority value
  // ------------------------------------------------------------------------------------------

  /** String comparison by code units. */
  predicate Less(a: Text, b: Text) {
    b != [] && (a == [] || a[0] < b[0] || (a[0] == b[0] && Less(a[1..], b[1..])))
  }

  lemma {:induction false} LessIrreflexive(a: Text)
    ensures !Less(a, a)
  {
    if a != [] { LessIrreflexive(a[1..]); }
  }

  lemma {:induction false} LessTransitive(a: Text, b: Text, c: Text)
    requires Less(a, b) && Less(b, c)
    ensures Less(a, c)
  {
    if a != [] && a[0] == b[0] == c[0] { LessTransitive(a[1..], b[1..], c[1..]); }
  }

  lemma {:induction false} LessTotal(a: Text, b: Text)
    ensures a == b || Less(a, b) || Less(b, a)
  {
    if a != [] && b != [] && a[0] == b[0] {
      LessTotal(a[1..], b[1..]);
      if a[1..] == b[1..] {
        assert a == [a[0]] + a[1..] && b == [b[0]] + b[1..];
      }
    }
  }

  /** `v` is chosen over `w`: it is more frequent, or as frequent and smaller. */
  predicate Beats(counts: multiset<Text>, v: Text, w: Text) {
    counts[v] > counts[w] || (counts[v] == counts[w] && Less(v, w))
  }

  lemma BeatsTransitive(counts: multiset<Text>, u: Text, v: Text, w: Text)
    requires Beats(counts, u, v) && Beats(counts, v, w)
    ensures Beats(counts, u, w)
  {
    if Less(u, v) && Less(v, w) { LessTransitive(u, v, w); }
  }

  lemma StillUnbeaten(counts: multiset<Text>, u: Text, v: Text, w: Text)
    requires !Beats(counts, u, w) && Beats(counts, v, w)
    ensures !Beats(counts, u, v)
  {
    if Beats(counts, u, v) { BeatsTransitive(counts, u, v, w); }
  }

  ghost predicate IsMajority(counts: multiset<Text>, best: Text) {
    best in counts && forall v :: v in counts ==> !Beats(counts, v, best)
  }

  /** The choice depends only on how often each value occurs, not on the order of the values. */
  lemma MajorityUnique(counts: multiset<Text>, v: Text, w: Text)
    requires IsMajority(counts, v) && IsMajority(counts, w)
    ensures v == w
  {
    LessTotal(v, w);
  }

  /** How many values a default of `v` leaves to be overridden. */
  function Overridden<T(==)>(values: seq<T>, v: T): nat {
    if values == [] then 0
    else Overridden(values[..|values| - 1], v) + (if values[|values| - 1] == v then 0 else 1)
  }

  lemma {:induction false} OverriddenCount(values: seq<Text>, v: Text)
    ensures Overridden(values, v) == |values| - multiset(values)[v]
  {
    if values != [] {
      var init := values[..|values| - 1];
      OverriddenCount(init, v);
      assert values == init + [values[|values| - 1]];
    }
  }

  /** No default whatever needs fewer overrides than the majority value. */
  lemma MajorityMinimisesOverrides(values: seq<Text>, best: Text, other: Text)
    requires IsMajority(multiset(values), best)
    ensures Overridden(values, best) <= Overridden(values, other)
  {
    OverriddenCount(values, best);
    OverriddenCount(values, other);
    if other in multiset(values) {
      assert !Beats(multiset(values), other, best);
    }
  }

  method MajorityValue(values: seq<Text>) returns (best: Text)
    ensures values == [] ==> best == []
    ensures values != [] ==> IsMajority(multiset(values), best)
  {
    var counts: map<Text, nat> := map[];
    var keys: seq<Text> := [];
    for i := 0 to |values|
      invariant forall v :: (if v in counts then counts[v] else 0) == multiset(values[..i])[v]
      invariant forall v :: v in counts <==> v in keys
      invariant forall v :: v in counts ==> counts[v] > 0
      invariant i > 0 ==> keys != []
    {
      assert values[..i + 1] == values[..i] + [values[i]];
      if values[i] !in counts {
        keys := keys + [values[i]];
      }
      counts := counts[values[i] := (if values[i] in counts then counts[values[i]] else 0) + 1];
    }
    assert values[..|values|] == values;
    ghost var all := multiset(values);
    best := [];
    var bestCount := 0;
    for k := 0 to |keys|
      invariant k == 0 ==> best == [] && bestCount == 0
      invariant k > 0 ==> best in keys && bestCount == all[best]
      invariant k > 0 ==> forall j :: 0 <= j < k ==> !Beats(all, keys[j], best)
    {
      var value, count := keys[k], counts[keys[k]];
      ghost var previous := best;
      if count > bestCount || (count == bestCount && Less(value, best)) {
        best, bestCount := value, count;
      }
      LessIrreflexive(best);
      forall j | 0 <= j < k && best != previous ensures !Beats(all, keys[j], best) {
        StillUnbeaten(all, keys[j], best, previous);
      }
    }
  }

  // ------------------------------------------------------------------------------------------
  // Models, and their compact form
  // ------------------------------------------------------------------------------------------

  datatype Modality = TextInput | ImageInput

  datatype Cost = Cost(input: real, output: real, cacheRead: real, cacheWrite: real)

  const FREE := Cost(0.0, 0.0, 0.0, 0.0)

  /** A compat field: not there, `null`, or an object. The generator's own models never hold `null`. */
  datatype Compat = Missing | Null | Given(json: Text)

  datatype OutputModality = TextOutput | ImageOutput | AudioOutput | VideoOutput

  datatype Model = Model(
    id: Text, provider: Text, name: Text, reasoning: bool, input: seq<Modality>, output: Option<seq<OutputModality>>,
    contextWindow: int, maxTokens: int, cost: Cost, api: Text, baseUrl: Option<Text>, headers: Option<Text>,
    compat: Compat, thinking: Option<Text>, featured: Option<bool>)

  /** The keys a model is filed under. */
  datatype Place = Place(provider: Text, id: Text)

  /** A constant of the generated file, or a literal in place. */
  datatype Ref = Constant(index: nat) | Literal(json: Text)

  /** The constants of one kind, in the order they were named. */
  type Names = seq<Text>

  datatype OverriddenCompat = ClearCompat | SetCompat(ref: Ref)

  datatype Overrides = Overrides(
    a: Option<Text>, u: Option<Text>, h: Option<Ref>, c: Option<OverriddenCompat>, t: Option<Ref>, f: bool)

  /** What may follow the five fixed positions of a record; the two are told apart by shape. */
  datatype Tail = CostTuple(cost: Cost) | OverridesObject(o: Overrides)

  datatype Record = Record(name: Text, reasoning: bool, input: nat, contextWindow: int, maxTokens: int, tail: seq<Tail>)

  datatype Default = Default(api: Text, baseUrl: Option<Text>, compat: Option<Text>)

  datatype Constants = Constants(compat: Names, headers: Names, thinking: Names)

  datatype Provider = Provider(api: Text, baseUrl: Option<Text>, compat: Option<Ref>, m: map<Text, Record>)

  datatype CompactFile = CompactFile(constants: Constants, providers: map<Text, Provider>)

  function IndexIn(names: Names, json: Text): (r: Option<nat>)
    ensures r.Some? ==> r.value < |names| && names[r.value] == json
    ensures r.None? ==> json !in names
  {
    if names == [] then None
    else if names[|names| - 1] == json then Some(|names| - 1)
    else IndexIn(names[..|names| - 1], json)
  }

  function ConstRef(names: Names, json: Text): Ref {
    match IndexIn(names, json)
    case Some(i) => Constant(i)
    case None => Literal(json)
  }

  function Resolve(names: Names, ref: Ref): Text {
    match ref
    case Constant(i) => if i < |names| then names[i] else []
    case Literal(json) => json
  }

  /** Naming a value changes nothing about it. */
  lemma ResolveConstRef(names: Names, json: Text)
    ensures Resolve(names, ConstRef(names, json)) == json
  {
  }

  function EncodeInput(input: seq<Modality>): Option<nat> {
    if input == [TextInput] then Some(0)
    else if input == [TextInput, ImageInput] then Some(1)
    else None
  }

  function CompatText(c: Compat): Option<Text> { if c.Given? then Some(c.json) else None }

  function RefOption(names: Names, json: Option<Text>): Option<Ref> {
    if json.Some? then Some(ConstRef(names, json.value)) else None
  }

  function OverridesOf(k: Constants, d: Default, m: Model): Overrides {
    Overrides(
      if m.api != d.api then Some(m.api) else None,
      if m.baseUrl.Some? && m.baseUrl != d.baseUrl then m.baseUrl else None,
      RefOption(k.headers, m.headers),
      if CompatText(m.compat) == d.compat then None
      else Some(if m.compat.Given? then SetCompat(ConstRef(k.compat, m.compat.json)) else ClearCompat),
      RefOption(k.thinking, m.thinking),
      m.featured == Some(true))
  }

  const NO_OVERRIDES := Overrides(None, None, None, None, None, false)

  function TailOf(k: Constants, d: Default, m: Model): seq<Tail> {
    (if m.cost != FREE then [CostTuple(m.cost)] else [])
    + (if OverridesOf(k, d, m) != NO_OVERRIDES then [OverridesObject(OverridesOf(k, d, m))] else [])
  }

  /** The record of one model, or None where the generator throws. */
  function CompactModel(k: Constants, d: Default, m: Model): Option<Record> {
    if m.baseUrl.None? && d.baseUrl.Some? then None
    else
      match EncodeInput(m.input)
      case None => None
      case Some(flag) => Some(Record(m.name, m.reasoning, flag, m.contextWindow, m.maxTokens, TailOf(k, d, m)))
  }

  // ------------------------------------------------------------------------------------------
  // Expansion
  // ------------------------------------------------------------------------------------------

  function FindCost(tail: seq<Tail>): Option<Cost> {
    if tail == [] then None else if tail[0].CostTuple? then Some(tail[0].cost) else FindCost(tail[1..])
  }

  function FindOverrides(tail: seq<Tail>): Option<Overrides> {
    if tail == [] then None else if tail[0].OverridesObject? then Some(tail[0].o) else FindOverrides(tail[1..])
  }

  function ResolveOption(names: Names, ref: Option<Ref>): Option<Text> {
    if ref.Some? then Some(Resolve(names, ref.value)) else None
  }

  function ExpandCompat(k: Constants, p: Provider, o: Option<Overrides>): Compat {
    if o.Some? && o.value.c.Some? then
      match o.value.c.value
      case ClearCompat => Null
      case SetCompat(ref) => Given(Resolve(k.compat, ref))
    else if p.compat.Some? then Given(Resolve(k.compat, p.compat.value))
    else Missing
  }

  function ExpandRecord(k: Constants, at: Place, p: Provider, r: Record): Model {
    var cost := FindCost(r.tail);
    var o := FindOverrides(r.tail);
    Model(
      at.id, at.provider, r.name, r.reasoning, if r.input == 1 then [TextInput, ImageInput] else [TextInput], None,
      r.contextWindow, r.maxTokens, if cost.Some? then cost.value else FREE,
      if o.Some? && o.value.a.Some? then o.value.a.value else p.api,
      if o.Some? && o.value.u.Some? then o.value.u else p.baseUrl,
      if o.Some? then ResolveOption(k.headers, o.value.h) else None,
      ExpandCompat(k, p, o),
      if o.Some? then ResolveOption(k.thinking, o.value.t) else None,
      if o.Some? && o.value.f then Some(true) else None)
  }

  function ProviderHead(k: Constants, d: Default, m: map<Text, Record>): Provider {
    Provider(d.api, d.baseUrl, RefOption(k.compat, d.compat), m)
  }

  /**
   * The model that comes back: it bears the keys it was filed under, its output modalities are gone, a compat cleared
   * against a default is `null`, and only `true` is featured.
   */
  function Restored(at: Place, d: Default, m: Model): Model {
    m.(id := at.id, provider := at.provider, output := None,
       compat := if m.compat.Given? then m.compat else if d.compat.Some? then Null else Missing,
       featured := if m.featured == Some(true) then Some(true) else None)
  }

  lemma TailFound(k: Constants, d: Default, m: Model)
    ensures FindCost(TailOf(k, d, m)) == if m.cost != FREE then Some(m.cost) else None
    ensures FindOverrides(TailOf(k, d, m))
         == if OverridesOf(k, d, m) != NO_OVERRIDES then Some(OverridesOf(k, d, m)) else None
  {
    var o := OverridesOf(k, d, m);
    if m.cost != FREE && o != NO_OVERRIDES {
      assert TailOf(k, d, m) == [CostTuple(m.cost), OverridesObject(o)];
      assert TailOf(k, d, m)[1..] == [OverridesObject(o)];
    } else if m.cost != FREE {
      assert TailOf(k, d, m) == [CostTuple(m.cost)] && [CostTuple(m.cost)][1..] == [];
    } else if o != NO_OVERRIDES {
      assert TailOf(k, d, m) == [OverridesObject(o)] && [OverridesObject(o)][1..] == [];
    }
  }

  /** Whatever the defaults and constants are, a compacted model expands to the restored one. */
  lemma ModelRoundTrip(k: Constants, at: Place, d: Default, m: Model, records: map<Text, Record>)
    requires CompactModel(k, d, m).Some?
    ensures ExpandRecord(k, at, ProviderHead(k, d, records), CompactModel(k, d, m).value) == Restored(at, d, m)
  {
    TailFound(k, d, m);
    var p, r := ProviderHead(k, d, records), CompactModel(k, d, m).value;
    var x, y := ExpandRecord(k, at, p, r), Restored(at, d, m);
    var o := OverridesOf(k, d, m);
    assert x.compat == y.compat by {
      if d.compat.Some? { ResolveConstRef(k.compat, d.compat.value); }
      if m.compat.Given? { ResolveConstRef(k.compat, m.compat.json); }
    }
    assert x.baseUrl == y.baseUrl && x.api == y.api && x.cost == y.cost && x.input == y.input;
    assert x.headers == y.headers && x.thinking == y.thinking && x.featured == y.featured;
  }

  /**
   * Nothing is lost exactly when the model is filed under its own id and provider, does not say what it outputs, its
   * compat is an object, or missing under no default, or `null` under one, and `featured: false` is not said.
   */
  lemma ExactRoundTrip(k: Constants, at: Place, d: Default, m: Model, records: map<Text, Record>)
    requires CompactModel(k, d, m).Some?
    ensures ExpandRecord(k, at, ProviderHead(k, d, records), CompactModel(k, d, m).value) == m
       <==> m.id == at.id && m.provider == at.provider && m.output.None? && m.featured != Some(false)
            && (m.compat == Missing ==> d.compat.None?) && (m.compat == Null ==> d.compat.Some?)
  {
    ModelRoundTrip(k, at, d, m, records);
    var back := Restored(at, d, m);
    assert back == m
      <==> m.id == at.id && m.provider == at.provider && m.output == None
           && back.compat == m.compat && back.featured == m.featured;
    assert back.compat == m.compat
      <==> (m.compat == Missing ==> d.compat.None?) && (m.compat == Null ==> d.compat.Some?);
    assert back.featured == m.featured <==> m.featured != Some(false) by {
      if m.featured.Some? && !m.featured.value {
        assert m.featured == Some(false);
      }
    }
  }

  // ------------------------------------------------------------------------------------------
  // Nothing is written that could be left out
  // ------------------------------------------------------------------------------------------

  function OverridesIn(r: Record): Overrides {
    var o := FindOverrides(r.tail);
    if o.Some? then o.value else NO_OVERRIDES
  }

  /** The record holds the fixed fields, the cost unless all is free, and an override for each field that differs. */
  ghost predicate SaysWhatDiffers(d: Default, m: Model, r: Record) {
    var o := OverridesIn(r);
    && r.name == m.name && r.reasoning == m.reasoning
    && r.contextWindow == m.contextWindow && r.maxTokens == m.maxTokens
    && (r.input == 0 <==> m.input == [TextInput]) && (r.input == 1 <==> m.input == [TextInput, ImageInput])
    && (FindCost(r.tail).None? <==> m.cost == Cost(0.0, 0.0, 0.0, 0.0))
    && (FindOverrides(r.tail).None?
        <==> o.a.None? && o.u.None? && o.h.None? && o.c.None? && o.t.None? && !o.f)
    && (o.a.Some? <==> m.api != d.api)
    && (o.u.Some? <==> m.baseUrl.Some? && m.baseUrl != d.baseUrl)
    && (o.h.Some? <==> m.headers.Some?)
    && (o.c.Some? <==> if d.compat.Some? then m.compat != Given(d.compat.value) else m.compat.Given?)
    && (o.t.Some? <==> m.thinking.Some?)
    && (o.f <==> m.featured == Some(true))
    && |r.tail| == (if FindCost(r.tail).Some? then 1 else 0) + (if FindOverrides(r.tail).Some? then 1 else 0)
    && (|r.tail| == 2 ==> r.tail[0].CostTuple?)
  }

  lemma RecordSaysWhatDiffers(k: Constants, d: Default, m: Model)
    requires CompactModel(k, d, m).Some?
    ensures SaysWhatDiffers(d, m, CompactModel(k, d, m).value)
  {
    TailFound(k, d, m);
  }

  /**
   * Any record that expands to the same model has at least the overrides and the cost the written one has, and no
   * shorter a tail.
   */
  lemma RecordIsMinimal(k: Constants, at: Place, d: Default, m: Model, records: map<Text, Record>, r: Record)
    requires CompactModel(k, d, m).Some?
    requires ExpandRecord(k, at, ProviderHead(k, d, records), r) == Restored(at, d, m)
    ensures var written := CompactModel(k, d, m).value; var o, any := OverridesIn(written), OverridesIn(r);
            && (o.a.Some? ==> any.a.Some?) && (o.u.Some? ==> any.u.Some?) && (o.h.Some? ==> any.h.Some?)
            && (o.c.Some? ==> any.c.Some?) && (o.t.Some? ==> any.t.Some?) && (o.f ==> any.f)
            && (FindOverrides(written.tail).Some? ==> FindOverrides(r.tail).Some?)
            && (FindCost(written.tail).Some? ==> FindCost(r.tail).Some?)
            && |written.tail| <= |r.tail|
  {
    RecordSaysWhatDiffers(k, d, m);
    var x, y := ExpandRecord(k, at, ProviderHead(k, d, records), r), Restored(at, d, m);
    assert x.api == y.api && x.baseUrl == y.baseUrl && x.headers == y.headers && x.thinking == y.thinking;
    assert x.featured == y.featured && x.cost == y.cost && x.compat == y.compat;
    if d.compat.Some? { ResolveConstRef(k.compat, d.compat.value); }
    TailHolds(r.tail);
  }

  lemma {:induction false} TailHolds(tail: seq<Tail>)
    ensures |tail| >= (if FindCost(tail).Some? then 1 else 0) + (if FindOverrides(tail).Some? then 1 else 0)
  {
    if tail != [] { TailHolds(tail[1..]); }
  }

  // ------------------------------------------------------------------------------------------
  // The generator and the expander
  // ------------------------------------------------------------------------------------------

  /** A provider's models in the order of their sorted ids. */
  datatype Entry = Entry(id: Text, model: Model)
  datatype Source = Source(id: Text, models: seq<Entry>)

  const UNDEFINED: Text := [0x75, 0x6e, 0x64, 0x65, 0x66, 0x69, 0x6e, 0x65, 0x64]
  const NULL: Text := [0x6e, 0x75, 0x6c, 0x6c]

  function Apis(models: seq<Entry>): seq<Text> { seq(|models|, i requires 0 <= i < |models| => models[i].model.api) }

  function BaseUrls(models: seq<Entry>): seq<Text> {
    seq(|models|, i requires 0 <= i < |models| =>
      if models[i].model.baseUrl.Some? then models[i].model.baseUrl.value else UNDEFINED)
  }

  function Compats(models: seq<Entry>): seq<Text> {
    seq(|models|, i requires 0 <= i < |models| =>
      if models[i].model.compat.Given? then models[i].model.compat.json else NULL)
  }

  function AbsentAs(absent: Text, v: Text): Option<Text> { if v == absent then None else Some(v) }

  /** The majority value, where `absent` stands for a field that is not there. */
  ghost predicate MajorityOption(values: seq<Text>, absent: Text, chosen: Option<Text>) {
    match chosen
    case Some(v) => v != absent && IsMajority(multiset(values), v)
    case None => IsMajority(multiset(values), absent)
  }

  /** The defaults leave no field of a provider with more overrides than any other default would. */
  ghost predicate BestDefault(models: seq<Entry>, d: Default) {
    && IsMajority(multiset(Apis(models)), d.api)
    && MajorityOption(BaseUrls(models), UNDEFINED, d.baseUrl)
    && MajorityOption(Compats(models), NULL, d.compat)
  }

  method ChooseDefault(models: seq<Entry>) returns (d: Default)
    ensures models != [] ==> BestDefault(models, d)
    ensures models == [] ==> d == Default([], Some([]), Some([]))
  {
    var api := MajorityValue(Apis(models));
    var baseUrl := MajorityValue(BaseUrls(models));
    var compat := MajorityValue(Compats(models));
    d := Default(api, AbsentAs(UNDEFINED, baseUrl), AbsentAs(NULL, compat));
  }

  /** Values that occur more than once get a name, each once. */
  method NameConstants(values: seq<Text>) returns (names: Names)
    ensures forall v :: v in names <==> multiset(values)[v] > 1
    ensures forall i, j :: 0 <= i < j < |names| ==> names[i] != names[j]
  {
    var seen: seq<Text> := [];
    for i := 0 to |values|
      invariant forall v :: v in seen <==> v in values[..i]
      invariant forall a, b :: 0 <= a < b < |seen| ==> seen[a] != seen[b]
    {
      assert values[..i + 1] == values[..i] + [values[i]];
      if values[i] !in seen {
        seen := seen + [values[i]];
      }
    }
    assert values[..|values|] == values;
    names := [];
    for k := 0 to |seen|
      invariant forall v :: v in names <==> v in seen[..k] && multiset(values)[v] > 1
      invariant forall a, b :: 0 <= a < b < |names| ==> names[a] != names[b]
      invariant forall a :: 0 <= a < |names| ==> names[a] in seen[..k]
    {
      assert seen[k] !in seen[..k];
      assert seen[..k + 1] == seen[..k] + [seen[k]];
      if multiset(values)[seen[k]] > 1 {
        names := names + [seen[k]];
      }
    }
    assert seen[..|seen|] == seen;
  }

  ghost predicate DistinctIds(models: seq<Entry>) {
    forall i, j :: 0 <= i < j < |models| ==> models[i].id != models[j].id
  }

  /** `records` holds the compact form of the first `n` models, each under its id, and nothing else. */
  ghost predicate Records(k: Constants, d: Default, models: seq<Entry>, n: nat, records: map<Text, Record>)
    requires n <= |models|
  {
    && (forall i :: 0 <= i < n ==> models[i].id in records
                                   && CompactModel(k, d, models[i].model) == Some(records[models[i].id]))
    && (forall id :: id in records ==> exists i :: 0 <= i < n && models[i].id == id)
  }

  method RenderProvider(k: Constants, d: Default, models: seq<Entry>) returns (records: Option<map<Text, Record>>)
    requires DistinctIds(models)
    ensures records.Some? <==> forall i :: 0 <= i < |models| ==> Renderable(d, models[i].model)
    ensures records.Some? ==> Records(k, d, models, |models|, records.value)
    ensures records.Some? ==>
      forall i :: 0 <= i < |models| ==> SaysWhatDiffers(d, models[i].model, records.value[models[i].id])
  {
    var m: map<Text, Record> := map[];
    for i := 0 to |models|
      invariant Records(k, d, models, i, m)
      invariant forall j :: 0 <= j < i ==> Renderable(d, models[j].model)
    {
      var r := CompactModel(k, d, models[i].model);
      if r.None? {
        return None;
      }
      m := m[models[i].id := r.value];
    }
    forall i | 0 <= i < |models| ensures SaysWhatDiffers(d, models[i].model, m[models[i].id]) {
      RecordSaysWhatDiffers(k, d, models[i].model);
    }
    return Some(m);
  }

  // ------------------------------------------------------------------------------------------
  // How much a provider's records say
  // ------------------------------------------------------------------------------------------

  /** The overrides a default decides about. */
  datatype Hoisted = ApiField | UrlField | CompatField

  predicate Says(o: Overrides, field: Hoisted) {
    match field
    case ApiField => o.a.Some?
    case UrlField => o.u.Some?
    case CompatField => o.c.Some?
  }

  ghost predicate Filed(models: seq<Entry>, records: map<Text, Record>) {
    forall i :: 0 <= i < |models| ==> models[i].id in records
  }

  /** How many of the records override the field. */
  ghost function Written(models: seq<Entry>, records: map<Text, Record>, field: Hoisted): nat
    requires Filed(models, records)
  {
    if models == [] then 0
    else
      Written(models[..|models| - 1], records, field)
      + (if Says(OverridesIn(records[models[|models| - 1].id]), field) then 1 else 0)
  }

  lemma {:induction false} WrittenWhereDifferent<T>(
      models: seq<Entry>, records: map<Text, Record>, field: Hoisted, values: seq<T>, v: T)
    requires Filed(models, records) && |values| == |models|
    requires forall i :: 0 <= i < |models| ==> (Says(OverridesIn(records[models[i].id]), field) <==> values[i] != v)
    ensures Written(models, records, field) == Overridden(values, v)
  {
    if models != [] {
      WrittenWhereDifferent(models[..|models| - 1], records, field, values[..|models| - 1], v);
    }
  }

  function Urls(models: seq<Entry>): seq<Option<Text>> {
    seq(|models|, i requires 0 <= i < |models| => models[i].model.baseUrl)
  }

  function CompatTexts(models: seq<Entry>): seq<Option<Text>> {
    seq(|models|, i requires 0 <= i < |models| => CompatText(models[i].model.compat))
  }

  lemma EntrySays(k: Constants, d: Default, models: seq<Entry>, records: map<Text, Record>, i: nat)
    requires Records(k, d, models, |models|, records) && i < |models|
    ensures models[i].id in records
    ensures var o := OverridesIn(records[models[i].id]);
            && (Says(o, ApiField) <==> Apis(models)[i] != d.api)
            && (Says(o, UrlField) <==> Urls(models)[i] != d.baseUrl)
            && (Says(o, CompatField) <==> CompatTexts(models)[i] != d.compat)
  {
    hide OverridesIn, FindOverrides, FindCost, TailOf;
    RecordSaysWhatDiffers(k, d, models[i].model);
  }

  lemma RecordsFiled(k: Constants, d: Default, models: seq<Entry>, records: map<Text, Record>)
    requires Records(k, d, models, |models|, records)
    ensures Filed(models, records)
  {
    hide CompactModel;
  }

  /** Of each hoisted field, as many overrides are written as there are models whose value is not the default. */
  lemma OverridesWritten(k: Constants, d: Default, models: seq<Entry>, records: map<Text, Record>)
    requires Filed(models, records) && Records(k, d, models, |models|, records)
    ensures Written(models, records, ApiField) == Overridden(Apis(models), d.api)
    ensures Written(models, records, UrlField) == Overridden(Urls(models), d.baseUrl)
    ensures Written(models, records, CompatField) == Overridden(CompatTexts(models), d.compat)
  {
    hide OverridesIn, Records, Says;
    forall i | 0 <= i < |models|
      ensures models[i].id in records
      ensures var o := OverridesIn(records[models[i].id]);
              && (Says(o, ApiField) <==> Apis(models)[i] != d.api)
              && (Says(o, UrlField) <==> Urls(models)[i] != d.baseUrl)
              && (Says(o, CompatField) <==> CompatTexts(models)[i] != d.compat)
    {
      EntrySays(k, d, models, records, i);
    }
    WrittenWhereDifferent(models, records, ApiField, Apis(models), d.api);
    WrittenWhereDifferent(models, records, UrlField, Urls(models), d.baseUrl);
    WrittenWhereDifferent(models, records, CompatField, CompatTexts(models), d.compat);
  }

  lemma {:induction false} SameDifferences<S, T>(xs: seq<S>, x: S, ys: seq<T>, y: T)
    requires |xs| == |ys| && forall i :: 0 <= i < |xs| ==> (xs[i] == x <==> ys[i] == y)
    ensures Overridden(xs, x) == Overridden(ys, y)
  {
    if xs != [] {
      SameDifferences(xs[..|xs| - 1], x, ys[..|ys| - 1], y);
    }
  }

  lemma {:induction false} OverriddenBound<T>(values: seq<T>, v: T)
    ensures Overridden(values, v) <= |values|
    ensures v in values ==> Overridden(values, v) < |values|
  {
    if values != [] {
      OverriddenBound(values[..|values| - 1], v);
      assert values == values[..|values| - 1] + [values[|values| - 1]];
    }
  }

  lemma {:induction false} AllOverridden<T>(values: seq<T>, v: T)
    requires v !in values
    ensures Overridden(values, v) == |values|
  {
    if values != [] { AllOverridden(values[..|values| - 1], v); }
  }

  /** With no text that reads like an absent field, the majority of the texts is the majority of the fields. */
  lemma OptionMajority(fields: seq<Option<Text>>, texts: seq<Text>, absent: Text, best: Option<Text>,
                       other: Option<Text>)
    requires |fields| == |texts| && Some(absent) !in fields
    requires forall i :: 0 <= i < |fields| ==> texts[i] == if fields[i].Some? then fields[i].value else absent
    requires MajorityOption(texts, absent, best)
    ensures Overridden(fields, best) <= Overridden(fields, other)
  {
    var chosen := if best.Some? then best.value else absent;
    SameDifferences(fields, best, texts, chosen);
    if other == Some(absent) {
      AllOverridden(fields, other);
      OverriddenBound(texts, chosen);
    } else {
      var rival := if other.Some? then other.value else absent;
      SameDifferences(fields, other, texts, rival);
      MajorityMinimisesOverrides(texts, chosen, rival);
    }
  }

  /** Whatever defaults and constants another form has, it writes no fewer `a` and `c` overrides. */
  lemma MajorityWritesLeast(k: Constants, d: Default, models: seq<Entry>, records: map<Text, Record>,
                            k': Constants, e: Default, others: map<Text, Record>)
    requires Filed(models, records) && Filed(models, others)
    requires BestDefault(models, d) && Records(k, d, models, |models|, records)
    requires Records(k', e, models, |models|, others)
    ensures Written(models, records, ApiField) <= Written(models, others, ApiField)
    ensures (forall i :: 0 <= i < |models| ==> models[i].model.compat != Given(NULL))
       ==> Written(models, records, CompatField) <= Written(models, others, CompatField)
  {
    hide Written, Overridden, Records, IsMajority;
    OverridesWritten(k, d, models, records);
    OverridesWritten(k', e, models, others);
    MajorityMinimisesOverrides(Apis(models), d.api, e.api);
    if forall i :: 0 <= i < |models| ==> models[i].model.compat != Given(NULL) {
      OptionMajority(CompatTexts(models), Compats(models), NULL, d.compat, e.compat);
    }
  }

  ghost predicate SomeUrlMissing(models: seq<Entry>) {
    exists i :: 0 <= i < |models| && models[i].model.baseUrl.None?
  }

  lemma MissingUrlHoistsNone(k: Constants, d: Default, models: seq<Entry>, records: map<Text, Record>)
    requires Records(k, d, models, |models|, records) && SomeUrlMissing(models)
    ensures d.baseUrl == None
  {
    var i :| 0 <= i < |models| && models[i].model.baseUrl.None?;
    assert CompactModel(k, d, models[i].model).Some?;
  }

  lemma UrlsLeast(k: Constants, d: Default, models: seq<Entry>, records: map<Text, Record>,
                  k': Constants, e: Default, others: map<Text, Record>)
    requires Filed(models, records) && Filed(models, others)
    requires BestDefault(models, d) && Records(k, d, models, |models|, records)
    requires Records(k', e, models, |models|, others)
    requires d.baseUrl.Some? || SomeUrlMissing(models)
    ensures Written(models, records, UrlField) <= Written(models, others, UrlField)
  {
    hide Written, Overridden, Records, IsMajority;
    OverridesWritten(k, d, models, records);
    OverridesWritten(k', e, models, others);
    if SomeUrlMissing(models) {
      MissingUrlHoistsNone(k, d, models, records);
      MissingUrlHoistsNone(k', e, models, others);
    } else if e.baseUrl.None? {
      AllOverridden(Urls(models), None);
      OverriddenBound(Urls(models), d.baseUrl);
    } else {
      SameDifferences(Urls(models), d.baseUrl, BaseUrls(models), d.baseUrl.value);
      SameDifferences(Urls(models), e.baseUrl, BaseUrls(models), e.baseUrl.value);
      MajorityMinimisesOverrides(BaseUrls(models), d.baseUrl.value, e.baseUrl.value);
    }
  }

  lemma {:induction false} RecordsExist(k: Constants, d: Default, models: seq<Entry>, n: nat)
    returns (records: map<Text, Record>)
    requires n <= |models| && DistinctIds(models)
    requires forall i :: 0 <= i < |models| ==> Renderable(d, models[i].model)
    ensures Records(k, d, models, n, records)
  {
    records := map[];
    if n > 0 {
      var fewer := RecordsExist(k, d, models, n - 1);
      records := fewer[models[n - 1].id := CompactModel(k, d, models[n - 1].model).value];
    }
  }

  /**
   * Of base URLs the fewest are written, too, exactly when one is hoisted or some model has none; it fails for a
   * provider most of whose models have a base URL that reads `undefined`, which is then taken for an absent one.
   */
  lemma UrlsLeastExactly(k: Constants, d: Default, models: seq<Entry>, records: map<Text, Record>)
    requires models != [] && DistinctIds(models) && Filed(models, records)
    requires BestDefault(models, d) && Records(k, d, models, |models|, records)
    ensures (forall k', e, others :: Filed(models, others) && Records(k', e, models, |models|, others)
               ==> Written(models, records, UrlField) <= Written(models, others, UrlField))
       <==> d.baseUrl.Some? || SomeUrlMissing(models)
  {
    hide Written, Overridden, Records, CompactModel;
    if d.baseUrl.Some? || SomeUrlMissing(models) {
      forall k', e, others | Filed(models, others) && Records(k', e, models, |models|, others)
        ensures Written(models, records, UrlField) <= Written(models, others, UrlField)
      {
        UrlsLeast(k, d, models, records, k', e, others);
      }
    } else {
      var e, others := FewerUrls(k, d, models, records);
    }
  }

  /** Hoisting the text itself would have saved the overrides of the models that have it. */
  lemma FewerUrls(k: Constants, d: Default, models: seq<Entry>, records: map<Text, Record>)
    returns (e: Default, others: map<Text, Record>)
    requires models != [] && DistinctIds(models) && Filed(models, records)
    requires BestDefault(models, d) && Records(k, d, models, |models|, records)
    requires d.baseUrl.None? && !SomeUrlMissing(models)
    ensures Filed(models, others) && Records(k, e, models, |models|, others)
    ensures Written(models, others, UrlField) < Written(models, records, UrlField)
  {
    hide Written, Overridden, Records, CompactModel;
    e := Default(d.api, Some(UNDEFINED), d.compat);
    forall i | 0 <= i < |models| ensures Renderable(e, models[i].model) {
      StillRenderable(k, d, models, records, i);
    }
    others := RecordsExist(k, e, models, |models|);
    RecordsFiled(k, e, models, others);
    OverridesWritten(k, d, models, records);
    OverridesWritten(k, e, models, others);
    AllOverridden(Urls(models), None);
    SomeoneSays(BaseUrls(models), UNDEFINED);
    var i :| 0 <= i < |models| && BaseUrls(models)[i] == UNDEFINED;
    assert Urls(models)[i] == Some(UNDEFINED);
    OverriddenBound(Urls(models), Some(UNDEFINED));
  }

  lemma StillRenderable(k: Constants, d: Default, models: seq<Entry>, records: map<Text, Record>, i: nat)
    requires Records(k, d, models, |models|, records) && i < |models|
    ensures EncodeInput(models[i].model.input).Some?
  {
    assert CompactModel(k, d, models[i].model).Some?;
  }

  lemma SomeoneSays(values: seq<Text>, v: Text)
    requires IsMajority(multiset(values), v)
    ensures exists i :: 0 <= i < |values| && values[i] == v
  {
    assert v in multiset(values);
  }

  /** What `expandModels` makes of one provider. */
  function ExpandProvider(k: Constants, provider: Text, p: Provider): map<Text, Model> {
    map id | id in p.m :: ExpandRecord(k, Place(provider, id), p, p.m[id])
  }

  method ExpandModels(file: CompactFile) returns (providers: map<Text, map<Text, Model>>)
    ensures providers == map id | id in file.providers :: ExpandProvider(file.constants, id, file.providers[id])
  {
    providers := map[];
    var left := file.providers.Keys;
    while left != {}
      invariant left <= file.providers.Keys
      invariant providers == map id | id in file.providers && id !in left ::
                               ExpandProvider(file.constants, id, file.providers[id])
      decreases left
    {
      var id :| id in left;
      var p := file.providers[id];
      var models: map<Text, Model> := map[];
      var ids := p.m.Keys;
      while ids != {}
        invariant ids <= p.m.Keys
        invariant models == map i | i in p.m && i !in ids :: ExpandRecord(file.constants, Place(id, i), p, p.m[i])
        decreases ids
      {
        var i :| i in ids;
        models := models[i := ExpandRecord(file.constants, Place(id, i), p, p.m[i])];
        ids := ids - {i};
      }
      assert models == ExpandProvider(file.constants, id, p);
      providers := providers[id := models];
      left := left - {id};
    }
  }

  /** Every model of a rendered provider comes back restored, and no other model appears. */
  lemma ProviderRoundTrip(k: Constants, provider: Text, d: Default, models: seq<Entry>, records: map<Text, Record>)
    requires DistinctIds(models) && Records(k, d, models, |models|, records)
    ensures var back := ExpandProvider(k, provider, ProviderHead(k, d, records));
            && (forall i :: 0 <= i < |models| ==>
                  && models[i].id in back
                  && back[models[i].id] == Restored(Place(provider, models[i].id), d, models[i].model))
            && (forall id :: id in back ==> exists i :: 0 <= i < |models| && models[i].id == id)
  {
    forall i | 0 <= i < |models|
      ensures var at := Place(provider, models[i].id);
              ExpandRecord(k, at, ProviderHead(k, d, records), records[models[i].id])
              == Restored(at, d, models[i].model)
    {
      ModelRoundTrip(k, Place(provider, models[i].id), d, models[i].model, records);
    }
  }

  /** The compat values written out for a provider: its default, and every model that differs from it. */
  function CompatUses(d: Default, models: seq<Entry>): seq<Text> {
    (if d.compat.Some? then [d.compat.value] else []) + CompatOverrides(d, models)
  }

  function CompatOverrides(d: Default, models: seq<Entry>): seq<Text> {
    if models == [] then []
    else
      var init, m := models[..|models| - 1], models[|models| - 1].model;
      CompatOverrides(d, init)
      + (if CompatText(m.compat) == d.compat then [] else [if m.compat.Given? then m.compat.json else NULL])
  }

  function Present(values: seq<Option<Text>>): seq<Text> {
    if values == [] then []
    else Present(values[..|values| - 1]) + (if values[|values| - 1].Some? then [values[|values| - 1].value] else [])
  }

  function HeaderUses(models: seq<Entry>): seq<Text> {
    Present(seq(|models|, i requires 0 <= i < |models| => models[i].model.headers))
  }

  function ThinkingUses(models: seq<Entry>): seq<Text> {
    Present(seq(|models|, i requires 0 <= i < |models| => models[i].model.thinking))
  }

  /** Whether the generator can write the model at all. */
  predicate Renderable(d: Default, m: Model) {
    (m.baseUrl.Some? || d.baseUrl.None?) && EncodeInput(m.input).Some?
  }

  predicate SourceRenderable(d: Default, models: seq<Entry>) {
    models != [] && forall j :: 0 <= j < |models| ==> Renderable(d, models[j].model)
  }

  predicate AllRenderable(catalogue: seq<Source>, defaults: seq<Default>)
    requires |defaults| == |catalogue|
  {
    forall i :: 0 <= i < |catalogue| ==> SourceRenderable(defaults[i], catalogue[i].models)
  }

  ghost predicate DefaultsBest(catalogue: seq<Source>, defaults: seq<Default>, n: nat)
    requires n <= |catalogue| && n <= |defaults|
  {
    forall i :: 0 <= i < n && catalogue[i].models != [] ==> BestDefault(catalogue[i].models, defaults[i])
  }

  ghost predicate DistinctSources(catalogue: seq<Source>) {
    && (forall i, j :: 0 <= i < j < |catalogue| ==> catalogue[i].id != catalogue[j].id)
    && forall i :: 0 <= i < |catalogue| ==> DistinctIds(catalogue[i].models)
  }

  ghost predicate RenderedProvider(k: Constants, d: Default, models: seq<Entry>, p: Provider) {
    p == ProviderHead(k, d, p.m) && Records(k, d, models, |models|, p.m)
  }

  /** `providers` holds the first `n` sources, rendered, each under its id, and nothing else. */
  ghost predicate Rendered(k: Constants, defaults: seq<Default>, catalogue: seq<Source>, n: nat,
                           providers: map<Text, Provider>)
    requires n <= |catalogue| == |defaults|
  {
    && (forall i :: 0 <= i < n ==> catalogue[i].id in providers)
    && (forall i :: 0 <= i < n ==>
          RenderedProvider(k, defaults[i], catalogue[i].models, providers[catalogue[i].id]))
    && (forall id :: id in providers ==> exists i :: 0 <= i < n && catalogue[i].id == id)
  }

  lemma RenderedStep(k: Constants, defaults: seq<Default>, catalogue: seq<Source>, n: nat,
                     providers: map<Text, Provider>, p: Provider)
    requires n < |catalogue| == |defaults| && DistinctSources(catalogue)
    requires Rendered(k, defaults, catalogue, n, providers)
    requires RenderedProvider(k, defaults[n], catalogue[n].models, p)
    ensures Rendered(k, defaults, catalogue, n + 1, providers[catalogue[n].id := p])
  {
  }

  method ChooseDefaults(catalogue: seq<Source>) returns (defaults: seq<Default>)
    ensures |defaults| == |catalogue|
    ensures DefaultsBest(catalogue, defaults, |catalogue|)
  {
    defaults := [];
    for i := 0 to |catalogue|
      invariant |defaults| == i && DefaultsBest(catalogue, defaults, i)
    {
      var d := ChooseDefault(catalogue[i].models);
      defaults := defaults + [d];
    }
  }

  datatype Kind = CompatKind | HeaderKind | ThinkingKind

  function UsesIn(kind: Kind, d: Default, models: seq<Entry>): seq<Text> {
    match kind
    case CompatKind => CompatUses(d, models)
    case HeaderKind => HeaderUses(models)
    case ThinkingKind => ThinkingUses(models)
  }

  /** What the record spells out of the kind, by name or in place. */
  function Spelling(k: Constants, kind: Kind, r: Record): Option<Text> {
    var o := OverridesIn(r);
    match kind
    case HeaderKind => ResolveOption(k.headers, o.h)
    case ThinkingKind => ResolveOption(k.thinking, o.t)
    case CompatKind =>
      if o.c.None? then None
      else if o.c.value.ClearCompat? then Some(NULL)
      else Some(Resolve(k.compat, o.c.value.ref))
  }

  /** How many of the records spell out `v`. */
  ghost function Spelled(k: Constants, kind: Kind, models: seq<Entry>, records: map<Text, Record>, v: Text): nat
    requires Filed(models, records)
  {
    if models == [] then 0
    else
      Spelled(k, kind, models[..|models| - 1], records, v)
      + (if Spelling(k, kind, records[models[|models| - 1].id]) == Some(v) then 1 else 0)
  }

  /** What the model has to spell out of the kind when it differs from the default. */
  function OwnSpelling(kind: Kind, d: Default, m: Model): Option<Text> {
    match kind
    case HeaderKind => m.headers
    case ThinkingKind => m.thinking
    case CompatKind =>
      if CompatText(m.compat) == d.compat then None
      else Some(if m.compat.Given? then m.compat.json else NULL)
  }

  lemma EntrySpelling(k: Constants, d: Default, m: Model, kind: Kind)
    requires CompactModel(k, d, m).Some?
    ensures Spelling(k, kind, CompactModel(k, d, m).value) == OwnSpelling(kind, d, m)
  {
    TailFound(k, d, m);
    if m.compat.Given? { ResolveConstRef(k.compat, m.compat.json); }
    if m.headers.Some? { ResolveConstRef(k.headers, m.headers.value); }
    if m.thinking.Some? { ResolveConstRef(k.thinking, m.thinking.value); }
  }

  /** The value the provider itself spells out. */
  function HeadSpelling(kind: Kind, d: Default): Option<Text> {
    if kind == CompatKind then d.compat else None
  }

  lemma UsesStep(kind: Kind, d: Default, models: seq<Entry>, v: Text)
    requires models != []
    ensures multiset(UsesIn(kind, d, models))[v]
         == multiset(UsesIn(kind, d, models[..|models| - 1]))[v]
            + (if OwnSpelling(kind, d, models[|models| - 1].model) == Some(v) then 1 else 0)
  {
    var init := models[..|models| - 1];
    var headers := seq(|models|, i requires 0 <= i < |models| => models[i].model.headers);
    var thinking := seq(|models|, i requires 0 <= i < |models| => models[i].model.thinking);
    assert headers[..|models| - 1] == seq(|init|, i requires 0 <= i < |init| => init[i].model.headers);
    assert thinking[..|models| - 1] == seq(|init|, i requires 0 <= i < |init| => init[i].model.thinking);
    assert HeaderUses(models) == Present(headers) && ThinkingUses(models) == Present(thinking);
  }

  /** What is counted for the constants is what the provider and its records spell out. */
  lemma {:induction false} UsesAreSpelled(k: Constants, kind: Kind, d: Default, models: seq<Entry>,
                                          records: map<Text, Record>, v: Text)
    requires forall i :: 0 <= i < |models| ==>
               models[i].id in records && CompactModel(k, d, models[i].model) == Some(records[models[i].id])
    ensures multiset(UsesIn(kind, d, models))[v]
         == Spelled(k, kind, models, records, v) + (if HeadSpelling(kind, d) == Some(v) then 1 else 0)
  {
    if models != [] {
      UsesAreSpelled(k, kind, d, models[..|models| - 1], records, v);
      UsesStep(kind, d, models, v);
      EntrySpelling(k, d, models[|models| - 1].model, kind);
    }
  }

  function Concat(parts: seq<seq<Text>>): seq<Text> {
    if parts == [] then [] else Concat(parts[..|parts| - 1]) + parts[|parts| - 1]
  }

  /** Every spelling of a value of `kind`, provider by provider. */
  function Uses(kind: Kind, defaults: seq<Default>, catalogue: seq<Source>): seq<seq<Text>>
    requires |defaults| == |catalogue|
  {
    seq(|catalogue|, i requires 0 <= i < |catalogue| => UsesIn(kind, defaults[i], catalogue[i].models))
  }

  /** A value is a constant exactly when the file would otherwise spell it out more than once. */
  ghost predicate NamedWhenShared(names: Names, uses: seq<Text>) {
    forall v :: v in names <==> multiset(uses)[v] > 1
  }

  method NameShared(uses: seq<seq<Text>>) returns (names: Names)
    ensures NamedWhenShared(names, Concat(uses))
  {
    var values: seq<Text> := [];
    for i := 0 to |uses|
      invariant values == Concat(uses[..i])
    {
      assert uses[..i + 1][..i] == uses[..i];
      values := values + uses[i];
    }
    assert uses[..|uses|] == uses;
    names := NameConstants(values);
  }

  method ChooseConstants(catalogue: seq<Source>, defaults: seq<Default>) returns (k: Constants)
    requires |defaults| == |catalogue|
    ensures NamedWhenShared(k.compat, Concat(Uses(CompatKind, defaults, catalogue)))
    ensures NamedWhenShared(k.headers, Concat(Uses(HeaderKind, defaults, catalogue)))
    ensures NamedWhenShared(k.thinking, Concat(Uses(ThinkingKind, defaults, catalogue)))
  {
    var compat := NameShared(Uses(CompatKind, defaults, catalogue));
    var headers := NameShared(Uses(HeaderKind, defaults, catalogue));
    var thinking := NameShared(Uses(ThinkingKind, defaults, catalogue));
    k := Constants(compat, headers, thinking);
  }

  method RenderProviders(k: Constants, defaults: seq<Default>, catalogue: seq<Source>)
    returns (providers: Option<map<Text, Provider>>)
    requires |defaults| == |catalogue| && DistinctSources(catalogue)
    ensures providers.Some? <==> AllRenderable(catalogue, defaults)
    ensures providers.Some? ==> Rendered(k, defaults, catalogue, |catalogue|, providers.value)
  {
    var done: map<Text, Provider> := map[];
    for i := 0 to |catalogue|
      invariant Rendered(k, defaults, catalogue, i, done)
      invariant forall n :: 0 <= n < i ==> SourceRenderable(defaults[n], catalogue[n].models)
    {
      var p := RenderSource(k, defaults[i], catalogue[i].models);
      if p.None? {
        assert !SourceRenderable(defaults[i], catalogue[i].models);
        return None;
      }
      RenderedStep(k, defaults, catalogue, i, done, p.value);
      done := done[catalogue[i].id := p.value];
    }
    return Some(done);
  }

  method RenderSource(k: Constants, d: Default, models: seq<Entry>) returns (p: Option<Provider>)
    requires DistinctIds(models)
    ensures p.Some? <==> SourceRenderable(d, models)
    ensures p.Some? ==> RenderedProvider(k, d, models, p.value)
  {
    if models == [] {
      return None;
    }
    var records := RenderProvider(k, d, models);
    return if records.Some? then Some(ProviderHead(k, d, records.value)) else None;
  }

  /** The whole generator. It throws for an empty provider, unknown modalities, or no base URL under a default. */
  method Render(catalogue: seq<Source>) returns (file: Option<CompactFile>, defaults: seq<Default>)
    requires DistinctSources(catalogue)
    ensures |defaults| == |catalogue| && DefaultsBest(catalogue, defaults, |catalogue|)
    ensures file.Some? <==> AllRenderable(catalogue, defaults)
    ensures file.Some? ==> Rendered(file.value.constants, defaults, catalogue, |catalogue|, file.value.providers)
  {
    defaults := ChooseDefaults(catalogue);
    var k := ChooseConstants(catalogue, defaults);
    var providers := RenderProviders(k, defaults, catalogue);
    file := if providers.Some? then Some(CompactFile(k, providers.value)) else None;
  }

  /** What comes back from a rendered file: every model of every provider, restored, under its own ids. */
  lemma CatalogueRoundTrip(catalogue: seq<Source>, defaults: seq<Default>, file: CompactFile, i: nat, j: nat)
    requires DistinctSources(catalogue) && |defaults| == |catalogue|
    requires Rendered(file.constants, defaults, catalogue, |catalogue|, file.providers)
    requires i < |catalogue| && j < |catalogue[i].models|
    ensures var source := catalogue[i];
            && source.id in file.providers
            && source.models[j].id in ExpandProvider(file.constants, source.id, file.providers[source.id])
            && ExpandProvider(file.constants, source.id, file.providers[source.id])[source.models[j].id]
               == Restored(Place(source.id, source.models[j].id), defaults[i], source.models[j].model)
  {
    var p := file.providers[catalogue[i].id];
    ProviderRoundTrip(file.constants, catalogue[i].id, defaults[i], catalogue[i].models, p.m);
  }
}
