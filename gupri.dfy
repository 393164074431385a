/**
 * The GUPRI generator (scripts/etl/generate_cmc_ttl_gupri.py): persistent
 * identifiers `ex:<Type>[_<hint>]_<token>` kept in a lookup-or-create cache,
 * and the stage and deliverable emitters that use them.
 *
 * The name-based UUID (RFC 4122 section 4.3, version 5) under the cache's
 * namespace is an uninterpreted, deterministic function `uuid5` from the cache
 * key to the UUID's text; the token is its first eight characters.
 */
module Gupri {
  import opened Text
  import opened Sheet
  import opened Wrappers
  import Slug
  import Turtle

  type Mappings = map<string, string>

  /** The components that are kept in a cache key: the non-empty ones, in order. */
  function NonEmpty(cs: seq<string>): (r: seq<string>)
    ensures forall i :: 0 <= i < |r| ==> r[i] != ""
    ensures forall x :: x in r <==> x in cs && x != ""
  {
    if cs == [] then [] else (if cs[0] == "" then [] else [cs[0]]) + NonEmpty(cs[1..])
  }

  /** `f"{entity_type}:{':'.join(str(k) for k in key_components if k)}"` */
  function CacheKey(entityType: string, components: seq<string>): string {
    entityType + ":" + Join(":", NonEmpty(components))
  }

  lemma {:induction false} NonEmptyConcat(a: seq<string>, b: seq<string>)
    ensures NonEmpty(a + b) == NonEmpty(a) + NonEmpty(b)
  {
    if a != [] {
      assert (a + b)[1..] == a[1..] + b;
      NonEmptyConcat(a[1..], b);
    } else {
      assert a + b == b;
    }
  }

  /** An empty component anywhere leaves the cache key, and so the identifier, unchanged. */
  lemma CacheKeyDropsEmpty(entityType: string, a: seq<string>, b: seq<string>)
    ensures CacheKey(entityType, a + [""] + b) == CacheKey(entityType, a + b)
  {
    assert NonEmpty([""]) == [] by { assert [""][1..] == []; }
    NonEmptyConcat(a + [""], b);
    NonEmptyConcat(a, [""]);
    NonEmptyConcat(a, b);
    assert NonEmpty(a + [""]) == NonEmpty(a);
    assert a + [""] + b == (a + [""]) + b;
  }

  /** `str(uuid)[:8]` */
  function Token(uuid: string): (t: string)
    ensures |t| <= 8 && t <= uuid
  {
    Take(uuid, 8)
  }

  /** The identifier minted on a cache miss; an empty hint means no hint was given. */
  function FreshGupri(entityType: string, hint: string, uuid: string): string {
    if hint != "" then "ex:" + entityType + "_" + Slug.CleanHint(hint) + "_" + Token(uuid)
    else "ex:" + entityType + "_" + Token(uuid)
  }

  /** A minted identifier is `ex:<Type>_`, an optional cleaned hint and `_`, then the token. */
  lemma FreshGupriShape(entityType: string, hint: string, uuid: string)
    ensures var id := FreshGupri(entityType, hint, uuid);
      ("ex:" + entityType + "_") <= id && EndsWith(id, Token(uuid))
    ensures hint != "" ==>
      FreshGupri(entityType, hint, uuid)[|entityType| + 4..|FreshGupri(entityType, hint, uuid)| - |Token(uuid)|]
        == Slug.CleanHint(hint) + "_"
    ensures Slug.IsWordSlug(Slug.CleanHint(hint)) && |Slug.CleanHint(hint)| <= 20
  {
    var id := FreshGupri(entityType, hint, uuid);
    var head := "ex:" + entityType + "_";
    if hint != "" {
      assert id == head + (Slug.CleanHint(hint) + "_") + Token(uuid);
    } else {
      assert id == head + Token(uuid);
    }
    Slug.CleanHintShape(hint);
  }

  /**
   * Lookup-or-create: the identifier under `key` and the cache afterwards. A
   * hit returns the stored identifier and leaves the cache alone; a miss
   * records `minted` under `key` and changes no other entry.
   */
  function Resolve(m: Mappings, key: string, minted: string): (r: (string, Mappings))
    ensures key in r.1 && r.1[key] == r.0
    ensures r.1.Keys == m.Keys + {key}
    ensures forall k :: k in m ==> r.1[k] == m[k]
    ensures key in m ==> r.0 == m[key] && r.1 == m
    ensures key !in m ==> r.0 == minted
  {
    if key in m then (m[key], m) else (minted, m[key := minted])
  }

  /** Later entries never replace earlier ones. */
  predicate Extends(m: Mappings, m': Mappings) {
    forall k :: k in m ==> k in m' && m'[k] == m[k]
  }

  /**
   * A lookup whose key is already in a larger cache `m'` answers from it and
   * leaves it alone: once saved, an identifier is what every later run gets.
   */
  lemma ResolveSettled(m: Mappings, key: string, minted: string, m': Mappings, other: string)
    requires Extends(Resolve(m, key, minted).1, m')
    ensures Resolve(m', key, other) == (Resolve(m, key, minted).0, m')
  {
  }

  /** `ID_MAPPINGS` together with the namespace its identifiers are minted under. */
  class IdCache {
    var mappings: Mappings
    const uuid5: string -> string

    /** A cache holding the entries loaded from the mapping file (or none). */
    constructor(loaded: Mappings, uuid5: string -> string)
      ensures mappings == loaded && this.uuid5 == uuid5
    {
      mappings := loaded;
      this.uuid5 := uuid5;
    }

    /** `create_gupri(entity_type, *key_components, readable_hint=hint)` */
    method CreateGupri(entityType: string, components: seq<string>, hint: string) returns (id: string)
      modifies this
      ensures var key := CacheKey(entityType, components);
        (id, mappings) == Resolve(old(mappings), key, FreshGupri(entityType, hint, uuid5(key)))
    {
      var key := CacheKey(entityType, components);
      if key in mappings {
        return mappings[key];
      }
      id := FreshGupri(entityType, hint, uuid5(key));
      mappings := mappings[key := id];
    }
  }

  /** `create_legacy_alias` */
  function LegacyAlias(entityType: string, legacyId: string): string {
    "ex:" + entityType + "-" + legacyId
  }

  /** The single-line form of a label used inside a `#` comment. */
  function CommentText(s: string): string {
    Replace(Replace(s, "\n", " / "), "\r", " ")
  }

  /** A literal as the generator writes it (the multi-line branch leaves lone quotes raw). */
  function Lit(s: string): string { Turtle.EscapeGupriAsWritten(Some(s)) }

  // ---------------------------------------------------------------------
  // emit_stage_blocks_gupri
  // ---------------------------------------------------------------------

  /** The cells the stage loop reads from a row. */
  datatype StageFields = StageFields(stream: string, stage: string, desc: string)

  function StageFieldsOf(row: Row): StageFields {
    StageFields(GetValueGupri(row, ValueStream), GetValueGupri(row, StageGate),
                GetValueGupri(row, StageGateDescription))
  }

  function StageTable(rows: seq<Row>): (fs: seq<StageFields>)
    ensures |fs| == |rows| && forall i :: 0 <= i < |rows| ==> fs[i] == StageFieldsOf(rows[i])
  {
    seq(|rows|, i requires 0 <= i < |rows| => StageFieldsOf(rows[i]))
  }

  function StageLegacy(f: StageFields): string {
    LegacyAlias("Stage", Slug.StreamId(f.stream) + "-" + Slug.DashSlug(f.stage))
  }

  function StageHint(f: StageFields): string {
    Slug.DashSlug(f.stream) + "_" + Slug.DashSlug(f.stage)
  }

  /** The text of one stage block, given the four identifiers. */
  function StageBlock(f: StageFields, stageId: string, planId: string, gateId: string, specId: string): string {
    var title := StageTitle(f.desc, f.stage);
    var legacy := StageLegacy(f);
    "\n# Stage: " + CommentText(title) + "\n"
    + stageId + " a ex:Stage ;\n"
    + "    rdfs:label " + Lit(title) + " ;\n"
    + "    ex:hasPlan " + planId + " ;\n"
    + "    ex:hasGate " + gateId + " ;\n"
    + "    ex:hasSpecification " + specId + " ;\n"
    + "    owl:sameAs " + legacy + " .\n"
    + legacy + " owl:sameAs " + stageId + " .\n"
    + planId + " a ex:StagePlan ;\n"
    + "    rdfs:label " + Lit("Plan for " + title) + " .\n"
    + gateId + " a ex:StageGate ;\n"
    + "    rdfs:label " + Lit("Gate for " + title) + " .\n"
  }

  /** A block of Turtle an emitter writes, with the identifiers it names. */
  datatype Block =
    | StageOut(f: StageFields, stageId: string, planId: string, gateId: string, specId: string)
    | SpecOut(specId: string, stageLabel: string)
    | QaOut(d: DeliverableFields, qaId: string)

  function BlockText(b: Block): string {
    match b
    case StageOut(f, stageId, planId, gateId, specId) => StageBlock(f, stageId, planId, gateId, specId)
    case SpecOut(specId, stageLabel) => SpecDecl(specId, stageLabel)
    case QaOut(d, qaId) => QaBlock(d, qaId)
  }

  /** `"".join(ttl_lines)`: the text of the blocks, in order. */
  function Render(bs: seq<Block>): string {
    if bs == [] then "" else Render(bs[..|bs| - 1]) + BlockText(bs[|bs| - 1])
  }

  /** What an emitter has produced so far: its blocks, the keys it has seen and the cache. */
  datatype Emitted = Emitted(out: seq<Block>, seen: set<string>, ids: Mappings)

  function SpecKey(stream: string, stage: string): string {
    CacheKey("Specification", [stream, stage])
  }

  /** `create_gupri` with no hint, on the pure cache. */
  function Plain(m: Mappings, entityType: string, components: seq<string>, uuid5: string -> string): (r: (string, Mappings))
    ensures Extends(m, r.1) && CacheKey(entityType, components) in r.1
    ensures r.1[CacheKey(entityType, components)] == r.0
  {
    var k := CacheKey(entityType, components);
    Resolve(m, k, FreshGupri(entityType, "", uuid5(k)))
  }

  /** One row of the stage loop: a block for the first row of each kept `stream:stage` pair. */
  function StageStep(st: Emitted, f: StageFields, uuid5: string -> string): (r: Emitted)
    ensures r.seen == st.seen + (if StageSkipped(f.stream, f.stage) then {} else {SeenKey(f.stream, f.stage)})
    ensures |r.out| == |st.out| + (if StageSkipped(f.stream, f.stage) || SeenKey(f.stream, f.stage) in st.seen then 0 else 1)
    ensures Extends(st.ids, r.ids)
    ensures !StageSkipped(f.stream, f.stage) && SeenKey(f.stream, f.stage) !in st.seen ==> SpecKey(f.stream, f.stage) in r.ids
  {
    var sk := SeenKey(f.stream, f.stage);
    if StageSkipped(f.stream, f.stage) || sk in st.seen then st
    else
      var (b, m) := StageIds(st.ids, f, uuid5);
      Emitted(st.out + [b], st.seen + {sk}, m)
  }

  /** Adding a key not yet seen grows the set by one. */
  lemma AddFresh(s: set<string>, k: string)
    requires k !in s
    ensures |s + {k}| == |s| + 1
  {
    assert s * {k} == {};
  }

  /** The four identifiers of a stage block, looked up or created in this order. */
  function StageIds(m0: Mappings, f: StageFields, uuid5: string -> string): (r: (Block, Mappings))
    ensures Extends(m0, r.1) && SpecKey(f.stream, f.stage) in r.1
  {
    var pair := [f.stream, f.stage];
    var k1 := CacheKey("Stage", pair);
    var (stageId, m1) := Resolve(m0, k1, FreshGupri("Stage", StageHint(f), uuid5(k1)));
    var (planId, m2) := Plain(m1, "StagePlan", pair, uuid5);
    var (gateId, m3) := Plain(m2, "StageGate", pair, uuid5);
    var (specId, m4) := Plain(m3, "Specification", pair, uuid5);
    (StageOut(f, stageId, planId, gateId, specId), m4)
  }

  /** The four `create_gupri` calls of one stage block. */
  method CreateStageIds(f: StageFields, cache: IdCache) returns (b: Block)
    modifies cache
    ensures (b, cache.mappings) == StageIds(old(cache.mappings), f, cache.uuid5)
  {
    var stageId := cache.CreateGupri("Stage", [f.stream, f.stage], StageHint(f));
    var planId := cache.CreateGupri("StagePlan", [f.stream, f.stage], "");
    var gateId := cache.CreateGupri("StageGate", [f.stream, f.stage], "");
    var specId := cache.CreateGupri("Specification", [f.stream, f.stage], "");
    b := StageOut(f, stageId, planId, gateId, specId);
  }

  /** The stage loop over the rows' cells, starting from the cache `m0`. */
  function StageRun(fs: seq<StageFields>, m0: Mappings, uuid5: string -> string): Emitted {
    if fs == [] then Emitted([], {}, m0)
    else StageStep(StageRun(fs[..|fs| - 1], m0, uuid5), fs[|fs| - 1], uuid5)
  }

  /** The `stream:stage` keys of the rows the stage loop does not skip. */
  function StageKeys(fs: seq<StageFields>): set<string> {
    if fs == [] then {}
    else
      var f := fs[|fs| - 1];
      StageKeys(fs[..|fs| - 1]) + (if StageSkipped(f.stream, f.stage) then {} else {SeenKey(f.stream, f.stage)})
  }

  /**
   * `emit_stage_blocks_gupri(rows)`: the text of the stage loop's blocks and
   * their number; the cache ends as the loop leaves it.
   */
  method EmitStageBlocks(rows: seq<Row>, cache: IdCache) returns (ttl: string, count: nat)
    modifies cache
    ensures var run := StageRun(StageTable(rows), old(cache.mappings), cache.uuid5);
      ttl == Render(run.out) && count == |run.out| && cache.mappings == run.ids
  {
    ghost var m0 := cache.mappings;
    var fs := StageTable(rows);
    count := 0;
    var seen: set<string> := {};
    var out: seq<Block> := [];
    var i := 0;
    while i < |rows|
      invariant 0 <= i <= |rows|
      invariant StageRun(fs[..i], m0, cache.uuid5) == Emitted(out, seen, cache.mappings)
      invariant count == |out|
    {
      assert fs[..i + 1][..i] == fs[..i];
      out, seen := StageRow(fs[i], cache, out, seen);
      count := |out|;
      i := i + 1;
    }
    assert fs[..i] == fs;
    ttl := Render(out);
  }

  /** The body of the stage loop for one row. */
  method StageRow(f: StageFields, cache: IdCache, out: seq<Block>, seen: set<string>) returns (out': seq<Block>, seen': set<string>)
    modifies cache
    ensures Emitted(out', seen', cache.mappings) == StageStep(Emitted(out, seen, old(cache.mappings)), f, cache.uuid5)
  {
    out', seen' := out, seen;
    var sk := SeenKey(f.stream, f.stage);
    if !StageSkipped(f.stream, f.stage) && sk !in seen {
      seen' := seen + {sk};
      var b := CreateStageIds(f, cache);
      out' := out + [b];
    }
  }

  /**
   * The stage loop emits one block per distinct `stream:stage` key of the rows
   * it keeps, so its count is the number of those keys; it only adds cache entries.
   */
  lemma {:induction false} StageRunCount(fs: seq<StageFields>, m0: Mappings, uuid5: string -> string)
    ensures StageRun(fs, m0, uuid5).seen == StageKeys(fs)
    ensures |StageRun(fs, m0, uuid5).out| == |StageKeys(fs)|
    ensures Extends(m0, StageRun(fs, m0, uuid5).ids)
  {
    StageRunSeen(fs, m0, uuid5);
    StageRunOut(fs, m0, uuid5);
    StageRunExtends(fs, m0, uuid5);
  }

  lemma {:induction false} StageRunSeen(fs: seq<StageFields>, m0: Mappings, uuid5: string -> string)
    ensures StageRun(fs, m0, uuid5).seen == StageKeys(fs)
  {
    if fs != [] {
      StageRunSeen(fs[..|fs| - 1], m0, uuid5);
    }
  }

  lemma {:induction false} StageRunOut(fs: seq<StageFields>, m0: Mappings, uuid5: string -> string)
    ensures |StageRun(fs, m0, uuid5).out| == |StageRun(fs, m0, uuid5).seen|
  {
    if fs != [] {
      var n := |fs| - 1;
      StageRunOut(fs[..n], m0, uuid5);
      var st := StageRun(fs[..n], m0, uuid5);
      var k := SeenKey(fs[n].stream, fs[n].stage);
      if !StageSkipped(fs[n].stream, fs[n].stage) && k !in st.seen {
        AddFresh(st.seen, k);
      }
    }
  }

  lemma {:induction false} StageRunExtends(fs: seq<StageFields>, m0: Mappings, uuid5: string -> string)
    ensures Extends(m0, StageRun(fs, m0, uuid5).ids)
  {
    if fs != [] {
      StageRunExtends(fs[..|fs| - 1], m0, uuid5);
    }
  }

  /** The first row of each kept pair records the pair's Specification identifier in the cache. */
  lemma {:induction false} StageRunRecordsSpec(fs: seq<StageFields>, m0: Mappings, uuid5: string -> string, i: nat)
    requires i < |fs| && !StageSkipped(fs[i].stream, fs[i].stage) && SeenKey(fs[i].stream, fs[i].stage) !in StageKeys(fs[..i])
    ensures SpecKey(fs[i].stream, fs[i].stage) in StageRun(fs, m0, uuid5).ids
    decreases |fs|
  {
    var n := |fs| - 1;
    var st := StageRun(fs[..n], m0, uuid5);
    assert StageRun(fs, m0, uuid5) == StageStep(st, fs[n], uuid5);
    if i == n {
      StageRunCount(fs[..n], m0, uuid5);
      assert SeenKey(fs[n].stream, fs[n].stage) !in st.seen;
    } else {
      assert fs[..n][..i] == fs[..i];
      StageRunRecordsSpec(fs[..n], m0, uuid5, i);
      assert Extends(st.ids, StageRun(fs, m0, uuid5).ids);
    }
  }

  lemma StageIdsSettled(m: Mappings, f: StageFields, uuid5: string -> string, m': Mappings)
    requires Extends(StageIds(m, f, uuid5).1, m')
    ensures StageIds(m', f, uuid5) == (StageIds(m, f, uuid5).0, m')
  {
    var pair := [f.stream, f.stage];
    var k1 := CacheKey("Stage", pair);
    var (stageId, m1) := Resolve(m, k1, FreshGupri("Stage", StageHint(f), uuid5(k1)));
    var (planId, m2) := Plain(m1, "StagePlan", pair, uuid5);
    var (gateId, m3) := Plain(m2, "StageGate", pair, uuid5);
    assert Extends(m1, m');
    assert Extends(m2, m');
    assert Extends(m3, m');
  }

  /**
   * Re-running the stage loop from any cache that keeps every entry of the
   * first run's cache writes the same blocks and adds nothing to the cache.
   */
  lemma {:induction false} StageRunSettled(fs: seq<StageFields>, m0: Mappings, uuid5: string -> string, m': Mappings)
    requires Extends(StageRun(fs, m0, uuid5).ids, m')
    ensures StageRun(fs, m', uuid5) == Emitted(StageRun(fs, m0, uuid5).out, StageRun(fs, m0, uuid5).seen, m')
  {
    if fs != [] {
      var n := |fs| - 1;
      var st := StageRun(fs[..n], m0, uuid5);
      assert Extends(st.ids, m');
      StageRunSettled(fs[..n], m0, uuid5, m');
      var f := fs[n];
      if !StageSkipped(f.stream, f.stage) && SeenKey(f.stream, f.stage) !in st.seen {
        StageIdsSettled(st.ids, f, uuid5, m');
      }
    }
  }

  // ---------------------------------------------------------------------
  // emit_deliverable_blocks_gupri
  // ---------------------------------------------------------------------

  /** The cells a deliverable block emits; the Owner cell is read by the source but never used. */
  datatype DeliverableFields = DeliverableFields(
    stream: string, stage: string, deliverable: string, desc: string,
    explanation: string, category: string, planDate: string, actualDate: string, comments: string)

  function DeliverableFieldsOf(row: Row): DeliverableFields {
    DeliverableFields(
      GetValueGupri(row, ValueStream), GetValueGupri(row, StageGate), GetValueGupri(row, Deliverable),
      GetValueGupri(row, StageGateDescription), GetValueGupri(row, Explanation),
      GetValueGupri(row, Category), GetValueGupri(row, PlanDate), GetValueGupri(row, ActualDate),
      GetValueGupri(row, CommentsReference))
  }

  function DeliverableTable(rows: seq<Row>): (ds: seq<DeliverableFields>)
    ensures |ds| == |rows| && forall i :: 0 <= i < |rows| ==> ds[i] == DeliverableFieldsOf(rows[i])
  {
    seq(|rows|, i requires 0 <= i < |rows| => DeliverableFieldsOf(rows[i]))
  }

  function SpecDecl(specId: string, stageLabel: string): string {
    specId + " a ex:Specification ;\n"
    + "    rdfs:label " + Lit("Specification for " + stageLabel) + " .\n"
  }

  /** An optional `property literal ;` line, present only for a non-empty value. */
  function OptLine(property: string, value: string): string {
    if value != "" then "    " + property + " " + Lit(value) + " ;\n" else ""
  }

  function QaLegacy(d: DeliverableFields): string {
    LegacyAlias("CQA", Slug.StreamId(d.stream) + "-" + Slug.DashSlug(d.stage) + "-" + Take(Slug.DashSlug(d.deliverable), 64))
  }

  function QaHint(d: DeliverableFields): string {
    Take(Slug.DashSlug(d.deliverable), 30)
  }

  /** The text of one deliverable block. Dates are plain string literals like every other value. */
  function QaBlock(d: DeliverableFields, qaId: string): string {
    var cd := CommentText(d.deliverable);
    var legacy := QaLegacy(d);
    "\n# Deliverable: " + Take(cd, 50) + (if |cd| > 50 then "..." else "") + "\n"
    + qaId + " a ex:QualityAttribute ;\n"
    + "    rdfs:label " + Lit(d.deliverable) + " ;\n"
    + OptLine("rdfs:comment", d.explanation)
    + OptLine("ex:hasCategory", d.category)
    + OptLine("ex:plannedDate", d.planDate)
    + OptLine("ex:actualDate", d.actualDate)
    + OptLine("ex:reference", d.comments)
    + "    owl:sameAs " + legacy + " .\n"
    + legacy + " owl:sameAs " + qaId + " .\n"
  }

  predicate HasPair(d: DeliverableFields) { d.stage != "" && d.stream != "" }

  /** The first part of a row with a pair: look up the Specification and declare it the first time. */
  function DeclareSpec(st: Emitted, d: DeliverableFields, uuid5: string -> string): (r: Emitted)
    ensures r.seen == st.seen + {SeenKey(d.stream, d.stage)}
    ensures |r.out| == |st.out| + (if SeenKey(d.stream, d.stage) !in st.seen then 1 else 0)
    ensures Extends(st.ids, r.ids)
  {
    var (specId, m1) := Plain(st.ids, "Specification", [d.stream, d.stage], uuid5);
    var sk := SeenKey(d.stream, d.stage);
    if sk in st.seen then Emitted(st.out, st.seen, m1)
    else Emitted(st.out + [SpecOut(specId, StageTitle(d.desc, d.stage))], st.seen + {sk}, m1)
  }

  /** The second part: a deliverable block when the row names a deliverable. */
  function AddQa(st: Emitted, d: DeliverableFields, uuid5: string -> string): (r: Emitted)
    ensures r.seen == st.seen
    ensures |r.out| == |st.out| + (if d.deliverable != "" then 1 else 0)
    ensures Extends(st.ids, r.ids)
  {
    if d.deliverable == "" then st
    else
      var qk := CacheKey("QualityAttribute", [d.stream, d.stage, d.deliverable]);
      var (qaId, m2) := Resolve(st.ids, qk, FreshGupri("QualityAttribute", QaHint(d), uuid5(qk)));
      Emitted(st.out + [QaOut(d, qaId)], st.seen, m2)
  }

  /** Rows with a pair produce a Specification declaration (first time) and, with a deliverable, a block. */
  function DeliverableStep(st: Emitted, d: DeliverableFields, uuid5: string -> string): (r: Emitted)
    ensures r.seen == st.seen + (if HasPair(d) then {SeenKey(d.stream, d.stage)} else {})
    ensures |r.out| == |st.out| + (if HasPair(d) && SeenKey(d.stream, d.stage) !in st.seen then 1 else 0)
                                + (if HasPair(d) && d.deliverable != "" then 1 else 0)
    ensures Extends(st.ids, r.ids)
  {
    if HasPair(d) then AddQa(DeclareSpec(st, d, uuid5), d, uuid5) else st
  }

  function DeliverableRun(ds: seq<DeliverableFields>, m0: Mappings, uuid5: string -> string): Emitted {
    if ds == [] then Emitted([], {}, m0)
    else DeliverableStep(DeliverableRun(ds[..|ds| - 1], m0, uuid5), ds[|ds| - 1], uuid5)
  }

  /** One iteration of the deliverable loop. */
  method DeliverableRow(d: DeliverableFields, cache: IdCache, out: seq<Block>, declared: set<string>)
    returns (out': seq<Block>, declared': set<string>)
    modifies cache
    ensures Emitted(out', declared', cache.mappings)
         == DeliverableStep(Emitted(out, declared, old(cache.mappings)), d, cache.uuid5)
  {
    ghost var before := Emitted(out, declared, cache.mappings);
    out', declared' := out, declared;
    if d.stage != "" && d.stream != "" {
      var specId := cache.CreateGupri("Specification", [d.stream, d.stage], "");
      var sk := SeenKey(d.stream, d.stage);
      if sk !in declared {
        declared' := declared + {sk};
        var b := SpecOut(specId, StageTitle(d.desc, d.stage));
        out' := out + [b];
      }
      ghost var mid := Emitted(out', declared', cache.mappings);
      assert mid == DeclareSpec(before, d, cache.uuid5);
      if d.deliverable != "" {
        var qaId := cache.CreateGupri("QualityAttribute", [d.stream, d.stage, d.deliverable], QaHint(d));
        var b := QaOut(d, qaId);
        out' := out' + [b];
      }
      assert Emitted(out', declared', cache.mappings) == AddQa(mid, d, cache.uuid5);
    }
  }

  /**
   * `emit_deliverable_blocks_gupri(rows)`: the text of the deliverable loop's
   * blocks and their number; the cache ends as the loop leaves it.
   */
  method EmitDeliverableBlocks(rows: seq<Row>, cache: IdCache) returns (ttl: string, count: nat)
    modifies cache
    ensures var run := DeliverableRun(DeliverableTable(rows), old(cache.mappings), cache.uuid5);
      ttl == Render(run.out) && count == |run.out| && cache.mappings == run.ids
  {
    var out := DeliverableLoop(DeliverableTable(rows), cache);
    count := |out|;
    ttl := Render(out);
  }

  /** The loop of `emit_deliverable_blocks_gupri` over the rows' fields: the blocks in order. */
  method DeliverableLoop(ds: seq<DeliverableFields>, cache: IdCache) returns (out: seq<Block>)
    modifies cache
    ensures var run := DeliverableRun(ds, old(cache.mappings), cache.uuid5);
      out == run.out && cache.mappings == run.ids
  {
    ghost var m0 := cache.mappings;
    var declared: set<string> := {};
    out := [];
    var i := 0;
    while i < |ds|
      invariant 0 <= i <= |ds|
      invariant DeliverableRun(ds[..i], m0, cache.uuid5) == Emitted(out, declared, cache.mappings)
    {
      assert ds[..i + 1][..i] == ds[..i];
      out, declared := DeliverableRow(ds[i], cache, out, declared);
      i := i + 1;
    }
    assert ds[..i] == ds;
  }

  /** The Specification keys the deliverable loop declares. */
  function SpecKeys(ds: seq<DeliverableFields>): set<string> {
    if ds == [] then {}
    else
      var d := ds[|ds| - 1];
      SpecKeys(ds[..|ds| - 1]) + (if HasPair(d) then {SeenKey(d.stream, d.stage)} else {})
  }

  /** Rows that produce a deliverable block. */
  function DeliverableRows(ds: seq<DeliverableFields>): nat {
    if ds == [] then 0
    else
      var d := ds[|ds| - 1];
      DeliverableRows(ds[..|ds| - 1]) + (if HasPair(d) && d.deliverable != "" then 1 else 0)
  }

  /**
   * The deliverable loop declares each Specification once (whether or not its
   * stage has deliverables) and counts those declarations plus the deliverable
   * blocks; it only adds cache entries.
   */
  lemma {:induction false} DeliverableRunCount(ds: seq<DeliverableFields>, m0: Mappings, uuid5: string -> string)
    ensures DeliverableRun(ds, m0, uuid5).seen == SpecKeys(ds)
    ensures |DeliverableRun(ds, m0, uuid5).out| == |SpecKeys(ds)| + DeliverableRows(ds)
    ensures Extends(m0, DeliverableRun(ds, m0, uuid5).ids)
  {
    if ds != [] {
      DeliverableRunCount(ds[..|ds| - 1], m0, uuid5);
    }
  }

  lemma DeclareSpecSettled(st: Emitted, d: DeliverableFields, uuid5: string -> string, m': Mappings)
    requires Extends(DeclareSpec(st, d, uuid5).ids, m')
    ensures DeclareSpec(Emitted(st.out, st.seen, m'), d, uuid5)
         == Emitted(DeclareSpec(st, d, uuid5).out, DeclareSpec(st, d, uuid5).seen, m')
  {
  }

  lemma AddQaSettled(st: Emitted, d: DeliverableFields, uuid5: string -> string, m': Mappings)
    requires Extends(AddQa(st, d, uuid5).ids, m')
    ensures AddQa(Emitted(st.out, st.seen, m'), d, uuid5) == Emitted(AddQa(st, d, uuid5).out, st.seen, m')
  {
  }

  /**
   * Re-running the deliverable loop from any cache that keeps every entry of
   * the first run's cache writes the same blocks and adds nothing to the cache.
   */
  lemma {:induction false} DeliverableRunSettled(ds: seq<DeliverableFields>, m0: Mappings, uuid5: string -> string, m': Mappings)
    requires Extends(DeliverableRun(ds, m0, uuid5).ids, m')
    ensures DeliverableRun(ds, m', uuid5)
         == Emitted(DeliverableRun(ds, m0, uuid5).out, DeliverableRun(ds, m0, uuid5).seen, m')
  {
    if ds != [] {
      var n := |ds| - 1;
      var st := DeliverableRun(ds[..n], m0, uuid5);
      assert Extends(st.ids, m');
      DeliverableRunSettled(ds[..n], m0, uuid5, m');
      var d := ds[n];
      if HasPair(d) {
        var mid := DeclareSpec(st, d, uuid5);
        assert Extends(mid.ids, m');
        DeclareSpecSettled(st, d, uuid5, m');
        AddQaSettled(mid, d, uuid5, m');
      }
    }
  }

  /**
   * Run after the stage loop over the same rows, the deliverable loop keeps
   * every identifier the stage blocks printed: a stage block's
   * `ex:hasSpecification` names the Specification the deliverable loop
   * declares for the same pair.
   */
  lemma SharedSpecificationId(rows: seq<Row>, m0: Mappings, uuid5: string -> string, i: nat)
    requires i < |rows|
    requires var f := StageTable(rows)[i];
      !StageSkipped(f.stream, f.stage) && SeenKey(f.stream, f.stage) !in StageKeys(StageTable(rows)[..i])
    ensures var f := StageTable(rows)[i];
      var m1 := StageRun(StageTable(rows), m0, uuid5).ids;
      var m2 := DeliverableRun(DeliverableTable(rows), m1, uuid5).ids;
      var k := SpecKey(f.stream, f.stage);
      k in m1 && k in m2 && m2[k] == m1[k]
  {
    StageRunRecordsSpec(StageTable(rows), m0, uuid5, i);
    DeliverableRunCount(DeliverableTable(rows), StageRun(StageTable(rows), m0, uuid5).ids, uuid5);
  }

  lemma {:induction false} FirstFilledFrame(row: Row, cands: seq<string>, c: string, v: string)
    requires c !in cands
    ensures FirstFilled(row[c := v], cands) == FirstFilled(row, cands)
  {
    if cands != [] {
      FirstFilledFrame(row, cands[1..], c, v);
    }
  }

  /** A cell outside a logical column's candidates does not change that column's value. */
  lemma CellFrame(row: Row, col: Column, c: string, v: string)
    requires c !in Candidates(Current, col)
    ensures GetValueGupri(row[c := v], col) == GetValueGupri(row, col)
  {
    FirstFilledFrame(row, Candidates(Current, col), c, v);
  }

  /** Whatever an Owner column holds, a row's deliverable cells, and so its output, are the same. */
  lemma OwnerNeverEmitted(row: Row, c: string, owner: string)
    requires c in Candidates(Current, Owner)
    ensures DeliverableFieldsOf(row[c := owner]) == DeliverableFieldsOf(row)
  {
    forall col: Column | col != Owner ensures GetValueGupri(row[c := owner], col) == GetValueGupri(row, col) {
      OwnerOutside(c, col);
      CellFrame(row, col, c, owner);
    }
  }

  /** No Owner header is a candidate of another logical column. */
  lemma OwnerOutside(c: string, col: Column)
    requires c in Candidates(Current, Owner) && col != Owner
    ensures c !in Candidates(Current, col)
  {
    assert c[0] in "OU";
    if c == "Owner" {
      assert c[1] == 'w';
    } else {
      assert c[1] == 'n' && c[8] == ' ' && c[9] == '7';
    }
  }

  // ---------------------------------------------------------------------
  // main: prefixes, stage blocks, deliverable blocks, one shared cache.
  // ---------------------------------------------------------------------

  const Prefixes: string :=
    "@prefix ex:    <https://w3id.org/cmc-stagegate#> .\n"
    + "@prefix xsd:   <http://www.w3.org/2001/XMLSchema#> .\n"
    + "@prefix rdfs:  <http://www.w3.org/2000/01/rdf-schema#> .\n"
    + "@prefix prov:  <http://www.w3.org/ns/prov#> .\n"
    + "@prefix owl:   <http://www.w3.org/2002/07/owl#> .\n"

  /** The document `main` writes, with the stage and deliverable counts; the caller then saves the cache. */
  method Generate(rows: seq<Row>, cache: IdCache) returns (ttl: string, stages: nat, deliverables: nat)
    modifies cache
    ensures var s := StageRun(StageTable(rows), old(cache.mappings), cache.uuid5);
      var d := DeliverableRun(DeliverableTable(rows), s.ids, cache.uuid5);
      ttl == Prefixes + "\n" + Render(s.out) + "\n" + Render(d.out) && stages == |s.out| && deliverables == |d.out|
      && cache.mappings == d.ids
  {
    var stageTtl, delivTtl;
    stageTtl, stages := EmitStageBlocks(rows, cache);
    delivTtl, deliverables := EmitDeliverableBlocks(rows, cache);
    ttl := Prefixes + "\n" + stageTtl + "\n" + delivTtl;
  }

  /**
   * Identifiers persist: running the generator again over the same rows with
   * the cache the first run saved writes the same document and leaves that
   * cache as it was.
   */
  lemma RerunWritesSameDocument(rows: seq<Row>, m0: Mappings, uuid5: string -> string)
    ensures var s1 := StageRun(StageTable(rows), m0, uuid5);
      var d1 := DeliverableRun(DeliverableTable(rows), s1.ids, uuid5);
      var s2 := StageRun(StageTable(rows), d1.ids, uuid5);
      var d2 := DeliverableRun(DeliverableTable(rows), s2.ids, uuid5);
      s2.out == s1.out && d2.out == d1.out && d2.ids == d1.ids
  {
    var s1 := StageRun(StageTable(rows), m0, uuid5);
    var d1 := DeliverableRun(DeliverableTable(rows), s1.ids, uuid5);
    DeliverableRunCount(DeliverableTable(rows), s1.ids, uuid5);
    StageRunSettled(StageTable(rows), m0, uuid5, d1.ids);
    DeliverableRunSettled(DeliverableTable(rows), s1.ids, uuid5, d1.ids);
  }
}
