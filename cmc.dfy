/**
 * The slug-based CMC generators: scripts/etl/generate_cmc_ttl.py (the current
 * edition) and the older generate_cmc_ttl.py at the repository root (the
 * legacy edition, which has no category, date or reference columns).
 * Identifiers are slugs such as `ex:Stage-<stream>-<stage>`; nothing is cached.
 */
module Cmc {
  import opened Text
  import opened Sheet
  import Slug
  import Turtle

  /** An owner named on a row: the agent IRI and the name its label carries. */
  datatype Agent = Agent(iri: string, name: string)

  /**
   * The cells the generator reads from a row, and the identifiers its loops
   * derive from them: the stream and stage slugs, the deliverable slug cut to
   * 64 characters, and one agent per owner name.
   */
  datatype Fields = Fields(
    stream: string, stage: string, desc: string, deliverable: string, explanation: string, owner: string,
    category: string, planDate: string, actualDate: string, comments: string,
    streamId: string, stageId: string, deliverableId: string, agents: seq<Agent>)

  /** The legacy edition never reads the category, date or reference columns. */
  function FieldsOf(e: Edition, row: Row): Fields {
    var stream := GetValue(e, row, ValueStream);
    var stage := GetValue(e, row, StageGate);
    var deliverable := GetValue(e, row, Deliverable);
    var owner := GetValue(e, row, Owner);
    Fields(
      stream, stage, GetValue(e, row, StageGateDescription), deliverable, GetValue(e, row, Explanation), owner,
      if e == Current then GetValue(e, row, Category) else "",
      if e == Current then GetValue(e, row, PlanDate) else "",
      if e == Current then GetValue(e, row, ActualDate) else "",
      if e == Current then GetValue(e, row, CommentsReference) else "",
      Slug.StreamId(stream), Slug.DashSlug(stage), Take(Slug.DashSlug(deliverable), 64), Agents(OwnerParts(owner)))
  }

  /** The rows' fields, in order: what each loop reads from its row. */
  function Table(e: Edition, rows: seq<Row>): (fs: seq<Fields>)
    ensures |fs| == |rows| && forall i :: 0 <= i < |rows| ==> fs[i] == FieldsOf(e, rows[i])
  {
    seq(|rows|, i requires 0 <= i < |rows| => FieldsOf(e, rows[i]))
  }

  /** The identifiers a row's fields carry are the slugs of its cells. */
  lemma FieldsOfIds(e: Edition, row: Row)
    ensures var f := FieldsOf(e, row);
      f.streamId == Slug.StreamId(f.stream) && f.stageId == Slug.DashSlug(f.stage)
      && f.stream == GetValue(e, row, ValueStream) && f.stage == GetValue(e, row, StageGate)
  {
  }

  /** A string literal as these generators write it: the escaped value between `"`. */
  function Quoted(v: string): string { "\"" + Turtle.EscapeCmc(v) + "\"" }

  // ---------------------------------------------------------------------
  // build_stage_info
  // ---------------------------------------------------------------------

  type Info = map<(string, string), string>

  /** `(safe_id(value_stream), safe_id(stage_num))`; the stream is non-empty wherever this is used. */
  function PairOf(f: Fields): (string, string) { (f.streamId, f.stageId) }

  /** A row that can give its slug pair a description. */
  predicate Described(f: Fields) { f.stream != "" && f.stage != "" && f.desc != "" }

  function InfoStep(info: Info, f: Fields): Info {
    if f.stream == "" || f.stage == "" then info
    else if PairOf(f) !in info && f.desc != "" then info[PairOf(f) := f.desc]
    else info
  }

  function InfoRun(fs: seq<Fields>): Info {
    if fs == [] then map[] else InfoStep(InfoRun(fs[..|fs| - 1]), fs[|fs| - 1])
  }

  /** `build_stage_info(rows)`, over the rows' fields. */
  method BuildStageInfo(fs: seq<Fields>) returns (info: Info)
    ensures info == InfoRun(fs)
  {
    info := map[];
    var i := 0;
    while i < |fs|
      invariant 0 <= i <= |fs| && info == InfoRun(fs[..i])
    {
      assert fs[..i + 1][..i] == fs[..i];
      assert InfoRun(fs[..i + 1]) == InfoStep(info, fs[i]);
      var f := fs[i];
      if f.stream != "" && f.stage != "" {
        var key := PairOf(f);
        if key !in info && f.desc != "" {
          info := info[key := f.desc];
        }
      }
      i := i + 1;
    }
    assert fs[..i] == fs;
  }

  /** Some row of `fs` is described and has slug pair `k`. */
  predicate Contributes(fs: seq<Fields>, k: (string, string)) {
    fs != [] && (Contributes(fs[..|fs| - 1], k) || (Described(fs[|fs| - 1]) && PairOf(fs[|fs| - 1]) == k))
  }

  /** A slug pair has a description exactly when some described row has that pair. */
  lemma {:induction false} InfoKeysFromRows(fs: seq<Fields>, k: (string, string))
    ensures k in InfoRun(fs) <==> Contributes(fs, k)
  {
    if fs != [] {
      InfoKeysFromRows(fs[..|fs| - 1], k);
    }
  }

  /** An entry, once made, is never overwritten by later rows. */
  lemma {:induction false} InfoNeverOverwritten(fs: seq<Fields>, j: nat)
    requires j <= |fs|
    ensures forall k :: k in InfoRun(fs[..j]) ==> k in InfoRun(fs) && InfoRun(fs)[k] == InfoRun(fs[..j])[k]
    decreases |fs| - j
  {
    if j < |fs| {
      InfoNeverOverwritten(fs, j + 1);
      assert fs[..j + 1][..j] == fs[..j];
    } else {
      assert fs[..j] == fs;
    }
  }

  lemma InfoStepAdds(info: Info, f: Fields)
    requires Described(f) && PairOf(f) !in info
    ensures PairOf(f) in InfoStep(info, f) && InfoStep(info, f)[PairOf(f)] == f.desc
  {
  }

  /** The first described row of a slug pair gives that pair its description. */
  lemma InfoFirstDescriptionWins(fs: seq<Fields>, i: nat)
    requires i < |fs| && Described(fs[i]) && !Contributes(fs[..i], PairOf(fs[i]))
    ensures PairOf(fs[i]) in InfoRun(fs) && InfoRun(fs)[PairOf(fs[i])] == fs[i].desc
  {
    var f := fs[i];
    var k := PairOf(f);
    var pre := fs[..i];
    var post := fs[..i + 1];
    InfoKeysFromRows(pre, k);
    assert post[..i] == pre && post[i] == f;
    var m := InfoRun(pre);
    assert InfoRun(post) == InfoStep(m, f);
    InfoStepAdds(m, f);
    assert k in InfoRun(post) && InfoRun(post)[k] == f.desc;
    InfoNeverOverwritten(fs, i + 1);
  }

  // ---------------------------------------------------------------------
  // emit_stage_blocks
  // ---------------------------------------------------------------------

  function StageIri(kind: string, streamId: string, stageId: string): string {
    "ex:" + kind + "-" + streamId + "-" + stageId
  }

  /** One stage block: the slugs of the raw pair it was emitted for, and its label. */
  datatype StageBlock = StageBlock(streamId: string, stageId: string, title: string)

  function StageText(b: StageBlock): string {
    var s := StageIri("Stage", b.streamId, b.stageId);
    var p := StageIri("Plan", b.streamId, b.stageId);
    var g := StageIri("Gate", b.streamId, b.stageId);
    var sp := StageIri("Spec", b.streamId, b.stageId);
    s + " a ex:Stage ; rdfs:label " + Quoted(b.title) + " ; ex:hasPlan " + p + " ; ex:hasGate " + g + " .\n"
    + s + " ex:hasSpecification " + sp + " .\n"
    + p + " a ex:StagePlan ; rdfs:label \"Plan for " + Turtle.EscapeCmc(b.title) + "\" .\n"
    + g + " a ex:StageGate ; rdfs:label \"Gate for " + Turtle.EscapeCmc(b.title) + "\" .\n"
  }

  function RenderStages(bs: seq<StageBlock>): string {
    if bs == [] then "" else RenderStages(bs[..|bs| - 1]) + StageText(bs[|bs| - 1])
  }

  datatype StageState = StageState(out: seq<StageBlock>, seen: set<(string, string)>)

  /** De-duplication is on the raw `(stream, stage)` pair, not on its slugs. */
  function StageStep(st: StageState, f: Fields): (r: StageState)
    ensures r.seen == st.seen + (if StageSkipped(f.stream, f.stage) then {} else {(f.stream, f.stage)})
    ensures |r.out| == |st.out| + (if StageSkipped(f.stream, f.stage) || (f.stream, f.stage) in st.seen then 0 else 1)
  {
    if StageSkipped(f.stream, f.stage) || (f.stream, f.stage) in st.seen then st
    else StageState(st.out + [StageBlock(f.streamId, f.stageId, StageTitle(f.desc, f.stage))], st.seen + {(f.stream, f.stage)})
  }

  function StageRun(fs: seq<Fields>): StageState {
    if fs == [] then StageState([], {}) else StageStep(StageRun(fs[..|fs| - 1]), fs[|fs| - 1])
  }

  /** The raw pairs of the rows the stage loop keeps. */
  function RawPairs(fs: seq<Fields>): set<(string, string)> {
    if fs == [] then {}
    else
      var f := fs[|fs| - 1];
      RawPairs(fs[..|fs| - 1]) + (if StageSkipped(f.stream, f.stage) then {} else {(f.stream, f.stage)})
  }

  /** `emit_stage_blocks(rows)`, over the rows' fields: the joined blocks and their number. */
  method EmitStageBlocks(fs: seq<Fields>) returns (ttl: string, count: nat)
    ensures ttl == RenderStages(StageRun(fs).out) && count == |StageRun(fs).out|
  {
    var out: seq<StageBlock> := [];
    var seen: set<(string, string)> := {};
    count := 0;
    var i := 0;
    while i < |fs|
      invariant 0 <= i <= |fs|
      invariant StageRun(fs[..i]) == StageState(out, seen) && count == |out|
    {
      assert fs[..i + 1][..i] == fs[..i];
      var f := fs[i];
      if !StageSkipped(f.stream, f.stage) && (f.stream, f.stage) !in seen {
        seen := seen + {(f.stream, f.stage)};
        count := count + 1;
        out := out + [StageBlock(f.streamId, f.stageId, StageTitle(f.desc, f.stage))];
      }
      i := i + 1;
    }
    assert fs[..i] == fs;
    ttl := RenderStages(out);
  }

  /** One block per distinct raw pair among the kept rows. */
  lemma {:induction false} StageRunCount(fs: seq<Fields>)
    ensures StageRun(fs).seen == RawPairs(fs) && |StageRun(fs).out| == |RawPairs(fs)|
  {
    if fs != [] {
      var n := |fs| - 1;
      StageRunCount(fs[..n]);
      var f := fs[n];
      if StageSkipped(f.stream, f.stage) || (f.stream, f.stage) in StageRun(fs[..n]).seen {
        assert RawPairs(fs) == RawPairs(fs[..n]);
      } else {
        assert RawPairs(fs) == RawPairs(fs[..n]) + {(f.stream, f.stage)};
      }
    }
  }

  /**
   * Two rows whose streams differ only in case both get a stage block, and
   * both blocks declare the same stage IRI.
   */
  lemma CaseVariantsShareIri(e: Edition, r1: Row, r2: Row)
    requires GetValue(e, r1, ValueStream) == "CGT" && GetValue(e, r2, ValueStream) == "cgt"
    requires GetValue(e, r1, StageGate) == "0" && GetValue(e, r2, StageGate) == "0"
    ensures var run := StageRun([FieldsOf(e, r1), FieldsOf(e, r2)]);
      |run.out| == 2 && run.out[0].streamId == run.out[1].streamId && run.out[0].stageId == run.out[1].stageId
  {
    var f1, f2 := FieldsOf(e, r1), FieldsOf(e, r2);
    FieldsOfIds(e, r1);
    FieldsOfIds(e, r2);
    CaseInsensitiveStreamId();
    CaseVariantsKept();
    TwoPairs(f1, f2);
  }

  /** Two kept rows with different raw pairs get one block each, in order. */
  lemma TwoPairs(f1: Fields, f2: Fields)
    requires !StageSkipped(f1.stream, f1.stage) && !StageSkipped(f2.stream, f2.stage)
    requires (f1.stream, f1.stage) != (f2.stream, f2.stage)
    ensures var out := StageRun([f1, f2]).out;
      |out| == 2 && out[0].streamId == f1.streamId && out[1].streamId == f2.streamId
      && out[0].stageId == f1.stageId && out[1].stageId == f2.stageId
  {
    var fs := [f1, f2];
    assert fs[..1] == [f1] && [f1][..0] == [];
    var st1 := StageRun([f1]);
    assert StageRun([f1][..0]) == StageState([], {});
    assert st1 == StageStep(StageState([], {}), f1);
    assert st1.out == [StageBlock(f1.streamId, f1.stageId, StageTitle(f1.desc, f1.stage))];
    assert StageRun(fs) == StageStep(st1, f2);
  }

  lemma CaseInsensitiveStreamId()
    ensures Slug.StreamId("CGT") == Slug.StreamId("cgt")
  {
    DashSlugCaseVariants();
    assert "CGT" != [] && "cgt" != [];
  }

  lemma CaseVariantsKept()
    ensures "CGT" != "cgt" && !StageSkipped("CGT", "0") && !StageSkipped("cgt", "0")
  {
    assert "CGT"[0] != "cgt"[0];
    assert "CGT"[0] != "Value Stream"[0] && "cgt"[0] != "Value Stream"[0];
  }

  lemma DashSlugCaseVariants()
    ensures Slug.DashSlug("CGT") == Slug.DashSlug("cgt")
  {
    LowerStripEqual();
  }

  lemma LowerStripEqual()
    ensures Lower(Strip("CGT")) == Lower(Strip("cgt"))
  {
    StripNoop("CGT");
    StripNoop("cgt");
    assert Lower("CGT") == "cgt";
    assert Lower("cgt") == "cgt";
  }

  lemma StripNoop(s: string)
    requires s != [] && !IsSpace(s[0]) && !IsSpace(s[|s| - 1])
    ensures Strip(s) == s
  {
    TrimNoop(s, IsSpace);
  }

  // ---------------------------------------------------------------------
  // emit_specs_and_deliverables
  // ---------------------------------------------------------------------

  function SpecIri(f: Fields): string { StageIri("Spec", f.streamId, f.stageId) }

  function QaIri(f: Fields): string { "ex:CQA-" + f.streamId + "-" + f.stageId + "-" + f.deliverableId }

  function AgentIri(part: string): string { "ex:Agent-" + Slug.DashSlug(part) }

  /** The stripped, non-empty pieces of a list of strings, in order. */
  function StrippedNonEmpty(ps: seq<string>): (r: seq<string>)
    ensures forall i :: 0 <= i < |r| ==> r[i] != "" && !IsSpace(r[i][0]) && !IsSpace(r[i][|r[i]| - 1])
    ensures |r| <= |ps|
  {
    if ps == [] then []
    else (if Strip(ps[0]) != "" then [Strip(ps[0])] else []) + StrippedNonEmpty(ps[1..])
  }

  /** `[p.strip() for p in owner_raw.split(",") if p.strip()]` */
  function OwnerParts(owner: string): (r: seq<string>)
    ensures |r| <= CountChar(owner, ',') + 1
    ensures forall i :: 0 <= i < |r| ==> r[i] != "" && !IsSpace(r[i][0]) && !IsSpace(r[i][|r[i]| - 1])
  {
    if owner == "" then [] else StrippedNonEmpty(Split(owner, ','))
  }

  function Agents(parts: seq<string>): (r: seq<Agent>)
    ensures |r| == |parts| && forall i :: 0 <= i < |parts| ==> r[i] == Agent(AgentIri(parts[i]), parts[i])
  {
    seq(|parts|, i requires 0 <= i < |parts| => Agent(AgentIri(parts[i]), parts[i]))
  }

  /** `agent_iris`: the IRIs of a row's agents, in order. */
  function Iris(agents: seq<Agent>): (r: seq<string>)
    ensures |r| == |agents| && forall i :: 0 <= i < |agents| ==> r[i] == agents[i].iri
  {
    seq(|agents|, i requires 0 <= i < |agents| => agents[i].iri)
  }

  /** A statement of the specification and deliverable output. */
  datatype Line =
    | SpecLine(specIri: string, stageLabel: string)
    | QaLine(e: Edition, f: Fields, agentIris: seq<string>)
    | AgentLine(agentIri: string, name: string)
    | LinkLine(specIri: string, qaIri: string)

  /** The `" ; "`-separated parts of a QA statement; optional parts only for non-empty cells. */
  function QaParts(e: Edition, f: Fields, agentIris: seq<string>): seq<string> {
    [QaIri(f) + " a ex:QualityAttribute", "rdfs:label " + Quoted(f.deliverable)]
    + (if f.explanation != "" then ["rdfs:comment " + Quoted(f.explanation)] else [])
    + (if e == Current && f.category != "" then ["ex:hasCategory " + Quoted(f.category)] else [])
    + (if e == Current && f.planDate != "" then ["ex:plannedDate " + Quoted(f.planDate)] else [])
    + (if e == Current && f.actualDate != "" then ["ex:actualDate " + Quoted(f.actualDate)] else [])
    + (if e == Current && f.comments != "" then ["ex:reference " + Quoted(f.comments)] else [])
    + (if agentIris != [] then ["prov:wasAttributedTo " + Join(", ", agentIris)] else [])
  }

  function LineText(l: Line): string {
    match l
    case SpecLine(specIri, stageLabel) =>
      specIri + " a ex:Specification ; rdfs:label \"Specification for " + Turtle.EscapeCmc(stageLabel) + "\" .\n"
    case QaLine(e, f, agentIris) => Join(" ; ", QaParts(e, f, agentIris)) + " .\n"
    case AgentLine(agentIri, name) => agentIri + " a prov:Agent ; rdfs:label " + Quoted(name) + " .\n"
    case LinkLine(specIri, qaIri) => specIri + " ex:hasCQA " + qaIri + " .\n"
  }

  function RenderLines(ls: seq<Line>): string {
    if ls == [] then "" else RenderLines(ls[..|ls| - 1]) + LineText(ls[|ls| - 1])
  }

  datatype SpecState = SpecState(out: seq<Line>, specs: set<string>, agents: set<string>)

  /** The IRIs of a list of agents, as a set. */
  function AgentSet(agents: seq<Agent>): set<string> {
    if agents == [] then {} else AgentSet(agents[..|agents| - 1]) + {agents[|agents| - 1].iri}
  }

  /** The agent loop after a QA statement: declare each agent IRI not declared before. */
  function DeclareAgents(st: SpecState, agents: seq<Agent>): (r: SpecState)
    ensures r.specs == st.specs && r.agents == st.agents + AgentSet(agents)
    ensures |r.out| + |st.agents| == |st.out| + |r.agents|
    ensures st.out <= r.out
  {
    if agents == [] then st
    else
      var r := DeclareAgents(st, agents[..|agents| - 1]);
      var a := agents[|agents| - 1];
      if a.iri in r.agents then r
      else SpecState(r.out + [AgentLine(a.iri, a.name)], r.specs, r.agents + {a.iri})
  }

  /** The Specification part of a row with a pair: declared the first time its IRI is seen. */
  function DeclareSpec(st: SpecState, info: Info, f: Fields): (r: SpecState)
    ensures r.specs == st.specs + {SpecIri(f)} && r.agents == st.agents
    ensures |r.out| == |st.out| + (if SpecIri(f) in st.specs then 0 else 1)
    ensures |r.specs| == |st.specs| + (if SpecIri(f) in st.specs then 0 else 1)
    ensures st.out <= r.out
  {
    var spec := SpecIri(f);
    if spec in st.specs then st
    else
      var stageLabel := if PairOf(f) in info then info[PairOf(f)] else "Stage " + f.stage;
      SpecState(st.out + [SpecLine(spec, stageLabel)], st.specs + {spec}, st.agents)
  }

  /** The deliverable part: the QA statement, any new agents, then the link to the Specification. */
  function AddDeliverable(st: SpecState, e: Edition, f: Fields): (r: SpecState)
    ensures r.specs == st.specs && r.agents == st.agents + AgentSet(f.agents)
    ensures |r.out| + |st.agents| == |st.out| + 2 + |r.agents|
    ensures st.out <= r.out
  {
    var st2 := SpecState(st.out + [QaLine(e, f, Iris(f.agents))], st.specs, st.agents);
    var st3 := DeclareAgents(st2, f.agents);
    SpecState(st3.out + [LinkLine(SpecIri(f), QaIri(f))], st3.specs, st3.agents)
  }

  predicate HasPair(f: Fields) { f.stage != "" && f.stream != "" }

  function SpecStep(st: SpecState, e: Edition, info: Info, f: Fields): SpecState {
    if !HasPair(f) then st
    else
      var st1 := DeclareSpec(st, info, f);
      if f.deliverable == "" then st1 else AddDeliverable(st1, e, f)
  }

  function SpecRun(e: Edition, info: Info, fs: seq<Fields>): SpecState {
    if fs == [] then SpecState([], {}, {}) else SpecStep(SpecRun(e, info, fs[..|fs| - 1]), e, info, fs[|fs| - 1])
  }

  /**
   * `emit_specs_and_deliverables(rows, stage_info)`, over the rows' fields:
   * the joined lines and the number of statements written.
   */
  method EmitSpecsAndDeliverables(e: Edition, fs: seq<Fields>, info: Info) returns (ttl: string, count: nat)
    ensures ttl == RenderLines(SpecRun(e, info, fs).out) && count == |SpecRun(e, info, fs).out|
  {
    var st := SpecState([], {}, {});
    count := 0;
    var i := 0;
    while i < |fs|
      invariant 0 <= i <= |fs|
      invariant st == SpecRun(e, info, fs[..i]) && count == |st.out|
    {
      assert fs[..i + 1][..i] == fs[..i];
      var f := fs[i];
      if f.stage != "" && f.stream != "" {
        st := EmitSpec(st, info, f);
        count := |st.out|;
        if f.deliverable != "" {
          st := EmitDeliverable(st, e, f);
          count := |st.out|;
        }
      }
      i := i + 1;
    }
    assert fs[..i] == fs;
    ttl := RenderLines(st.out);
  }

  /** The Specification part of one row, as the loop body does it. */
  method EmitSpec(st: SpecState, info: Info, f: Fields) returns (r: SpecState)
    ensures r == DeclareSpec(st, info, f)
  {
    var spec := SpecIri(f);
    r := st;
    if spec !in st.specs {
      var stageLabel := if PairOf(f) in info then info[PairOf(f)] else "Stage " + f.stage;
      r := SpecState(st.out + [SpecLine(spec, stageLabel)], st.specs + {spec}, st.agents);
    }
  }

  /** The deliverable part of one row: the agent IRI list, the QA statement, the agent loop, the link. */
  method EmitDeliverable(st: SpecState, e: Edition, f: Fields) returns (r: SpecState)
    ensures r == AddDeliverable(st, e, f)
  {
    var agentIris: seq<string> := [];
    var j := 0;
    while j < |f.agents|
      invariant 0 <= j <= |f.agents| && agentIris == Iris(f.agents)[..j]
    {
      agentIris := agentIris + [f.agents[j].iri];
      j := j + 1;
    }
    assert Iris(f.agents)[..j] == Iris(f.agents);
    var st2 := SpecState(st.out + [QaLine(e, f, agentIris)], st.specs, st.agents);
    var st3 := EmitAgents(st2, f.agents);
    r := SpecState(st3.out + [LinkLine(SpecIri(f), QaIri(f))], st3.specs, st3.agents);
  }

  /** The loop over a row's owners, declaring each agent not yet declared. */
  method EmitAgents(st: SpecState, agents: seq<Agent>) returns (r: SpecState)
    ensures r == DeclareAgents(st, agents)
  {
    var out := st.out;
    var declared := st.agents;
    var j := 0;
    while j < |agents|
      invariant 0 <= j <= |agents|
      invariant DeclareAgents(st, agents[..j]) == SpecState(out, st.specs, declared)
    {
      assert agents[..j + 1][..j] == agents[..j];
      var a := agents[j];
      if a.iri !in declared {
        declared := declared + {a.iri};
        out := out + [AgentLine(a.iri, a.name)];
      }
      j := j + 1;
    }
    assert agents[..j] == agents;
    r := SpecState(out, st.specs, declared);
  }

  /** The Specification IRIs of the rows with a pair. */
  function SpecIris(fs: seq<Fields>): set<string> {
    if fs == [] then {}
    else SpecIris(fs[..|fs| - 1]) + (if HasPair(fs[|fs| - 1]) then {SpecIri(fs[|fs| - 1])} else {})
  }

  /** The agent IRIs named by rows that produce a QA statement. */
  function AgentIrisOf(fs: seq<Fields>): set<string> {
    if fs == [] then {}
    else
      var f := fs[|fs| - 1];
      AgentIrisOf(fs[..|fs| - 1]) + (if HasPair(f) && f.deliverable != "" then AgentSet(f.agents) else {})
  }

  /** Rows that produce a QA statement (and one hasCQA link). */
  function QaRows(fs: seq<Fields>): nat {
    if fs == [] then 0
    else QaRows(fs[..|fs| - 1]) + (if HasPair(fs[|fs| - 1]) && fs[|fs| - 1].deliverable != "" then 1 else 0)
  }

  /**
   * The count is the distinct Specification IRIs, plus one QA statement and
   * one link per deliverable row, plus the distinct agent IRIs over all rows.
   */
  lemma {:induction false} SpecRunCount(e: Edition, info: Info, fs: seq<Fields>)
    ensures SpecRun(e, info, fs).specs == SpecIris(fs)
    ensures SpecRun(e, info, fs).agents == AgentIrisOf(fs)
    ensures |SpecRun(e, info, fs).out| == |SpecIris(fs)| + 2 * QaRows(fs) + |AgentIrisOf(fs)|
  {
    if fs != [] {
      var n := |fs| - 1;
      SpecRunCount(e, info, fs[..n]);
      SpecStepCount(SpecRun(e, info, fs[..n]), e, info, fs[n]);
    }
  }

  lemma SpecStepCount(st: SpecState, e: Edition, info: Info, f: Fields)
    ensures var r := SpecStep(st, e, info, f);
      r.specs == st.specs + (if HasPair(f) then {SpecIri(f)} else {})
      && r.agents == st.agents + (if HasPair(f) && f.deliverable != "" then AgentSet(f.agents) else {})
      && |r.out| + |st.specs| + |st.agents|
         == |st.out| + |r.specs| + (if HasPair(f) && f.deliverable != "" then 2 else 0) + |r.agents|
  {
    if HasPair(f) && f.deliverable != "" {
      QaStepCount(st, e, info, f);
    } else {
      PlainStepCount(st, e, info, f);
    }
  }

  /** A row without a deliverable declares at most its Specification. */
  lemma PlainStepCount(st: SpecState, e: Edition, info: Info, f: Fields)
    requires !(HasPair(f) && f.deliverable != "")
    ensures var r := SpecStep(st, e, info, f);
      r.specs == st.specs + (if HasPair(f) then {SpecIri(f)} else {}) && r.agents == st.agents
      && |r.out| + |st.specs| == |st.out| + |r.specs|
  {
    if HasPair(f) {
      assert SpecStep(st, e, info, f) == DeclareSpec(st, info, f);
    }
  }

  /** A row with a stage and a deliverable: its Specification, the QA line, its agents and the link. */
  lemma QaStepCount(st: SpecState, e: Edition, info: Info, f: Fields)
    requires HasPair(f) && f.deliverable != ""
    ensures var r := SpecStep(st, e, info, f);
      r.specs == st.specs + {SpecIri(f)} && r.agents == st.agents + AgentSet(f.agents)
      && |r.out| + |st.specs| + |st.agents| == |st.out| + |r.specs| + 2 + |r.agents|
  {
    var st1 := DeclareSpec(st, info, f);
    assert SpecStep(st, e, info, f) == AddDeliverable(st1, e, f);
  }

  /** Each Specification IRI and each agent IRI is declared by at most one line. */
  predicate DeclaredOnce(st: SpecState) {
    (forall i :: 0 <= i < |st.out| && st.out[i].SpecLine? ==> st.out[i].specIri in st.specs)
    && (forall i :: 0 <= i < |st.out| && st.out[i].AgentLine? ==> st.out[i].agentIri in st.agents)
    && (forall i, j :: 0 <= i < j < |st.out| && st.out[i].SpecLine? && st.out[j].SpecLine? ==>
          st.out[i].specIri != st.out[j].specIri)
    && (forall i, j :: 0 <= i < j < |st.out| && st.out[i].AgentLine? && st.out[j].AgentLine? ==>
          st.out[i].agentIri != st.out[j].agentIri)
  }

  /** Appending a line keeps DeclaredOnce when a declaring line names an IRI not declared before. */
  lemma AppendOnce(st: SpecState, l: Line, specs: set<string>, agents: set<string>)
    requires DeclaredOnce(st) && st.specs <= specs && st.agents <= agents
    requires l.SpecLine? ==> l.specIri in specs && l.specIri !in st.specs
    requires l.AgentLine? ==> l.agentIri in agents && l.agentIri !in st.agents
    ensures DeclaredOnce(SpecState(st.out + [l], specs, agents))
  {
    var out := st.out + [l];
    assert forall i :: 0 <= i < |st.out| ==> out[i] == st.out[i];
    assert out[|st.out|] == l;
  }

  lemma {:induction false} DeclareAgentsOnce(st: SpecState, agents: seq<Agent>)
    requires DeclaredOnce(st)
    ensures DeclaredOnce(DeclareAgents(st, agents))
  {
    if agents != [] {
      var n := |agents| - 1;
      DeclareAgentsOnce(st, agents[..n]);
      var r := DeclareAgents(st, agents[..n]);
      var a := agents[n];
      if a.iri !in r.agents {
        AppendOnce(r, AgentLine(a.iri, a.name), r.specs, r.agents + {a.iri});
      }
    }
  }

  lemma SpecStepOnce(st: SpecState, e: Edition, info: Info, f: Fields)
    requires DeclaredOnce(st)
    ensures DeclaredOnce(SpecStep(st, e, info, f))
  {
    if HasPair(f) {
      var st1 := DeclareSpec(st, info, f);
      if SpecIri(f) !in st.specs {
        AppendOnce(st, st1.out[|st.out|], st1.specs, st1.agents);
        assert st1.out == st.out + [st1.out[|st.out|]];
      }
      if f.deliverable != "" {
        var l := QaLine(e, f, Iris(f.agents));
        AppendOnce(st1, l, st1.specs, st1.agents);
        var st2 := SpecState(st1.out + [l], st1.specs, st1.agents);
        DeclareAgentsOnce(st2, f.agents);
        var st3 := DeclareAgents(st2, f.agents);
        AppendOnce(st3, LinkLine(SpecIri(f), QaIri(f)), st3.specs, st3.agents);
      }
    }
  }

  /** No Specification and no agent is declared twice, however many rows name it. */
  lemma {:induction false} SpecRunDeclaresOnce(e: Edition, info: Info, fs: seq<Fields>)
    ensures DeclaredOnce(SpecRun(e, info, fs))
  {
    if fs != [] {
      SpecRunDeclaresOnce(e, info, fs[..|fs| - 1]);
      SpecStepOnce(SpecRun(e, info, fs[..|fs| - 1]), e, info, fs[|fs| - 1]);
    }
  }

  // ---------------------------------------------------------------------
  // main
  // ---------------------------------------------------------------------

  const Prefixes: string :=
    "@prefix ex:    <https://w3id.org/cmc-stagegate#> .\n"
    + "@prefix xsd:   <http://www.w3.org/2001/XMLSchema#> .\n"
    + "@prefix rdfs:  <http://www.w3.org/2000/01/rdf-schema#> .\n"
    + "@prefix prov:  <http://www.w3.org/ns/prov#> .\n"

  /** The document `main` writes from the normalised rows, with its two counts. */
  method Generate(e: Edition, rows: seq<Row>) returns (ttl: string, stages: nat, statements: nat)
    ensures var info := InfoRun(Table(e, rows));
      var s := StageRun(Table(e, rows));
      var d := SpecRun(e, info, Table(e, rows));
      ttl == Prefixes + "\n" + RenderStages(s.out) + "\n" + RenderLines(d.out)
      && stages == |s.out| && statements == |d.out|
  {
    var fs := Table(e, rows);
    var info := BuildStageInfo(fs);
    var stageTtl, specTtl;
    stageTtl, stages := EmitStageBlocks(fs);
    specTtl, statements := EmitSpecsAndDeliverables(e, fs, info);
    ttl := Prefixes + "\n" + stageTtl + "\n" + specTtl;
  }
}
