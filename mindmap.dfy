/**
 * The MindManager extractor (scripts/mindmap/extract_mindmap_augmented.py):
 * node classification by keyword, modality detection, stage and gate
 * numbers found by pattern search, the bookkeeping `process_topic_node`
 * does while it walks the topic tree, and the identifiers and classes the
 * augmented Turtle gives each node.
 *
 * A topic is given by the text `extract_text_from_node` finds in it (empty
 * when there is none), its `ObjectId` attribute, and the child topics the
 * sub-topic search selects.
 */
module MindMap {
  import opened Text
  import opened Wrappers

  // ---------------------------------------------------------------------
  // `classify_node`
  // ---------------------------------------------------------------------

  datatype NodeType =
    | StageGate | Stage | Gate | Deliverable | Milestone | QualityAttribute
    | Process | Formulation | Clinical | Regulatory | General

  /** The ordered substring tests over the lower-cased text. */
  function ClassifyLower(t: string): NodeType {
    if Contains(t, "stage") && Contains(t, "gate") then StageGate
    else if Contains(t, "stage") then Stage
    else if Contains(t, "gate") then Gate
    else if Contains(t, "deliverable") then Deliverable
    else if Contains(t, "milestone") then Milestone
    else if Contains(t, "cqa") || Contains(t, "quality") then QualityAttribute
    else if Contains(t, "process") then Process
    else if Contains(t, "formulation") then Formulation
    else if Contains(t, "clinical") then Clinical
    else if Contains(t, "regulatory") then Regulatory
    else General
  }

  function Classify(text: string): NodeType {
    ClassifyLower(Lower(text))
  }

  /** Every keyword the classification tests. */
  const TypeKeywords: seq<string> :=
    ["stage", "gate", "deliverable", "milestone", "cqa", "quality", "process", "formulation", "clinical", "regulatory"]

  /** The stage family: the text mentions a stage or a gate, and both give `stage_gate`. */
  lemma ClassifyStageFamily(text: string)
    ensures var t := Lower(text);
            (Classify(text) in {StageGate, Stage, Gate} <==> Contains(t, "stage") || Contains(t, "gate")) &&
            (Classify(text) == StageGate <==> Contains(t, "stage") && Contains(t, "gate"))
  {
  }

  /** A text is `general` exactly when it holds none of the keywords. */
  lemma ClassifyGeneral(text: string)
    ensures Classify(text) == General <==> !AnyIn(TypeKeywords, Lower(text))
  {
    var t := Lower(text);
    if Classify(text) == General {
      forall i | 0 <= i < |TypeKeywords| ensures !Contains(t, TypeKeywords[i]) { }
    } else {
      var k :| 0 <= k < |TypeKeywords| && Contains(t, TypeKeywords[k]) by {
        if Contains(t, "stage") { assert TypeKeywords[0] == "stage"; }
        else if Contains(t, "gate") { assert TypeKeywords[1] == "gate"; }
        else if Contains(t, "deliverable") { assert TypeKeywords[2] == "deliverable"; }
        else if Contains(t, "milestone") { assert TypeKeywords[3] == "milestone"; }
        else if Contains(t, "cqa") { assert TypeKeywords[4] == "cqa"; }
        else if Contains(t, "quality") { assert TypeKeywords[5] == "quality"; }
        else if Contains(t, "process") { assert TypeKeywords[6] == "process"; }
        else if Contains(t, "formulation") { assert TypeKeywords[7] == "formulation"; }
        else if Contains(t, "clinical") { assert TypeKeywords[8] == "clinical"; }
        else { assert TypeKeywords[9] == "regulatory"; }
      }
    }
  }

  /** Classification ignores case: upper- or lower-casing the text first changes nothing. */
  lemma ClassifyIgnoresCase(text: string)
    ensures Classify(Upper(text)) == Classify(text) && Classify(Lower(text)) == Classify(text)
  {
    LowerOfCased(text);
  }

  // ---------------------------------------------------------------------
  // `detect_modality`
  // ---------------------------------------------------------------------

  datatype Modality = CGT | Protein

  const CgtKeywords: seq<string> :=
    ["cgt", "cell", "gene", "therapy", "car-t", "cart", "lentivirus", "aav", "vector", "transduction"]
  const ProteinKeywords: seq<string> :=
    ["protein", "mab", "antibody", "biologic", "monoclonal", "fusion", "peptide"]

  /** The modality: a CGT keyword first, then a protein keyword, otherwise none. */
  function ModalityOf(text: string): Option<Modality> {
    var t := Lower(text);
    if AnyIn(CgtKeywords, t) then Some(CGT)
    else if AnyIn(ProteinKeywords, t) then Some(Protein)
    else None
  }

  /** `detect_modality`: the two keyword loops, each returning at its first hit. */
  method DetectModality(text: string) returns (m: Option<Modality>)
    ensures m == ModalityOf(text)
  {
    var t := Lower(text);
    for k := 0 to |CgtKeywords|
      invariant forall j :: 0 <= j < k ==> !Contains(t, CgtKeywords[j])
    {
      if Contains(t, CgtKeywords[k]) {
        return Some(CGT);
      }
    }
    for k := 0 to |ProteinKeywords|
      invariant forall j :: 0 <= j < k ==> !Contains(t, ProteinKeywords[j])
    {
      if Contains(t, ProteinKeywords[k]) {
        return Some(Protein);
      }
    }
    return None;
  }

  /** Modality ignores case, and a text naming both modalities counts as CGT. */
  lemma ModalityCases(text: string)
    ensures ModalityOf(Upper(text)) == ModalityOf(text)
    ensures AnyIn(CgtKeywords, Lower(text)) ==> ModalityOf(text) == Some(CGT)
    ensures ModalityOf(text) == None <==> !AnyIn(CgtKeywords, Lower(text)) && !AnyIn(ProteinKeywords, Lower(text))
  {
    LowerOfCased(text);
  }

  // ---------------------------------------------------------------------
  // `extract_stage_number` / `extract_gate_number`
  // ---------------------------------------------------------------------

  /**
   * A pattern `W\s*(\d+)` or `W(\d+)`: one of the words `words` (the
   * alternatives of a character class such as `[Ss]tage`), optional
   * whitespace when `spaces`, then the captured digits.
   */
  datatype Pattern = Pattern(words: seq<string>, spaces: bool)

  /** `[Ss]tage\s*(\d+)`, `S(\d+)`, `Phase\s*(\d+)` */
  const StagePatterns: seq<Pattern> :=
    [Pattern(["Stage", "stage"], true), Pattern(["S"], false), Pattern(["Phase"], true)]

  /** `[Gg]ate\s*(\d+)`, `G(\d+)`, `Review\s*(\d+)` */
  const GatePatterns: seq<Pattern> :=
    [Pattern(["Gate", "gate"], true), Pattern(["G"], false), Pattern(["Review"], true)]

  /** Where the first of `words` that occurs at `i` ends. */
  function WordEnd(text: string, i: nat, words: seq<string>): (r: Option<nat>)
    ensures r.Some? ==> i <= r.value <= |text|
  {
    if words == [] then None
    else if i + |words[0]| <= |text| && text[i..i + |words[0]|] == words[0] then Some(i + |words[0]|)
    else WordEnd(text, i, words[1..])
  }

  /** The end of the whitespace run starting at `j` (`\s*`, greedy). */
  function SkipSpaces(text: string, j: nat): (r: nat)
    requires j <= |text|
    ensures j <= r <= |text| && (r == |text| || !IsSpace(text[r]))
    decreases |text| - j
  {
    if j < |text| && IsSpace(text[j]) then SkipSpaces(text, j + 1) else j
  }

  /** The digit run starting at `j` (`(\d+)`, greedy; empty when there is none). */
  function DigitsFrom(text: string, j: nat): (d: string)
    requires j <= |text|
    ensures j + |d| <= |text| && d == text[j..j + |d|]
    ensures forall k :: 0 <= k < |d| ==> IsDigit(d[k])
    decreases |text| - j
  {
    if j < |text| && IsDigit(text[j]) then [text[j]] + DigitsFrom(text, j + 1) else ""
  }

  /** The group the pattern captures when it matches at `i`. */
  function MatchAt(text: string, i: nat, p: Pattern): Option<string> {
    var e := WordEnd(text, i, p.words);
    if e.None? then None
    else
      var j := if p.spaces then SkipSpaces(text, e.value) else e.value;
      var d := DigitsFrom(text, j);
      if d == "" then None else Some(d)
  }

  /** `re.search`: the match at the leftmost position from `i` on. */
  function Search(text: string, p: Pattern, i: nat): Option<string>
    decreases |text| + 1 - i
  {
    if i > |text| then None
    else if MatchAt(text, i, p).Some? then MatchAt(text, i, p)
    else Search(text, p, i + 1)
  }

  /** A search finds the leftmost matching position, or none when no position matches. */
  lemma {:induction false} SearchLeftmost(text: string, p: Pattern, i: nat)
    ensures Search(text, p, i).None? <==> forall k :: i <= k <= |text| ==> MatchAt(text, k, p).None?
    ensures Search(text, p, i).Some? ==>
              exists k :: i <= k <= |text| && Search(text, p, i) == MatchAt(text, k, p) &&
                          forall l :: i <= l < k ==> MatchAt(text, l, p).None?
    decreases |text| + 1 - i
  {
    if i <= |text| && MatchAt(text, i, p).None? {
      SearchLeftmost(text, p, i + 1);
      if Search(text, p, i).Some? {
        var k :| i + 1 <= k <= |text| && Search(text, p, i + 1) == MatchAt(text, k, p) &&
                 forall l :: i + 1 <= l < k ==> MatchAt(text, l, p).None?;
        assert forall l :: i <= l < k ==> MatchAt(text, l, p).None?;
      }
    }
  }

  /** A captured group is a non-empty run of digits that occurs in the text. */
  lemma {:induction false} SearchDigits(text: string, p: Pattern, i: nat)
    requires Search(text, p, i).Some?
    ensures IsDigits(Search(text, p, i).value) && Contains(text, Search(text, p, i).value)
    decreases |text| + 1 - i
  {
    if MatchAt(text, i, p).Some? {
      var e := WordEnd(text, i, p.words);
      var j := if p.spaces then SkipSpaces(text, e.value) else e.value;
      ContainsAt(text, DigitsFrom(text, j), j);
    } else {
      SearchDigits(text, p, i + 1);
    }
  }

  /** The first pattern, in list order, that matches anywhere decides. */
  function FirstMatch(text: string, patterns: seq<Pattern>): Option<string> {
    if patterns == [] then None
    else if Search(text, patterns[0], 0).Some? then Search(text, patterns[0], 0)
    else FirstMatch(text, patterns[1..])
  }

  /** The loop over the pattern list of `extract_stage_number` / `extract_gate_number`. */
  method ExtractNumber(text: string, patterns: seq<Pattern>) returns (r: Option<string>)
    ensures r == FirstMatch(text, patterns)
  {
    for k := 0 to |patterns|
      invariant FirstMatch(text, patterns) == FirstMatch(text, patterns[k..])
    {
      assert patterns[k..][1..] == patterns[k + 1..];
      var m := Search(text, patterns[k], 0);
      if m.Some? {
        return m;
      }
    }
    return None;
  }

  /** A stage or gate number is always a non-empty run of digits taken from the text. */
  lemma {:induction false} FirstMatchDigits(text: string, patterns: seq<Pattern>)
    requires FirstMatch(text, patterns).Some?
    ensures IsDigits(FirstMatch(text, patterns).value) && Contains(text, FirstMatch(text, patterns).value)
  {
    if Search(text, patterns[0], 0).Some? {
      SearchDigits(text, patterns[0], 0);
    } else {
      FirstMatchDigits(text, patterns[1..]);
    }
  }

  // ---------------------------------------------------------------------
  // `process_topic_node`
  // ---------------------------------------------------------------------

  /** A topic: its `ObjectId`, its extracted text and its child topics. */
  datatype Topic = Topic(objectId: Option<string>, text: string, children: seq<Topic>)

  /** One entry of `nodes`. */
  datatype NodeData = NodeData(
    id: string, text: string, level: nat, nodeType: NodeType,
    modality: Option<Modality>, stage: Option<string>, gate: Option<string>)

  /** One `hasChild` entry of `relationships`. */
  datatype Relationship = Relationship(parent: string, child: string)

  /** The text a node is stored with: the extracted one, or a name from its position. */
  function DisplayText(text: string, level: nat, counter: nat): (r: string)
    ensures r != ""
    ensures text != "" ==> r == text
  {
    if text != "" then text else if level == 0 then "Root Node" else "Node " + NatToString(counter)
  }

  /** The types tracked in `stage_nodes`. */
  predicate Tracked(t: NodeType) {
    t == Stage || t == Gate || t == StageGate
  }

  /** The number of topics in a tree. */
  function Size(t: Topic): nat {
    1 + SizeAll(t.children)
  }

  function SizeAll(ts: seq<Topic>): nat {
    if ts == [] then 0 else SizeAll(ts[..|ts| - 1]) + Size(ts[|ts| - 1])
  }

  /**
   * The `hasChild` entries a tree adds: one for its root when `linked` (the
   * parent id is non-empty), and the children's, which are linked unless
   * the root's own id is the empty `ObjectId`.
   */
  function Links(t: Topic, linked: bool): nat {
    (if linked then 1 else 0) + LinksAll(t.children, t.objectId != Some(""))
  }

  function LinksAll(ts: seq<Topic>, linked: bool): nat {
    if ts == [] then 0 else LinksAll(ts[..|ts| - 1], linked) + Links(ts[|ts| - 1], linked)
  }

  /** No topic in the tree carries an empty `ObjectId`. */
  predicate IdsNonEmpty(t: Topic) {
    t.objectId != Some("") && AllIdsNonEmpty(t.children)
  }

  predicate AllIdsNonEmpty(ts: seq<Topic>) {
    ts == [] || (AllIdsNonEmpty(ts[..|ts| - 1]) && IdsNonEmpty(ts[|ts| - 1]))
  }

  /** With non-empty ids, a tree of n topics links all but the root: n - 1 relationships below a root. */
  lemma {:induction false} LinksCount(t: Topic, linked: bool)
    requires IdsNonEmpty(t)
    ensures Links(t, linked) == Size(t) - (if linked then 0 else 1)
    decreases t, 1
  {
    LinksAllCount(t.children);
  }

  lemma {:induction false} LinksAllCount(ts: seq<Topic>)
    requires AllIdsNonEmpty(ts)
    ensures LinksAll(ts, true) == SizeAll(ts)
    decreases ts, 0
  {
    if ts != [] {
      var n := |ts| - 1;
      LinksAllCount(ts[..n]);
      LinksCount(ts[n], true);
    }
  }

  /** The ids in `ids` whose recorded modality is `m`, in order. */
  function Pick(ids: seq<string>, ms: seq<Option<Modality>>, m: Modality): seq<string>
    requires |ids| == |ms|
  {
    if ids == [] then []
    else
      var n := |ids| - 1;
      Pick(ids[..n], ms[..n], m) + (if ms[n] == Some(m) then [ids[n]] else [])
  }

  lemma PickSnoc(ids: seq<string>, ms: seq<Option<Modality>>, m: Modality, id: string, x: Option<Modality>)
    requires |ids| == |ms|
    ensures Pick(ids + [id], ms + [x], m) == Pick(ids, ms, m) + (if x == Some(m) then [id] else [])
  {
    assert (ids + [id])[..|ids|] == ids && (ms + [x])[..|ms|] == ms;
  }

  /** The protein and CGT picks are disjoint parts of the list, counted with repetition. */
  lemma {:induction false} PickDisjoint(ids: seq<string>, ms: seq<Option<Modality>>)
    requires |ids| == |ms|
    ensures multiset(Pick(ids, ms, Protein)) + multiset(Pick(ids, ms, CGT)) <= multiset(ids)
  {
    if ids != [] {
      var n := |ids| - 1;
      PickDisjoint(ids[..n], ms[..n]);
      assert ids == ids[..n] + [ids[n]];
      assert multiset(ids) == multiset(ids[..n]) + multiset{ids[n]};
    }
  }

  /**
   * The protein and CGT lists pick the stage nodes of their modality, every
   * relationship joins stored nodes, and every stored node has a text.
   */
  ghost predicate Consistent(nodes: map<string, NodeData>, rels: seq<Relationship>, stage: seq<string>,
                             ms: seq<Option<Modality>>, protein: seq<string>, cgt: seq<string>)
  {
    |ms| == |stage| &&
    protein == Pick(stage, ms, Protein) &&
    cgt == Pick(stage, ms, CGT) &&
    (forall r :: r in rels ==> r.parent in nodes && r.child in nodes) &&
    (forall id :: id in nodes ==> nodes[id].text != "")
  }

  /** Storing a node with a text, below a stored parent or none, keeps the extractor consistent. */
  lemma RecordKeeps(nodes: map<string, NodeData>, rels: seq<Relationship>, stage: seq<string>,
                    ms: seq<Option<Modality>>, protein: seq<string>, cgt: seq<string>,
                    id: string, data: NodeData, parentId: string)
    requires Consistent(nodes, rels, stage, ms, protein, cgt)
    requires data.text != "" && (parentId != "" ==> parentId in nodes)
    ensures var t := Tracked(data.nodeType);
            Consistent(nodes[id := data],
                       rels + (if parentId != "" then [Relationship(parentId, id)] else []),
                       stage + (if t then [id] else []),
                       ms + (if t then [data.modality] else []),
                       protein + (if t && data.modality == Some(Protein) then [id] else []),
                       cgt + (if t && data.modality == Some(CGT) then [id] else []))
  {
    var nodes' := nodes[id := data];
    var rels' := rels + (if parentId != "" then [Relationship(parentId, id)] else []);
    forall r | r in rels' ensures r.parent in nodes' && r.child in nodes' {
      if r !in rels {
        assert r == Relationship(parentId, id);
      }
    }
    forall k | k in nodes' ensures nodes'[k].text != "" {
      if k != id {
        assert k in nodes;
      }
    }
    if Tracked(data.nodeType) {
      PickSnoc(stage, ms, Protein, id, data.modality);
      PickSnoc(stage, ms, CGT, id, data.modality);
    } else {
      assert stage + [] == stage && ms + [] == ms;
      assert protein + [] == protein && cgt + [] == cgt;
    }
  }

  /** What `process_topic_node` stores for one topic: its id, its node data and its parent id. */
  datatype Entry = Entry(id: string, data: NodeData, parentId: string)

  /** The extractor's collections: `nodes`, `relationships`, `stage_nodes`, `protein_nodes`, `cgt_nodes`. */
  datatype Tally = Tally(nodes: map<string, NodeData>, rels: seq<Relationship>,
                         stage: seq<string>, protein: seq<string>, cgt: seq<string>)

  /** One topic's stores: the node under its id, its tracking by type and modality, its `hasChild`. */
  function Store(s: Tally, e: Entry): Tally {
    var t := Tracked(e.data.nodeType);
    Tally(s.nodes[e.id := e.data],
          s.rels + (if e.parentId != "" then [Relationship(e.parentId, e.id)] else []),
          s.stage + (if t then [e.id] else []),
          s.protein + (if t && e.data.modality == Some(Protein) then [e.id] else []),
          s.cgt + (if t && e.data.modality == Some(CGT) then [e.id] else []))
  }

  /** The stores of the entries, in order. */
  function Apply(s: Tally, es: seq<Entry>): Tally {
    if es == [] then s else Store(Apply(s, es[..|es| - 1]), es[|es| - 1])
  }

  lemma {:induction false} ApplyConcat(s: Tally, a: seq<Entry>, b: seq<Entry>)
    ensures Apply(s, a + b) == Apply(Apply(s, a), b)
    decreases |b|
  {
    if b == [] {
      assert a + b == a;
    } else {
      var n := |b| - 1;
      assert (a + b)[..|a + b| - 1] == a + b[..n];
      assert (a + b)[|a + b| - 1] == b[n];
      ApplyConcat(s, a, b[..n]);
    }
  }

  /** How a node's data is made from its topic, id, level and counter: `Extractor.NodeOf`. */
  type NodeMaker = (Topic, string, nat, nat) -> NodeData

  /**
   * One call of `process_topic_node`: the topic, its id, its parent's id,
   * its level and the counter value after the increment.
   */
  datatype Visit = Visit(topic: Topic, id: string, parentId: string, level: nat, counter: nat)

  /**
   * The visits `process_topic_node` makes for a tree, in the order it makes
   * them: the topic first, numbered by `counter`, then each child's tree
   * below the topic's id, numbered on from `counter + 1`.
   */
  function Preorder(t: Topic, parentId: string, level: nat, counter: nat): seq<Visit> {
    var id := Extractor.IdOf(t, counter);
    [Visit(t, id, parentId, level, counter + 1)] + PreorderAll(t.children, id, level + 1, counter + 1)
  }

  function PreorderAll(ts: seq<Topic>, parentId: string, level: nat, counter: nat): seq<Visit> {
    if ts == [] then []
    else
      var n := |ts| - 1;
      PreorderAll(ts[..n], parentId, level, counter) + Preorder(ts[n], parentId, level, counter + SizeAll(ts[..n]))
  }

  /** The entry each visit stores, its data made by `mk`. */
  function Made(vs: seq<Visit>, mk: NodeMaker): (r: seq<Entry>)
    ensures |r| == |vs|
  {
    if vs == [] then []
    else
      var v := vs[|vs| - 1];
      Made(vs[..|vs| - 1], mk) + [Entry(v.id, mk(v.topic, v.id, v.level, v.counter), v.parentId)]
  }

  /** Each entry keeps its visit's id and parent id, with the data `mk` makes for it. */
  lemma {:induction false} MadeAt(vs: seq<Visit>, mk: NodeMaker, i: nat)
    requires i < |vs|
    ensures Made(vs, mk)[i] == Entry(vs[i].id, mk(vs[i].topic, vs[i].id, vs[i].level, vs[i].counter), vs[i].parentId)
    decreases |vs|
  {
    var n := |vs| - 1;
    if i < n {
      MadeAt(vs[..n], mk, i);
    }
  }

  lemma {:induction false} MadeConcat(a: seq<Visit>, b: seq<Visit>, mk: NodeMaker)
    ensures Made(a + b, mk) == Made(a, mk) + Made(b, mk)
    decreases |b|
  {
    if b == [] {
      assert a + b == a;
    } else {
      var n := |b| - 1;
      assert (a + b)[..|a + b| - 1] == a + b[..n];
      assert (a + b)[|a + b| - 1] == b[n];
      MadeConcat(a, b[..n], mk);
    }
  }

  /** A tree's entries are the topic's own entry, then its children's trees' entries. */
  lemma PreorderMade(t: Topic, parentId: string, level: nat, counter: nat, mk: NodeMaker, e: Entry)
    requires e == Entry(Extractor.IdOf(t, counter), mk(t, Extractor.IdOf(t, counter), level, counter + 1), parentId)
    ensures Made(Preorder(t, parentId, level, counter), mk)
            == [e] + Made(PreorderAll(t.children, e.id, level + 1, counter + 1), mk)
  {
    var v := Visit(t, e.id, parentId, level, counter + 1);
    MadeConcat([v], PreorderAll(t.children, e.id, level + 1, counter + 1), mk);
    assert [v][..0] == [];
  }

  /** The first `k + 1` children's entries are the first `k` children's, then child `k`'s. */
  lemma PreorderAllMade(ts: seq<Topic>, k: nat, parentId: string, level: nat, counter: nat, mk: NodeMaker)
    requires k < |ts|
    ensures Made(PreorderAll(ts[..k + 1], parentId, level, counter), mk)
            == Made(PreorderAll(ts[..k], parentId, level, counter), mk)
               + Made(Preorder(ts[k], parentId, level, counter + SizeAll(ts[..k])), mk)
  {
    assert ts[..k + 1][..k] == ts[..k];
    MadeConcat(PreorderAll(ts[..k], parentId, level, counter), Preorder(ts[k], parentId, level, counter + SizeAll(ts[..k])), mk);
  }

  /**
   * The stores of a tree are the store of the topic's own entry, then the
   * stores of its children's trees: the two steps of `process_topic_node`.
   */
  lemma TreeStores(s: Tally, t: Topic, parentId: string, level: nat, counter: nat, mk: NodeMaker)
    ensures var id := Extractor.IdOf(t, counter);
            Apply(s, Made(Preorder(t, parentId, level, counter), mk))
            == Apply(Store(s, Entry(id, mk(t, id, level, counter + 1), parentId)),
                     Made(PreorderAll(t.children, id, level + 1, counter + 1), mk))
  {
    var id := Extractor.IdOf(t, counter);
    var e := Entry(id, mk(t, id, level, counter + 1), parentId);
    PreorderMade(t, parentId, level, counter, mk, e);
    ApplyConcat(s, [e], Made(PreorderAll(t.children, id, level + 1, counter + 1), mk));
    assert [e][..0] == [];
  }

  /**
   * The stores of the first `k + 1` children's trees are those of the first
   * `k`, then those of child `k`'s tree, numbered on past the first `k`:
   * one turn of the loop over the children.
   */
  lemma ChildrenStores(s: Tally, ts: seq<Topic>, k: nat, parentId: string, level: nat, counter: nat, mk: NodeMaker)
    requires k < |ts|
    ensures Apply(s, Made(PreorderAll(ts[..k + 1], parentId, level, counter), mk))
            == Apply(Apply(s, Made(PreorderAll(ts[..k], parentId, level, counter), mk)),
                     Made(Preorder(ts[k], parentId, level, counter + SizeAll(ts[..k])), mk))
  {
    PreorderAllMade(ts, k, parentId, level, counter, mk);
    ApplyConcat(s, Made(PreorderAll(ts[..k], parentId, level, counter), mk),
                Made(Preorder(ts[k], parentId, level, counter + SizeAll(ts[..k])), mk));
  }

  /** Visit `i` hangs off the id of some earlier visit. */
  predicate EarlierParent(r: seq<Visit>, i: int)
    requires 0 <= i < |r|
  {
    exists j :: 0 <= j < i && r[j].id == r[i].parentId
  }

  /**
   * A tree gives one entry per topic; the first is the topic itself, under
   * the given parent; every later entry's parent is the id of an earlier one.
   */
  lemma {:induction false} PreorderShape(t: Topic, parentId: string, level: nat, counter: nat)
    ensures var r := Preorder(t, parentId, level, counter);
            var id := Extractor.IdOf(t, counter);
            |r| == Size(t) &&
            r[0] == Visit(t, id, parentId, level, counter + 1) &&
            forall i :: 0 < i < |r| ==> EarlierParent(r, i)
    decreases t, 1
  {
    var id := Extractor.IdOf(t, counter);
    var kids := PreorderAll(t.children, id, level + 1, counter + 1);
    PreorderAllShape(t.children, id, level + 1, counter + 1);
    LinkedCons(Visit(t, id, parentId, level, counter + 1), kids, Preorder(t, parentId, level, counter), id);
  }

  /** Every visit after the first has its parent among the earlier visits when the tail hangs off the first. */
  lemma {:induction false} LinkedCons(v: Visit, kids: seq<Visit>, r: seq<Visit>, root: string)
    requires v.id == root && r == [v] + kids
    requires forall i :: 0 <= i < |kids| ==> kids[i].parentId == root || EarlierParent(kids, i)
    ensures forall i :: 0 < i < |r| ==> EarlierParent(r, i)
  {
    forall i | 0 < i < |r| ensures EarlierParent(r, i) {
      assert r[i] == kids[i - 1];
      if kids[i - 1].parentId == root {
        assert r[0].id == r[i].parentId;
      } else {
        assert EarlierParent(kids, i - 1);
        var j :| 0 <= j < i - 1 && kids[j].id == kids[i - 1].parentId;
        assert r[j + 1].id == r[i].parentId;
      }
    }
  }

  /** Children's trees give one entry per topic; every entry's parent is the given id or that of an earlier entry. */
  lemma {:induction false} PreorderAllShape(ts: seq<Topic>, parentId: string, level: nat, counter: nat)
    ensures var r := PreorderAll(ts, parentId, level, counter);
            |r| == SizeAll(ts) &&
            forall i :: 0 <= i < |r| ==> r[i].parentId == parentId || EarlierParent(r, i)
    decreases ts, 0
  {
    if ts != [] {
      var n := |ts| - 1;
      var a := PreorderAll(ts[..n], parentId, level, counter);
      var b := Preorder(ts[n], parentId, level, counter + SizeAll(ts[..n]));
      PreorderAllShape(ts[..n], parentId, level, counter);
      PreorderShape(ts[n], parentId, level, counter + SizeAll(ts[..n]));
      LinkedConcat(a, b, parentId);
    }
  }

  /** Appending a tree hung off `root` keeps every parent either `root` or an earlier visit. */
  lemma {:induction false} LinkedConcat(a: seq<Visit>, b: seq<Visit>, root: string)
    requires forall i :: 0 <= i < |a| ==> a[i].parentId == root || EarlierParent(a, i)
    requires b != [] && b[0].parentId == root
    requires forall i :: 0 < i < |b| ==> EarlierParent(b, i)
    ensures var r := a + b;
            forall i :: 0 <= i < |r| ==> r[i].parentId == root || EarlierParent(r, i)
  {
    var r := a + b;
    forall i | 0 <= i < |r| ensures r[i].parentId == root || EarlierParent(r, i) {
      if i < |a| {
        assert r[i] == a[i];
        if r[i].parentId != root {
          assert EarlierParent(a, i);
          var j :| 0 <= j < i && a[j].id == a[i].parentId;
          assert r[j] == a[j];
        }
      } else if i > |a| {
        assert r[i] == b[i - |a|] && EarlierParent(b, i - |a|);
        var j :| 0 <= j < i - |a| && b[j].id == b[i - |a|].parentId;
        assert r[j + |a|] == b[j];
      } else {
        assert r[i] == b[0];
      }
    }
  }

  /** The `hasChild` pairs of the entries with a non-empty parent id, in order. */
  function Pairs(es: seq<Entry>): seq<Relationship> {
    if es == [] then []
    else
      var e := es[|es| - 1];
      Pairs(es[..|es| - 1]) + (if e.parentId != "" then [Relationship(e.parentId, e.id)] else [])
  }

  /** The ids of the entries whose type is tracked and, when `m` is given, whose modality is `m`. */
  function TrackedIds(es: seq<Entry>, m: Option<Modality>): seq<string> {
    if es == [] then []
    else
      var e := es[|es| - 1];
      TrackedIds(es[..|es| - 1], m)
        + (if Tracked(e.data.nodeType) && (m == None || e.data.modality == m) then [e.id] else [])
  }

  /**
   * The lists after the stores: the relationships gain one `hasChild` per
   * entry with a parent, and each tracking list the tracked ids of its
   * modality, in order.
   */
  lemma {:induction false} ApplyLists(s: Tally, es: seq<Entry>)
    ensures var r := Apply(s, es);
            r.rels == s.rels + Pairs(es) &&
            r.stage == s.stage + TrackedIds(es, None) &&
            r.protein == s.protein + TrackedIds(es, Some(Protein)) &&
            r.cgt == s.cgt + TrackedIds(es, Some(CGT))
    decreases |es|
  {
    if es != [] {
      var n := |es| - 1;
      ApplyLists(s, es[..n]);
      var q := Apply(s, es[..n]);
      assert Apply(s, es) == Store(q, es[n]);
    }
  }

  /** The ids of the entries. */
  predicate Names(es: seq<Entry>, k: string) {
    exists i :: 0 <= i < |es| && es[i].id == k
  }

  /** The node map after the stores is the old one updated by each entry, in order. */
  lemma ApplyNodesStep(s: Tally, es: seq<Entry>)
    requires es != []
    ensures Apply(s, es).nodes == Apply(s, es[..|es| - 1]).nodes[es[|es| - 1].id := es[|es| - 1].data]
  {
  }

  /** A key is stored after the stores iff it was before or some entry has it as id. */
  lemma {:induction false} ApplyKeys(s: Tally, es: seq<Entry>)
    ensures forall k :: k in Apply(s, es).nodes <==> k in s.nodes || Names(es, k)
    decreases |es|
  {
    if es != [] {
      var n := |es| - 1;
      var p := es[..n];
      ApplyKeys(s, p);
      ApplyNodesStep(s, es);
      forall k ensures Names(es, k) <==> Names(p, k) || es[n].id == k {
        if Names(p, k) {
          var i :| 0 <= i < |p| && p[i].id == k;
          assert es[i] == p[i];
        }
        if Names(es, k) {
          var i :| 0 <= i < |es| && es[i].id == k;
          if i < n { assert p[i] == es[i]; }
        }
      }
    }
  }

  /** An entry whose id no later entry reuses keeps its data: a later duplicate id overwrites. */
  lemma {:induction false} ApplyLastWins(s: Tally, es: seq<Entry>, i: nat)
    requires i < |es| && forall j :: i < j < |es| ==> es[j].id != es[i].id
    ensures es[i].id in Apply(s, es).nodes && Apply(s, es).nodes[es[i].id] == es[i].data
    decreases |es|
  {
    var n := |es| - 1;
    ApplyNodesStep(s, es);
    if i < n {
      var p := es[..n];
      assert p[i] == es[i];
      forall j | i < j < |p| ensures p[j].id != p[i].id { assert p[j] == es[j]; }
      ApplyLastWins(s, p, i);
    }
  }

  /** A key no entry names keeps its old data. */
  lemma {:induction false} ApplyUntouched(s: Tally, es: seq<Entry>, k: string)
    requires k in s.nodes && !Names(es, k)
    ensures k in Apply(s, es).nodes && Apply(s, es).nodes[k] == s.nodes[k]
    decreases |es|
  {
    if es != [] {
      var n := |es| - 1;
      var p := es[..n];
      ApplyNodesStep(s, es);
      assert es[n].id != k;
      ApplyUntouched(s, p, k);
    }
  }

  /**
   * After a tree is processed, the topic's own id is stored, and below a
   * non-empty parent the first new relationship is the topic's `hasChild`.
   */
  lemma TopicStored(s: Tally, t: Topic, parentId: string, level: nat, counter: nat, mk: NodeMaker)
    ensures var r := Apply(s, Made(Preorder(t, parentId, level, counter), mk));
            var id := Extractor.IdOf(t, counter);
            id in r.nodes &&
            (parentId != "" ==> |r.rels| > |s.rels| && r.rels[|s.rels|] == Relationship(parentId, id))
  {
    var es := Made(Preorder(t, parentId, level, counter), mk);
    PreorderShape(t, parentId, level, counter);
    MadeAt(Preorder(t, parentId, level, counter), mk, 0);
    ApplyKeys(s, es);
    assert Names(es, Extractor.IdOf(t, counter));
    if parentId != "" {
      ApplyLists(s, es);
      PairsHead(es);
    }
  }

  /** The first entry with a parent gives the first pair. */
  lemma {:induction false} PairsHead(es: seq<Entry>)
    requires es != [] && es[0].parentId != ""
    ensures Pairs(es) != [] && Pairs(es)[0] == Relationship(es[0].parentId, es[0].id)
    decreases |es|
  {
    if |es| > 1 {
      PairsHead(es[..|es| - 1]);
    }
  }

  class Extractor {
    var nodes: map<string, NodeData>
    var relationships: seq<Relationship>
    var nodeCounter: nat
    var stageNodes: seq<string>
    var proteinNodes: seq<string>
    var cgtNodes: seq<string>
    /** The modality of each entry of `stageNodes`, when the node was stored. */
    ghost var stageModalities: seq<Option<Modality>>

    /** The extractor's invariant: see `Consistent`. */
    ghost predicate Valid()
      reads this
    {
      Consistent(nodes, relationships, stageNodes, stageModalities, proteinNodes, cgtNodes)
    }

    /** The collections, as one value. */
    function Snap(): Tally
      reads this
    {
      Tally(nodes, relationships, stageNodes, proteinNodes, cgtNodes)
    }

    /** `protein_nodes` and `cgt_nodes` are disjoint parts of `stage_nodes`, counted with repetition. */
    lemma StageListsDisjoint()
      requires Valid()
      ensures multiset(proteinNodes) + multiset(cgtNodes) <= multiset(stageNodes)
    {
      PickDisjoint(stageNodes, stageModalities);
    }

    constructor()
      ensures Valid() && nodes == map[] && relationships == [] && nodeCounter == 0
      ensures stageNodes == [] && proteinNodes == [] && cgtNodes == []
    {
      nodes := map[];
      relationships := [];
      nodeCounter := 0;
      stageNodes := [];
      proteinNodes := [];
      cgtNodes := [];
      stageModalities := [];
    }

    /** The node `process_topic_node` stores for a topic before it visits the children. */
    static function NodeOf(topic: Topic, id: string, level: nat, counter: nat): NodeData {
      var text := DisplayText(topic.text, level, counter);
      NodeData(id, text, level, Classify(text), ModalityOf(text),
               FirstMatch(text, StagePatterns), FirstMatch(text, GatePatterns))
    }

    /** The id of a topic: its `ObjectId`, or `node_<counter>`. */
    static function IdOf(topic: Topic, counter: nat): (id: string)
      ensures topic.objectId != Some("") ==> id != ""
    {
      if topic.objectId.Some? then topic.objectId.value else "node_" + NatToString(counter)
    }

    /**
     * The part of `process_topic_node` before the children: the counter
     * moves on by one, the node is stored under its id, the id is tracked
     * by type and modality, and a non-empty parent id gets a `hasChild`.
     */
    method AddNode(topic: Topic, parentId: string, level: nat) returns (id: string, data: NodeData)
      requires Valid() && (parentId != "" ==> parentId in nodes)
      modifies this
      ensures Valid()
      ensures nodeCounter == old(nodeCounter) + 1
      ensures id == IdOf(topic, old(nodeCounter)) && data == NodeOf(topic, id, level, nodeCounter)
      ensures Snap() == Store(old(Snap()), Entry(id, data, parentId))
    {
      id := IdOf(topic, nodeCounter);
      nodeCounter := nodeCounter + 1;
      var text := DisplayText(topic.text, level, nodeCounter);
      var nodeType := Classify(text);
      var modality := DetectModality(text);
      var stage := ExtractNumber(text, StagePatterns);
      var gate := ExtractNumber(text, GatePatterns);
      data := NodeData(id, text, level, nodeType, modality, stage, gate);
      Record(id, data, parentId);
    }

    method Record(id: string, data: NodeData, parentId: string)
      requires Valid() && data.text != "" && (parentId != "" ==> parentId in nodes)
      modifies this
      ensures Valid() && nodeCounter == old(nodeCounter)
      ensures nodes == old(nodes)[id := data]
      ensures relationships == old(relationships) + (if parentId != "" then [Relationship(parentId, id)] else [])
      ensures stageNodes == old(stageNodes) + (if Tracked(data.nodeType) then [id] else [])
      ensures proteinNodes == old(proteinNodes) + (if Tracked(data.nodeType) && data.modality == Some(Protein) then [id] else [])
      ensures cgtNodes == old(cgtNodes) + (if Tracked(data.nodeType) && data.modality == Some(CGT) then [id] else [])
    {
      RecordKeeps(nodes, relationships, stageNodes, stageModalities, proteinNodes, cgtNodes, id, data, parentId);
      var tracked := Tracked(data.nodeType);
      nodes := nodes[id := data];
      stageNodes := stageNodes + (if tracked then [id] else []);
      stageModalities := stageModalities + (if tracked then [data.modality] else []);
      proteinNodes := proteinNodes + (if tracked && data.modality == Some(Protein) then [id] else []);
      cgtNodes := cgtNodes + (if tracked && data.modality == Some(CGT) then [id] else []);
      relationships := relationships + (if parentId != "" then [Relationship(parentId, id)] else []);
    }

    /**
     * `process_topic_node` over a topic tree: the topic's own node is stored
     * under its id, its `hasChild` (below a non-empty parent) and its
     * tracking entries come first among the new ones; every topic of the
     * tree moves the counter on by one, every topic below a non-empty id
     * adds one relationship, and what was recorded before stays recorded.
     */
    method ProcessTopic(topic: Topic, parentId: string, level: nat) returns (node: NodeData)
      requires Valid() && (parentId != "" ==> parentId in nodes)
      modifies this
      decreases topic, 1
      ensures Valid()
      ensures nodeCounter == old(nodeCounter) + Size(topic)
      ensures |relationships| == |old(relationships)| + Links(topic, parentId != "")
      ensures old(relationships) <= relationships && old(nodes).Keys <= nodes.Keys
      ensures old(stageNodes) <= stageNodes && old(proteinNodes) <= proteinNodes && old(cgtNodes) <= cgtNodes
      ensures node == NodeOf(topic, IdOf(topic, old(nodeCounter)), level, old(nodeCounter) + 1)
      ensures IdOf(topic, old(nodeCounter)) in nodes
      ensures parentId != "" ==>
                |relationships| > |old(relationships)| &&
                relationships[|old(relationships)|] == Relationship(parentId, IdOf(topic, old(nodeCounter)))
      ensures Tracked(node.nodeType) ==>
                |stageNodes| > |old(stageNodes)| && stageNodes[|old(stageNodes)|] == IdOf(topic, old(nodeCounter))
      ensures Tracked(node.nodeType) && node.modality == Some(Protein) ==>
                |proteinNodes| > |old(proteinNodes)| && proteinNodes[|old(proteinNodes)|] == IdOf(topic, old(nodeCounter))
      ensures Tracked(node.nodeType) && node.modality == Some(CGT) ==>
                |cgtNodes| > |old(cgtNodes)| && cgtNodes[|old(cgtNodes)|] == IdOf(topic, old(nodeCounter))
    {
      var id;
      id, node := AddNode(topic, parentId, level);
      VisitChildren(topic, id, level + 1);
    }

    /** The loop of `process_topic_node` over the children of a topic stored under `id`. */
    method VisitChildren(topic: Topic, id: string, level: nat)
      requires Valid() && (id != "" ==> id in nodes)
      modifies this
      decreases topic, 0
      ensures Valid()
      ensures nodeCounter == old(nodeCounter) + SizeAll(topic.children)
      ensures |relationships| == |old(relationships)| + LinksAll(topic.children, id != "")
      ensures old(relationships) <= relationships && old(nodes).Keys <= nodes.Keys
      ensures old(stageNodes) <= stageNodes && old(proteinNodes) <= proteinNodes && old(cgtNodes) <= cgtNodes
    {
      var kids := topic.children;
      for k := 0 to |kids|
        invariant Valid() && (id != "" ==> id in nodes)
        invariant nodeCounter == old(nodeCounter) + SizeAll(kids[..k])
        invariant |relationships| == |old(relationships)| + LinksAll(kids[..k], id != "")
        invariant old(relationships) <= relationships && old(nodes).Keys <= nodes.Keys
        invariant old(stageNodes) <= stageNodes && old(proteinNodes) <= proteinNodes && old(cgtNodes) <= cgtNodes
      {
        assert kids[..k + 1][..k] == kids[..k];
        var _ := ProcessTopic(kids[k], id, level);
      }
      assert kids[..|kids|] == kids;
    }
  }

  // ---------------------------------------------------------------------
  // Identifiers and classes in `generate_augmented_ttl`
  // ---------------------------------------------------------------------

  /** `node_id.replace(' ', '_').replace('-', '_')` */
  function SafeId(id: string): string {
    Replace(Replace(id, " ", "_"), "-", "_")
  }

  lemma {:induction false} SubstChar(s: string, c: char, d: char)
    ensures |Subst(s, c, [d])| == |s|
    ensures forall i :: 0 <= i < |s| ==> Subst(s, c, [d])[i] == if s[i] == c then d else s[i]
  {
    if s != [] {
      SubstChar(s[1..], c, d);
    }
  }

  /**
   * A safe id has the same length, no space and no hyphen, and every other
   * character in place; ids that differ only in spaces and hyphens map to
   * the same IRI.
   */
  lemma SafeIdSpec(id: string)
    ensures |SafeId(id)| == |id|
    ensures forall i :: 0 <= i < |id| ==>
              SafeId(id)[i] == if id[i] == ' ' || id[i] == '-' then '_' else id[i]
  {
    ReplaceOneChar(id, ' ', "_");
    var a := Replace(id, " ", "_");
    SubstChar(id, ' ', '_');
    ReplaceOneChar(a, '-', "_");
    SubstChar(a, '-', '_');
  }

  /** Two topics whose ids differ only by a space and a hyphen land on the same subject. */
  lemma SafeIdMerges()
    ensures SafeId("a b") == SafeId("a-b") == "a_b"
  {
    SafeIdSpec("a b");
    SafeIdSpec("a-b");
  }

  /** The class a node is emitted with. */
  function NodeClass(t: NodeType, m: Option<Modality>): string {
    if t == StageGate then
      (if m == Some(Protein) then "ex:ProteinStageGate" else if m == Some(CGT) then "ex:CGTStageGate" else "ex:StageGate")
    else if t == Stage then "ex:Stage"
    else if t == Gate then "ex:StageGate"
    else "ex:MindMapNode"
  }

  /**
   * The emitted class agrees with the tracking lists: a node gets a class of
   * its own exactly when it is tracked in `stage_nodes`, and the modality
   * matters only for `stage_gate` nodes.
   */
  lemma NodeClassTracked(t: NodeType, m: Option<Modality>, m': Option<Modality>)
    ensures NodeClass(t, m) != "ex:MindMapNode" <==> Tracked(t)
    ensures t != StageGate ==> NodeClass(t, m) == NodeClass(t, m')
    ensures NodeClass(StageGate, None) != NodeClass(StageGate, Some(CGT))
    ensures NodeClass(StageGate, None) != NodeClass(StageGate, Some(Protein))
    ensures NodeClass(StageGate, Some(CGT)) != NodeClass(StageGate, Some(Protein))
  {
    assert |NodeClass(StageGate, None)| == 12;
    assert |NodeClass(StageGate, Some(CGT))| == 15;
    assert |NodeClass(StageGate, Some(Protein))| == 19;
  }
}
