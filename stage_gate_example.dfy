/**
 * The CGT Stage Gate 0 example: the row filter that extracts the gate's
 * deliverables, the Turtle rendering that groups them by functional area and
 * numbers them within each area, and the JSON summary's grouping and counts.
 *
 * Rows arrive as header-to-cell maps (the CSV reading is outside this model);
 * the summary is returned as a structure, its JSON rendering is left out, and
 * the generation time is a parameter.
 */
module StageGateExample {
  import opened Wrappers
  import opened Text
  import Sheet
  import Turtle

  /** One deliverable of a stage gate. */
  datatype Deliverable = Deliverable(area: string, text: string, category: Option<string>,
                                     owner: Option<string>, status: Option<string>, vpadSpecific: Option<bool>)

  /**
   * A stage gate with its metadata and deliverables. The source types the
   * gate number as a plain integer; a `nat` suffices because the only gate
   * ever built is gate 0.
   */
  datatype StageGate = StageGate(valueStream: string, gateNumber: nat, description: string,
                                 deliverables: seq<Deliverable>)

  // ---------------------------------------------------------------------
  // extract_stage_gate_0
  // ---------------------------------------------------------------------

  /** `data.get(key, '')` */
  function Cell(row: Sheet.Row, key: string): string {
    if key in row then row[key] else ""
  }

  /** `s or None` */
  function OrNone(s: string): Option<string> {
    if s == "" then None else Some(s)
  }

  /** The filter on stream and gate; an absent column never matches. */
  predicate Selected(row: Sheet.Row) {
    "Value Stream" in row && row["Value Stream"] == "CGT" && "Stage Gate" in row && row["Stage Gate"] == "0"
  }

  /** The deliverable a selected row describes. */
  function FromRow(row: Sheet.Row): Deliverable {
    FromCells(Cell(row, "Functional Area/Subteam"), Cell(row, "Deliverable"), Cell(row, "Category"),
              Cell(row, "Owner"), Cell(row, "Status"), Cell(row, "VPAD-specific?"))
  }

  /** The deliverable built from the raw cells: each stripped, an empty optional one becoming None. */
  function FromCells(area: string, text: string, category: string, owner: string, status: string, vpad: string): Deliverable {
    Deliverable(Strip(area), Strip(text), OrNone(Strip(category)), OrNone(Strip(owner)), OrNone(Strip(status)),
                Some(IsYes(Strip(vpad))))
  }

  /** `s.lower() == 'yes'`, letter by letter. */
  predicate IsYes(s: string) {
    |s| == 3 && LowerChar(s[0]) == 'y' && LowerChar(s[1]) == 'e' && LowerChar(s[2]) == 's'
  }

  lemma IsYesIff(s: string)
    ensures IsYes(s) <==> Lower(s) == "yes"
  {
    if |s| == 3 {
      assert Lower(s)[0] == LowerChar(s[0]) && Lower(s)[1] == LowerChar(s[1]) && Lower(s)[2] == LowerChar(s[2]);
    }
  }

  /** The deliverables `f` describes for the rows `keep` accepts, in row order. */
  function Collect(rows: seq<Sheet.Row>, keep: Sheet.Row -> bool, f: Sheet.Row -> Deliverable): (ds: seq<Deliverable>)
    ensures |ds| <= |rows|
    decreases |rows|
  {
    if rows == [] then []
    else
      var row := rows[|rows| - 1];
      Collect(rows[..|rows| - 1], keep, f) + (if keep(row) then [f(row)] else [])
  }

  /** A deliverable is collected exactly when an accepted row describes it. */
  lemma {:induction false} CollectIff(rows: seq<Sheet.Row>, keep: Sheet.Row -> bool, f: Sheet.Row -> Deliverable, d: Deliverable)
    ensures d in Collect(rows, keep, f) <==> exists k :: 0 <= k < |rows| && keep(rows[k]) && f(rows[k]) == d
    decreases |rows|
  {
    if rows != [] {
      var n := |rows| - 1;
      CollectIff(rows[..n], keep, f, d);
      if exists k :: 0 <= k < |rows| && keep(rows[k]) && f(rows[k]) == d {
        var k :| 0 <= k < |rows| && keep(rows[k]) && f(rows[k]) == d;
        if k < n {
          assert rows[..n][k] == rows[k];
        }
      }
      if exists k :: 0 <= k < n && keep(rows[..n][k]) && f(rows[..n][k]) == d {
        var k :| 0 <= k < n && keep(rows[..n][k]) && f(rows[..n][k]) == d;
        assert rows[..n][k] == rows[k];
      }
    }
  }

  /** What `f` guarantees on every accepted row holds of every collected deliverable. */
  lemma {:induction false} CollectAll(rows: seq<Sheet.Row>, keep: Sheet.Row -> bool, f: Sheet.Row -> Deliverable,
                                      p: Deliverable -> bool)
    requires forall r :: keep(r) ==> p(f(r))
    ensures forall k :: 0 <= k < |Collect(rows, keep, f)| ==> p(Collect(rows, keep, f)[k])
    decreases |rows|
  {
    if rows != [] {
      CollectAll(rows[..|rows| - 1], keep, f, p);
    }
  }

  /** The rows `extract_stage_gate_0` keeps: the right stream and gate, and deliverable text. */
  predicate Keeps(row: Sheet.Row) {
    Selected(row) && FromRow(row).text != ""
  }

  /** The deliverables kept from the rows, in row order. */
  function Extracted(rows: seq<Sheet.Row>): seq<Deliverable> {
    Collect(rows, Keeps, FromRow)
  }

  /** A kept deliverable has text, no optional field holding an empty string, and its VPAD flag set. */
  predicate WellFormed(d: Deliverable) {
    d.text != "" && d.category != Some("") && d.owner != Some("") && d.status != Some("") && d.vpadSpecific.Some?
  }

  lemma CellsWellFormed(area: string, text: string, category: string, owner: string, status: string, vpad: string)
    ensures var d := FromCells(area, text, category, owner, status, vpad); d.text != "" ==> WellFormed(d)
  {
  }

  lemma KeptWellFormed(row: Sheet.Row)
    ensures Keeps(row) ==> WellFormed(FromRow(row))
  {
    CellsWellFormed(Cell(row, "Functional Area/Subteam"), Cell(row, "Deliverable"), Cell(row, "Category"),
                    Cell(row, "Owner"), Cell(row, "Status"), Cell(row, "VPAD-specific?"));
  }

  /**
   * Every extracted deliverable is well formed, and a deliverable is extracted
   * exactly when a selected row with deliverable text describes it.
   */
  lemma ExtractedFacts(rows: seq<Sheet.Row>, d: Deliverable)
    ensures forall k :: 0 <= k < |Extracted(rows)| ==> WellFormed(Extracted(rows)[k])
    ensures d in Extracted(rows) <==> exists k :: 0 <= k < |rows| && Keeps(rows[k]) && FromRow(rows[k]) == d
  {
    forall r | Keeps(r)
      ensures WellFormed(FromRow(r))
    {
      KeptWellFormed(r);
    }
    CollectAll(rows, Keeps, FromRow, WellFormed);
    CollectIff(rows, Keeps, FromRow, d);
  }

  /** `extract_stage_gate_0` over the data rows below the second-row headers. */
  method ExtractStageGate0(rows: seq<Sheet.Row>) returns (sg: StageGate)
    ensures sg == StageGate("CGT", 0, "Entry in ED (C&GT)", Extracted(rows))
  {
    var deliverables: seq<Deliverable> := [];
    for i := 0 to |rows|
      invariant deliverables == Collect(rows[..i], Keeps, FromRow)
    {
      assert rows[..i + 1][..i] == rows[..i];
      var row := rows[i];
      if Selected(row) {
        var d := FromRow(row);
        if d.text != "" {
          deliverables := deliverables + [d];
        }
      }
    }
    assert rows[..|rows|] == rows;
    return StageGate("CGT", 0, "Entry in ED (C&GT)", deliverables);
  }

  // ---------------------------------------------------------------------
  // Grouping by functional area (generate_ttl and create_json_summary)
  // ---------------------------------------------------------------------

  /** `d.functional_area or "Unspecified"` */
  function AreaName(d: Deliverable): string {
    if d.area == "" then "Unspecified" else d.area
  }

  /** `by_area`: the areas in first-seen order and each area's deliverables. */
  datatype Groups = Groups(areas: seq<string>, members: map<string, seq<Deliverable>>)

  ghost predicate GroupsOk(g: Groups) {
    (forall a :: a in g.members ==> a in g.areas)
    && (forall i :: 0 <= i < |g.areas| ==> g.areas[i] in g.members)
    && forall i, j :: 0 <= i < j < |g.areas| ==> g.areas[i] != g.areas[j]
  }

  /** One pass of the grouping loop. */
  function AddToGroup(g: Groups, d: Deliverable): (g': Groups)
    requires GroupsOk(g)
    ensures GroupsOk(g')
  {
    var a := AreaName(d);
    var current := if a in g.members then g.members[a] else [];
    Groups(if a in g.members then g.areas else g.areas + [a], g.members[a := current + [d]])
  }

  function GroupByArea(ds: seq<Deliverable>): (g: Groups)
    ensures GroupsOk(g)
    decreases |ds|
  {
    if ds == [] then Groups([], map[]) else AddToGroup(GroupByArea(ds[..|ds| - 1]), ds[|ds| - 1])
  }

  /** The deliverables of one area, in their original order. */
  function InArea(ds: seq<Deliverable>, a: string): (r: seq<Deliverable>)
    ensures |r| <= |ds| && forall k :: 0 <= k < |r| ==> AreaName(r[k]) == a
    decreases |ds|
  {
    if ds == [] then []
    else InArea(ds[..|ds| - 1], a) + (if AreaName(ds[|ds| - 1]) == a then [ds[|ds| - 1]] else [])
  }

  /**
   * An area is grouped exactly when some deliverable names it, and its group
   * holds that area's deliverables in their original order.
   */
  lemma {:induction false} GroupMembers(ds: seq<Deliverable>, a: string)
    ensures a in GroupByArea(ds).members <==> InArea(ds, a) != []
    ensures a in GroupByArea(ds).members ==> GroupByArea(ds).members[a] == InArea(ds, a)
    decreases |ds|
  {
    if ds != [] {
      GroupMembers(ds[..|ds| - 1], a);
    }
  }

  /** The number of deliverables over the listed areas. */
  function SumSizes(areas: seq<string>, m: map<string, seq<Deliverable>>): nat
    requires forall i :: 0 <= i < |areas| ==> areas[i] in m
    decreases |areas|
  {
    if areas == [] then 0 else SumSizes(areas[..|areas| - 1], m) + |m[areas[|areas| - 1]]|
  }

  lemma {:induction false} SizesFrame(areas: seq<string>, m: map<string, seq<Deliverable>>, a: string, v: seq<Deliverable>)
    requires forall i :: 0 <= i < |areas| ==> areas[i] in m
    requires a !in areas
    ensures SumSizes(areas, m[a := v]) == SumSizes(areas, m)
    decreases |areas|
  {
    if areas != [] {
      SizesFrame(areas[..|areas| - 1], m, a, v);
    }
  }

  /** Replacing one listed area's group changes the total by the difference in sizes. */
  lemma {:induction false} SizesBump(areas: seq<string>, m: map<string, seq<Deliverable>>, a: string, v: seq<Deliverable>)
    requires forall i :: 0 <= i < |areas| ==> areas[i] in m
    requires forall i, j :: 0 <= i < j < |areas| ==> areas[i] != areas[j]
    requires a in areas
    ensures SumSizes(areas, m[a := v]) + |m[a]| == SumSizes(areas, m) + |v|
    decreases |areas|
  {
    var n := |areas| - 1;
    if areas[n] == a {
      assert a !in areas[..n];
      SizesFrame(areas[..n], m, a, v);
    } else {
      assert a in areas[..n];
      SizesBump(areas[..n], m, a, v);
    }
  }

  /** The groups together hold every deliverable once. */
  lemma {:induction false} GroupSizes(ds: seq<Deliverable>)
    ensures SumSizes(GroupByArea(ds).areas, GroupByArea(ds).members) == |ds|
    decreases |ds|
  {
    if ds != [] {
      var n := |ds| - 1;
      GroupSizes(ds[..n]);
      var g := GroupByArea(ds[..n]);
      var a := AreaName(ds[n]);
      var current := if a in g.members then g.members[a] else [];
      if a in g.members {
        assert a in g.areas;
        SizesBump(g.areas, g.members, a, current + [ds[n]]);
      } else {
        SizesFrame(g.areas, g.members, a, current + [ds[n]]);
        assert (g.areas + [a])[..|g.areas|] == g.areas;
      }
    }
  }

  /** The grouping loop of `generate_ttl`. */
  method GroupDeliverables(ds: seq<Deliverable>) returns (areas: seq<string>, members: map<string, seq<Deliverable>>)
    ensures Groups(areas, members) == GroupByArea(ds)
  {
    areas, members := [], map[];
    for i := 0 to |ds|
      invariant Groups(areas, members) == GroupByArea(ds[..i])
    {
      assert ds[..i + 1][..i] == ds[..i];
      var area := AreaName(ds[i]);
      var current := if area in members then members[area] else [];
      if area !in members {
        areas := areas + [area];
      }
      members := members[area := current + [ds[i]]];
    }
    assert ds[..|ds|] == ds;
  }

  // ---------------------------------------------------------------------
  // Names and literals of generate_ttl
  // ---------------------------------------------------------------------

  /** `area.replace(' ', '_').replace('(', '').replace(')', '').replace('&', 'and')` */
  function AreaId(area: string): (r: string)
    ensures ' ' !in r && '(' !in r && ')' !in r && '&' !in r
  {
    var s1 := Subst(area, ' ', "_");
    var s2 := Subst(s1, '(', "");
    var s3 := Subst(s2, ')', "");
    SubstRemoves(area, ' ', "_");
    SubstRemoves(s1, '(', "");
    Turtle.SubstKeepsAbsent(s1, '(', "", ' ');
    SubstRemoves(s2, ')', "");
    Turtle.SubstKeepsAbsent(s2, ')', "", ' ');
    Turtle.SubstKeepsAbsent(s2, ')', "", '(');
    SubstRemoves(s3, '&', "and");
    Turtle.SubstKeepsAbsent(s3, '&', "and", ' ');
    Turtle.SubstKeepsAbsent(s3, '&', "and", '(');
    Turtle.SubstKeepsAbsent(s3, '&', "and", ')');
    Subst(s3, '&', "and")
  }

  /** A name without spaces, parentheses or ampersands is its own id. */
  lemma AreaIdPlain(s: string)
    requires ' ' !in s && '(' !in s && ')' !in s && '&' !in s
    ensures AreaId(s) == s
  {
    Turtle.SubstAbsent(s, ' ', "_");
    Turtle.SubstAbsent(s, '(', "");
    Turtle.SubstAbsent(s, ')', "");
    Turtle.SubstAbsent(s, '&', "and");
  }

  /** Ids of a name around an ampersand. */
  lemma AreaIdAmpersand(a: string, b: string)
    requires ' ' !in a + b && '(' !in a + b && ')' !in a + b && '&' !in a + b
    ensures AreaId(a + "&" + b) == a + "and" + b
  {
    var s := a + "&" + b;
    assert ' ' !in s && '(' !in s && ')' !in s;
    Turtle.SubstAbsent(s, ' ', "_");
    Turtle.SubstAbsent(s, '(', "");
    Turtle.SubstAbsent(s, ')', "");
    SubstConcat(a + "&", b, '&', "and");
    SubstConcat(a, "&", '&', "and");
    Turtle.SubstAbsent(a, '&', "and");
    Turtle.SubstAbsent(b, '&', "and");
    assert Subst("&", '&', "and") == "and";
  }

  /** Two area names that differ only in `&` against `and` share one id. */
  lemma AreaIdNotInjective()
    ensures AreaId("R&D") == AreaId("RandD") == "RandD"
  {
    assert "R&D" == "R" + "&" + "D";
    assert "RandD" == "R" + "and" + "D";
    AreaIdAmpersand("R", "D");
    AreaIdPlain("RandD");
  }

  function AreaUri(aid: string): string { "sg:Area-" + aid }

  /** The URI of the `j`-th deliverable (counting from 1) of the area with id `aid`. */
  function DelivUri(aid: string, j: nat): string {
    "sg:Deliverable-CGT-0-" + aid + "-" + NatToString(j)
  }

  /** Splitting at the last dash: `x + "-" + p == y + "-" + q` with dash-free `p`, `q` fixes both parts. */
  lemma SplitAtLastDash(x: string, p: string, y: string, q: string)
    requires '-' !in p && '-' !in q
    requires x + "-" + p == y + "-" + q
    ensures x == y && p == q
  {
    var s := x + "-" + p;
    LastDash(x, p, s);
    LastDash(y, q, s);
    assert x == s[..|x|] == y;
    assert p == s[|x| + 1..] == q;
  }

  /** In `x + "-" + p` with a dash-free `p`, the dash after `x` is the last one. */
  lemma LastDash(x: string, p: string, s: string)
    requires '-' !in p && s == x + "-" + p
    ensures s[|x|] == '-' && forall k :: |x| < k < |s| ==> s[k] != '-'
  {
    forall k | |x| < k < |s|
      ensures s[k] != '-'
    {
      assert s[k] == p[k - |x| - 1];
    }
  }

  /** Distinct area ids or distinct positions give distinct deliverable URIs. */
  lemma DelivUriInjective(a: string, j: nat, b: string, k: nat)
    ensures DelivUri(a, j) == DelivUri(b, k) ==> a == b && j == k
  {
    if DelivUri(a, j) == DelivUri(b, k) {
      var pre := "sg:Deliverable-CGT-0-";
      assert '-' !in NatToString(j) && '-' !in NatToString(k);
      assert (pre + a) + "-" + NatToString(j) == (pre + b) + "-" + NatToString(k);
      SplitAtLastDash(pre + a, NatToString(j), pre + b, NatToString(k));
      assert a == (pre + a)[|pre|..];
      assert b == (pre + b)[|pre|..];
      ParseNatToString(j);
      ParseNatToString(k);
    }
  }

  /**
   * A short Turtle string literal for a value: every character the short
   * form cannot carry raw is written as an ECHAR escape.
   */
  function Literal(v: string): (lit: string)
    ensures Turtle.ParseLiteral(lit) == Some(v)
  {
    Turtle.ShortFlatOk(v);
    Turtle.ShortToken(Turtle.FlatMap(v, Turtle.ShortChar));
    "\"" + Turtle.FlatMap(v, Turtle.ShortChar) + "\""
  }

  /** A value written between quotes as it is, the way the area label and the status are. */
  function RawLiteral(v: string): string {
    "\"" + v + "\""
  }

  /** The literal as the example writes the text and the owner: only `"` is escaped. */
  function LiteralAsWritten(v: string): string {
    "\"" + Subst(v, '"', "\\\"") + "\""
  }

  /** Without backslashes, tabs or line breaks, escaping only `"` is the full escape, so the token denotes the value. */
  lemma {:induction false} LiteralAsWrittenParses(v: string)
    requires '\\' !in v && '\t' !in v && '\r' !in v && '\n' !in v
    ensures LiteralAsWritten(v) == Literal(v)
    ensures Turtle.ParseLiteral(LiteralAsWritten(v)) == Some(v)
  {
    QuoteOnlyFlat(v);
  }

  lemma {:induction false} QuoteOnlyFlat(v: string)
    requires '\\' !in v && '\t' !in v && '\r' !in v && '\n' !in v
    ensures Subst(v, '"', "\\\"") == Turtle.FlatMap(v, Turtle.ShortChar)
    decreases |v|
  {
    if v != [] {
      assert v == [v[0]] + v[1..];
      QuoteOnlyFlat(v[1..]);
    }
  }

  /** A value without `"` is written the same raw or with its quotes escaped. */
  lemma RawLiteralAgrees(v: string)
    requires '"' !in v
    ensures RawLiteral(v) == LiteralAsWritten(v)
  {
    Turtle.SubstAbsent(v, '"', "\\\"");
  }

  /**
   * A deliverable text ending in a backslash makes the as-written token end
   * in an escaped quote: it is not a Turtle string literal at all, while the
   * corrected literal denotes the text.
   */
  lemma TrailingBackslashBreaks()
    ensures LiteralAsWritten("a\\") == "\"a\\\""
    ensures Turtle.ParseLiteral(LiteralAsWritten("a\\")) == None
    ensures Turtle.ParseLiteral(Literal("a\\")) == Some("a\\")
  {
    var lit := LiteralAsWritten("a\\");
    assert Subst("a\\", '"', "\\\"") == "a\\";
    assert lit[1..|lit| - 1] == "a\\";
    assert !Turtle.ShortBodyOk("a\\") by {
      assert "a\\"[1..] == "\\";
    }
  }

  // ---------------------------------------------------------------------
  // generate_ttl
  // ---------------------------------------------------------------------

  /** The fixed prefix and gate block at the head of the document. */
  const Header: string :=
    "@prefix sg: <http://example.org/stagegate#> .\n"
    + "@prefix rdfs: <http://www.w3.org/2000/01/rdf-schema#> .\n"
    + "@prefix xsd: <http://www.w3.org/2001/XMLSchema#> .\n"
    + "@prefix prov: <http://www.w3.org/ns/prov#> .\n"
    + "\n"
    + "# Stage Gate Definition\n"
    + "sg:CGT-Gate-0 a sg:StageGate ;\n"
    + "    rdfs:label \"CGT Stage Gate 0: Entry in ED\" ;\n"
    + "    sg:valueStream \"CGT\" ;\n"
    + "    sg:gateNumber 0 ;\n"
    + "    sg:description \"Entry in Early Development (Cell & Gene Therapy)\" ;\n"
    + "    sg:createdDate \"2023-01-01\"^^xsd:date .\n"
    + "\n"

  /** The block that declares a functional area. */
  function AreaBlock(area: string): string {
    "\n# Functional Area: " + area + "\n"
    + AreaUri(AreaId(area)) + " a sg:FunctionalArea ;\n"
    + "    rdfs:label " + RawLiteral(area) + " ;\n"
    + "    sg:belongsToGate sg:CGT-Gate-0 .\n\n"
  }

  /** The optional lines: an owner or status only when non-empty, the VPAD flag whenever it is set. */
  function Extras(d: Deliverable): string {
    (if d.owner.Some? && d.owner.value != "" then " ;\n    sg:owner " + LiteralAsWritten(d.owner.value) else "")
    + (if d.status.Some? && d.status.value != "" then " ;\n    sg:status " + RawLiteral(d.status.value) else "")
    + (if d.vpadSpecific.Some? then " ;\n    sg:vpadSpecific " + (if d.vpadSpecific.value then "true" else "false") else "")
  }

  /** The block of the `j`-th deliverable of an area. */
  function DelivBlock(aid: string, j: nat, d: Deliverable): string {
    DelivUri(aid, j) + " a sg:Deliverable ;\n"
    + "    rdfs:label " + LiteralAsWritten(d.text) + " ;\n"
    + "    sg:functionalArea " + AreaUri(aid) + " ;\n"
    + "    sg:stageGate sg:CGT-Gate-0"
    + Extras(d)
    + " .\n\n"
  }

  /** The blocks of an area's deliverables, numbered from 1. */
  function DelivBlocks(aid: string, ds: seq<Deliverable>): string
    decreases |ds|
  {
    if ds == [] then "" else DelivBlocks(aid, ds[..|ds| - 1]) + DelivBlock(aid, |ds|, ds[|ds| - 1])
  }

  lemma AppendAssoc(a: string, b: string, c: string)
    ensures (a + b) + c == a + (b + c)
  {
  }

  lemma DelivBlocksSnoc(ttl: string, aid: string, ds: seq<Deliverable>, j: nat)
    requires j < |ds|
    ensures ttl + DelivBlocks(aid, ds[..j + 1]) == (ttl + DelivBlocks(aid, ds[..j])) + DelivBlock(aid, j + 1, ds[j])
  {
    assert ds[..j + 1][..j] == ds[..j];
    AppendAssoc(ttl, DelivBlocks(aid, ds[..j]), DelivBlock(aid, j + 1, ds[j]));
  }

  /** Every listed area's block followed by its deliverables' blocks. */
  function AreaBlocks(areas: seq<string>, m: map<string, seq<Deliverable>>): string
    requires forall i :: 0 <= i < |areas| ==> areas[i] in m
    decreases |areas|
  {
    if areas == [] then ""
    else
      var a := areas[|areas| - 1];
      AreaBlocks(areas[..|areas| - 1], m) + AreaSection(a, m[a])
  }

  /** An area's block followed by its deliverables' blocks. */
  function AreaSection(area: string, group: seq<Deliverable>): string {
    AreaBlock(area) + DelivBlocks(AreaId(area), group)
  }

  lemma AreaBlocksSnoc(ttl: string, areas: seq<string>, m: map<string, seq<Deliverable>>, i: nat)
    requires i < |areas| && forall k :: 0 <= k < |areas| ==> areas[k] in m
    ensures ttl + AreaBlocks(areas[..i + 1], m) == (ttl + AreaBlocks(areas[..i], m)) + AreaSection(areas[i], m[areas[i]])
  {
    assert areas[..i + 1][..i] == areas[..i];
    AppendAssoc(ttl, AreaBlocks(areas[..i], m), AreaSection(areas[i], m[areas[i]]));
  }

  /** The document `generate_ttl` returns. */
  function Ttl(sg: StageGate): string {
    var g := GroupByArea(sg.deliverables);
    Header + AreaBlocks(g.areas, g.members)
  }

  /** `generate_ttl`: the grouping loop, then one area block and its numbered deliverables per area. */
  method GenerateTtl(sg: StageGate) returns (ttl: string)
    ensures ttl == Ttl(sg)
  {
    var areas, members := GroupDeliverables(sg.deliverables);
    ttl := AppendAreas(Header, areas, members);
  }

  /** The outer loop of `generate_ttl`: each area's block followed by its deliverables. */
  method AppendAreas(ttl: string, areas: seq<string>, members: map<string, seq<Deliverable>>) returns (ttl': string)
    requires forall k :: 0 <= k < |areas| ==> areas[k] in members
    ensures ttl' == ttl + AreaBlocks(areas, members)
  {
    ttl' := ttl;
    for i := 0 to |areas|
      invariant ttl' == ttl + AreaBlocks(areas[..i], members)
    {
      AreaBlocksSnoc(ttl, areas, members, i);
      ttl' := AppendArea(ttl', areas[i], members[areas[i]]);
    }
    assert areas[..|areas|] == areas;
  }

  /** One pass of the outer loop: the area's block, then its deliverables. */
  method AppendArea(ttl: string, area: string, group: seq<Deliverable>) returns (ttl': string)
    ensures ttl' == ttl + AreaSection(area, group)
  {
    var aid := AreaId(area);
    AppendAssoc(ttl, AreaBlock(area), DelivBlocks(aid, group));
    ttl' := ttl + AreaBlock(area);
    ttl' := AppendDeliverables(ttl', aid, group);
  }

  /** The inner loop of `generate_ttl`: the area's deliverables, numbered from 1. */
  method AppendDeliverables(ttl: string, aid: string, delivs: seq<Deliverable>) returns (ttl': string)
    ensures ttl' == ttl + DelivBlocks(aid, delivs)
  {
    ttl' := ttl;
    for j := 0 to |delivs|
      invariant ttl' == ttl + DelivBlocks(aid, delivs[..j])
    {
      DelivBlocksSnoc(ttl, aid, delivs, j);
      ttl' := ttl' + DelivBlock(aid, j + 1, delivs[j]);
    }
    assert delivs[..|delivs|] == delivs;
  }

  /** The deliverable URIs the document declares, in emission order. */
  function Uris(areas: seq<string>, m: map<string, seq<Deliverable>>): (r: seq<string>)
    requires forall i :: 0 <= i < |areas| ==> areas[i] in m
    decreases |areas|
  {
    if areas == [] then []
    else
      var a := areas[|areas| - 1];
      Uris(areas[..|areas| - 1], m) + seq(|m[a]|, j requires 0 <= j < |m[a]| => DelivUri(AreaId(a), j + 1))
  }

  /** Every declared URI names a listed area's id and a position. */
  lemma {:induction false} UrisShape(areas: seq<string>, m: map<string, seq<Deliverable>>, x: string)
    requires forall i :: 0 <= i < |areas| ==> areas[i] in m
    requires x in Uris(areas, m)
    ensures exists i, j :: 0 <= i < |areas| && j >= 1 && x == DelivUri(AreaId(areas[i]), j)
    decreases |areas|
  {
    var n := |areas| - 1;
    var prev := Uris(areas[..n], m);
    if x in prev {
      UrisShape(areas[..n], m, x);
      var i, j :| 0 <= i < n && j >= 1 && x == DelivUri(AreaId(areas[..n][i]), j);
      assert areas[..n][i] == areas[i];
    } else {
      var k :| 0 <= k < |Uris(areas, m)| && Uris(areas, m)[k] == x;
      assert x == DelivUri(AreaId(areas[n]), k - |prev| + 1);
    }
  }

  /** No value occurs twice. */
  predicate NoDuplicates(r: seq<string>) {
    forall i, j :: 0 <= i < j < |r| ==> r[i] != r[j]
  }

  /**
   * When the areas' ids are pairwise distinct, every deliverable gets its own
   * URI; `AreaIdNotInjective` shows two area names whose ids collide.
   */
  lemma {:induction false} UrisDistinct(areas: seq<string>, m: map<string, seq<Deliverable>>)
    requires forall i :: 0 <= i < |areas| ==> areas[i] in m
    requires forall i, j :: 0 <= i < j < |areas| ==> AreaId(areas[i]) != AreaId(areas[j])
    ensures NoDuplicates(Uris(areas, m))
    decreases |areas|
  {
    if areas != [] {
      var n := |areas| - 1;
      var a := areas[n];
      UrisDistinct(areas[..n], m);
      var prev := Uris(areas[..n], m);
      var tail := seq(|m[a]|, k requires 0 <= k < |m[a]| => DelivUri(AreaId(a), k + 1));
      var r := Uris(areas, m);
      assert r == prev + tail;
      forall i, j | 0 <= i < j < |r|
        ensures r[i] != r[j]
      {
        if j < |prev| {
          assert r[i] == prev[i] && r[j] == prev[j];
        } else if i >= |prev| {
          assert r[i] == DelivUri(AreaId(a), i - |prev| + 1);
          assert r[j] == DelivUri(AreaId(a), j - |prev| + 1);
          DelivUriInjective(AreaId(a), i - |prev| + 1, AreaId(a), j - |prev| + 1);
        } else {
          assert r[i] == prev[i] && r[j] == DelivUri(AreaId(a), j - |prev| + 1);
          FreshAreaUris(areas[..n], m, a, prev[i]);
        }
      }
    }
  }

  /** A URI declared for earlier areas differs from every URI of an area whose id is new. */
  lemma FreshAreaUris(areas: seq<string>, m: map<string, seq<Deliverable>>, a: string, x: string)
    requires forall i :: 0 <= i < |areas| ==> areas[i] in m
    requires forall i :: 0 <= i < |areas| ==> AreaId(areas[i]) != AreaId(a)
    requires x in Uris(areas, m)
    ensures forall k :: k >= 1 ==> x != DelivUri(AreaId(a), k)
  {
    UrisShape(areas, m, x);
    var p, q :| 0 <= p < |areas| && q >= 1 && x == DelivUri(AreaId(areas[p]), q);
    forall k | k >= 1
      ensures x != DelivUri(AreaId(a), k)
    {
      DelivUriInjective(AreaId(areas[p]), q, AreaId(a), k);
    }
  }

  // ---------------------------------------------------------------------
  // create_json_summary
  // ---------------------------------------------------------------------

  /** One deliverable's entry in the summary. */
  datatype DelivData = DelivData(text: string, area: string, hasOwner: bool, owner: Option<string>,
                                 status: Option<string>, vpadSpecific: Option<bool>)

  /** One functional area's entry in the summary. */
  datatype AreaSummary = AreaSummary(name: string, count: nat, deliverables: seq<DelivData>)

  /** The summary, before JSON rendering; the areas list keeps the dictionary's key order. */
  datatype Summary = Summary(id: string, valueStream: string, gateNumber: nat, description: string,
                             deliverableCount: nat, generatedAt: string, areas: seq<string>,
                             byArea: map<string, AreaSummary>, deliverables: seq<DelivData>)

  function Data(d: Deliverable): DelivData {
    DelivData(d.text, AreaName(d), d.owner.Some?, d.owner, d.status, d.vpadSpecific)
  }

  function MapData(ds: seq<Deliverable>): (r: seq<DelivData>)
    ensures |r| == |ds| && forall k :: 0 <= k < |ds| ==> r[k] == Data(ds[k])
    decreases |ds|
  {
    if ds == [] then [] else MapData(ds[..|ds| - 1]) + [Data(ds[|ds| - 1])]
  }

  /** The grouping part of the summary, built one deliverable at a time. */
  datatype Tally = Tally(areas: seq<string>, byArea: map<string, AreaSummary>, all: seq<DelivData>)

  /** One pass of the summary loop. */
  function TallyStep(t: Tally, d: Deliverable): Tally {
    var a := AreaName(d);
    var entry := if a in t.byArea then t.byArea[a] else AreaSummary(a, 0, []);
    var areas := if a in t.byArea then t.areas else t.areas + [a];
    var data := Data(d);
    Tally(areas, t.byArea[a := entry.(count := entry.count + 1, deliverables := entry.deliverables + [data])],
          t.all + [data])
  }

  function TallyAll(ds: seq<Deliverable>): Tally
    decreases |ds|
  {
    if ds == [] then Tally([], map[], []) else TallyStep(TallyAll(ds[..|ds| - 1]), ds[|ds| - 1])
  }

  /**
   * The summary agrees with the grouping: the same areas in the same order,
   * and each area's entry names the area, counts its deliverables and lists
   * their data; the flat list holds every deliverable's data.
   */
  lemma {:induction false} TallyMatchesGroups(ds: seq<Deliverable>)
    ensures var t := TallyAll(ds); var g := GroupByArea(ds);
      t.areas == g.areas && t.byArea.Keys == g.members.Keys && t.all == MapData(ds)
      && forall a :: a in g.members ==> t.byArea[a] == AreaSummary(a, |g.members[a]|, MapData(g.members[a]))
  {
    TallyAreas(ds);
    TallyFlat(ds);
    forall a | a in GroupByArea(ds).members
      ensures TallyAll(ds).byArea[a] == AreaSummary(a, |GroupByArea(ds).members[a]|, MapData(GroupByArea(ds).members[a]))
    {
      TallyEntry(ds, a);
    }
  }

  /** The summary lists the grouped areas, in the same order. */
  lemma {:induction false} TallyAreas(ds: seq<Deliverable>)
    ensures TallyAll(ds).areas == GroupByArea(ds).areas && TallyAll(ds).byArea.Keys == GroupByArea(ds).members.Keys
    decreases |ds|
  {
    if ds != [] {
      TallyAreas(ds[..|ds| - 1]);
    }
  }

  /** The flat list holds every deliverable's data, in order. */
  lemma {:induction false} TallyFlat(ds: seq<Deliverable>)
    ensures TallyAll(ds).all == MapData(ds)
    decreases |ds|
  {
    if ds != [] {
      TallyFlat(ds[..|ds| - 1]);
    }
  }

  /** A grouped area's entry names it, counts its group and lists the group's data. */
  lemma {:induction false} TallyEntry(ds: seq<Deliverable>, a: string)
    ensures a in GroupByArea(ds).members ==>
      a in TallyAll(ds).byArea && TallyAll(ds).byArea[a] == AreaSummary(a, |GroupByArea(ds).members[a]|, MapData(GroupByArea(ds).members[a]))
    decreases |ds|
  {
    if ds != [] {
      var n := |ds| - 1;
      TallyEntry(ds[..n], a);
      TallyAreas(ds[..n]);
      var g := GroupByArea(ds[..n]);
      if AreaName(ds[n]) == a {
        if a in g.members {
          assert MapData(g.members[a] + [ds[n]]) == MapData(g.members[a]) + [Data(ds[n])];
        } else {
          assert MapData([] + [ds[n]]) == [Data(ds[n])];
        }
      }
    }
  }

  /** The summary of a stage gate. */
  function SummaryOf(sg: StageGate, now: string): Summary {
    var t := TallyAll(sg.deliverables);
    Summary(sg.valueStream + "-" + NatToString(sg.gateNumber), sg.valueStream, sg.gateNumber, sg.description,
            |sg.deliverables|, now, t.areas, t.byArea, t.all)
  }

  /** The sum of the listed areas' counts. */
  function SumCounts(areas: seq<string>, byArea: map<string, AreaSummary>): nat
    requires forall i :: 0 <= i < |areas| ==> areas[i] in byArea
    decreases |areas|
  {
    if areas == [] then 0 else SumCounts(areas[..|areas| - 1], byArea) + byArea[areas[|areas| - 1]].count
  }

  lemma {:induction false} SumCountsSizes(areas: seq<string>, byArea: map<string, AreaSummary>, m: map<string, seq<Deliverable>>)
    requires forall i :: 0 <= i < |areas| ==> areas[i] in m && areas[i] in byArea && byArea[areas[i]].count == |m[areas[i]]|
    ensures SumCounts(areas, byArea) == SumSizes(areas, m)
    decreases |areas|
  {
    if areas != [] {
      SumCountsSizes(areas[..|areas| - 1], byArea, m);
    }
  }

  /**
   * Each area's count is the length of its list, the counts add up to the
   * gate's deliverable count, an area is listed exactly when a deliverable
   * names it, and `has_owner` holds exactly when there is an owner.
   */
  lemma SummaryCounts(sg: StageGate, now: string)
    ensures var s := SummaryOf(sg, now);
      (forall i :: 0 <= i < |s.areas| ==> s.areas[i] in s.byArea)
      && (forall a :: a in s.byArea ==> s.byArea[a].count == |s.byArea[a].deliverables| && s.byArea[a].name == a)
      && SumCounts(s.areas, s.byArea) == s.deliverableCount
      && (forall a :: a in s.byArea <==> InArea(sg.deliverables, a) != [])
      && (forall k :: 0 <= k < |s.deliverables| ==> (s.deliverables[k].hasOwner <==> s.deliverables[k].owner.Some?))
  {
    var ds := sg.deliverables;
    var g := GroupByArea(ds);
    TallyMatchesGroups(ds);
    GroupSizes(ds);
    SumCountsSizes(g.areas, TallyAll(ds).byArea, g.members);
    forall a
      ensures a in g.members <==> InArea(ds, a) != []
    {
      GroupMembers(ds, a);
    }
  }

  /** `create_json_summary`: one pass over the deliverables, filling the area entries and the flat list. */
  method CreateJsonSummary(sg: StageGate, now: string) returns (s: Summary)
    ensures s == SummaryOf(sg, now)
  {
    var ds := sg.deliverables;
    var areas: seq<string> := [];
    var byArea: map<string, AreaSummary> := map[];
    var all: seq<DelivData> := [];
    for i := 0 to |ds|
      invariant Tally(areas, byArea, all) == TallyAll(ds[..i])
    {
      assert ds[..i + 1][..i] == ds[..i];
      var deliv := ds[i];
      var area := AreaName(deliv);
      var entry := if area in byArea then byArea[area] else AreaSummary(area, 0, []);
      if area !in byArea {
        areas := areas + [area];
      }
      var data := Data(deliv);
      byArea := byArea[area := entry.(count := entry.count + 1, deliverables := entry.deliverables + [data])];
      all := all + [data];
    }
    assert ds[..|ds|] == ds;
    s := Summary(sg.valueStream + "-" + NatToString(sg.gateNumber), sg.valueStream, sg.gateNumber, sg.description,
                 |ds|, now, areas, byArea, all);
  }
}
