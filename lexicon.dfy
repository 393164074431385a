/**
 * The lexicon generator (scripts/etl/generate_lexicon_ttl.py): each row with
 * an abbreviation and a definition becomes one `ex:DefinedTerm` with a
 * persistent identifier, a category chosen by ordered keyword rules, optional
 * critical / regulatory flags and links to the stages that use the term.
 */
module Lexicon {
  import opened Wrappers
  import opened Text
  import Sheet
  import Slug
  import Turtle
  import Gupri

  // ---------------------------------------------------------------------
  // Identifiers: `generate_lexicon_gupri` with its own mapping dictionary.
  // ---------------------------------------------------------------------

  /** `f"Term:{abbr}"` */
  function TermKey(abbr: string): string { "Term:" + abbr }

  /** `f"ex:Term_{safe_id(abbr)}_{str(term_uuid)[:8]}"` */
  function TermGupri(abbr: string, uuid: string): string {
    "ex:Term_" + Slug.WordSlug(abbr) + "_" + Gupri.Token(uuid)
  }

  /** A term identifier is `ex:Term_`, the abbreviation's word slug, `_` and the token. */
  lemma TermGupriShape(abbr: string, uuid: string)
    ensures var id := TermGupri(abbr, uuid);
      "ex:Term_" <= id && EndsWith(id, Gupri.Token(uuid))
      && id[8..|id| - |Gupri.Token(uuid)|] == Slug.WordSlug(abbr) + "_"
    ensures Slug.IsWordSlug(Slug.WordSlug(abbr))
  {
    ThreeParts("ex:Term_", Slug.WordSlug(abbr) + "_", Gupri.Token(uuid));
    Slug.WordSlugShape(abbr);
  }

  lemma ThreeParts(a: string, b: string, c: string)
    ensures a <= a + b + c && EndsWith(a + b + c, c)
    ensures (a + b + c)[|a|..|a + b + c| - |c|] == b
  {
    assert (a + b + c)[..|a|] == a;
    assert (a + b + c)[|a + b + c| - |c|..] == c;
  }

  /** This slug has no fallback: an abbreviation without word characters leaves it empty. */
  lemma TermSlugCanBeEmpty()
    ensures Slug.WordSlug("&") == ""
  {
    assert Slug.Underscored("&") == "_";
    assert Slug.CollapseRuns("_", IsUnderscore, '_') == "_" by {
      assert "_"[1..] == [];
    }
  }

  /** `LEXICON_ID_MAPPINGS` together with the lexicon namespace's name-based UUID. */
  class TermIds {
    var mappings: Gupri.Mappings
    const uuid5: string -> string

    constructor(loaded: Gupri.Mappings, uuid5: string -> string)
      ensures mappings == loaded && this.uuid5 == uuid5
    {
      mappings := loaded;
      this.uuid5 := uuid5;
    }

    /**
     * `generate_lexicon_gupri(abbr)`: a stored identifier is returned as is and
     * the dictionary is left alone; otherwise a fresh identifier is stored
     * under `Term:<abbr>` and no other entry changes.
     */
    method GenerateLexiconGupri(abbr: string) returns (id: string)
      modifies this
      ensures (id, mappings) == Gupri.Resolve(old(mappings), TermKey(abbr), TermGupri(abbr, uuid5(TermKey(abbr))))
    {
      var key := TermKey(abbr);
      if key in mappings {
        return mappings[key];
      }
      id := TermGupri(abbr, uuid5(key));
      mappings := mappings[key := id];
    }
  }

  // ---------------------------------------------------------------------
  // `categorize_term`: ordered keyword rules, the first that matches wins.
  // ---------------------------------------------------------------------

  const Regulatory := "ex:TermCategory-Regulatory"
  const Quality := "ex:TermCategory-Quality"
  const CellGene := "ex:TermCategory-CellGene"
  const Process := "ex:TermCategory-Process"
  const Clinical := "ex:TermCategory-Clinical"
  const Analytical := "ex:TermCategory-Analytical"
  const Organization := "ex:TermCategory-Organization"

  const RegulatoryKeys: seq<string> := ["GMP", "GLP", "FDA", "EMA", "IND", "NDA", "BLA", "MAA", "CTD", "ICH"]
  /** The quality keywords as written: `CoA` is compared with an upper-cased abbreviation. */
  const QualityKeysAsWritten: seq<string> := ["QA", "QC", "CQA", "CPP", "OOS", "OOT", "CoA", "QBD"]
  /** The quality keywords with the certificate of analysis spelled as it can match. */
  const QualityKeys: seq<string> := ["QA", "QC", "CQA", "CPP", "OOS", "OOT", "COA", "QBD"]
  const CellGeneKeys: seq<string> := ["MCB", "WCB", "EOPCB", "DCB", "CAR", "CGT", "MVB"]
  const ProcessKeys: seq<string> := ["DSP", "USP", "PPQ", "PV", "DOE", "PAR", "CPV", "FMEA"]
  const ClinicalKeys: seq<string> := ["FIH", "PK", "CTA", "CSR", "IDE"]
  const AnalyticalKeys: seq<string> := ["AD", "ATP", "CMA", "TOE"]
  const OrganizationWords: seq<string> := ["team", "committee", "council", "department", "organization"]

  /** The rule chain over the upper-cased abbreviation and the lower-cased definition. */
  function CategorizeCased(qualityKeys: seq<string>, u: string, d: string): string {
    if AnyIn(RegulatoryKeys, u) then Regulatory
    else if AnyIn(qualityKeys, u) then Quality
    else if AnyIn(CellGeneKeys, u) then CellGene
    else if AnyIn(ProcessKeys, u) then Process
    else if AnyIn(ClinicalKeys, u) || Contains(d, "clinical") then Clinical
    else if AnyIn(AnalyticalKeys, u) || Contains(d, "analytical") then Analytical
    else if AnyIn(OrganizationWords, d) then Organization
    else Process
  }

  /** The rule chain with a given list of quality keywords. */
  function CategorizeWith(qualityKeys: seq<string>, abbr: string, definition: string): string {
    CategorizeCased(qualityKeys, Upper(abbr), Lower(definition))
  }

  /** `categorize_term(abbr, definition)` as written. */
  function CategorizeAsWritten(abbr: string, definition: string): string {
    CategorizeWith(QualityKeysAsWritten, abbr, definition)
  }

  /** `categorize_term` with the `COA` keyword able to match. */
  function Categorize(abbr: string, definition: string): string {
    CategorizeWith(QualityKeys, abbr, definition)
  }

  /** The result depends on the abbreviation and the definition only up to letter case. */
  lemma CategorizeIgnoresCase(qualityKeys: seq<string>, abbr: string, definition: string)
    ensures CategorizeWith(qualityKeys, Lower(abbr), definition) == CategorizeWith(qualityKeys, abbr, definition)
    ensures CategorizeWith(qualityKeys, abbr, Upper(definition)) == CategorizeWith(qualityKeys, abbr, definition)
  {
    UpperOfCased(abbr);
    LowerOfCased(definition);
  }

  /** An upper-cased string has no lower-case letter, so it never contains `CoA`. */
  lemma CoaNeverMatches(abbr: string)
    ensures !Contains(Upper(abbr), "CoA")
  {
    var u := Upper(abbr);
    assert forall i :: 0 <= i < |u| ==> u[i] != 'o';
    MissingChar(u, "CoA", 'o');
  }

  /** As written, the `CoA` keyword is dead: the rules behave as if it were not listed. */
  lemma CoaKeywordDead(abbr: string, definition: string)
    ensures CategorizeAsWritten(abbr, definition)
         == CategorizeWith(["QA", "QC", "CQA", "CPP", "OOS", "OOT", "QBD"], abbr, definition)
  {
    var u := Upper(abbr);
    var shorter := ["QA", "QC", "CQA", "CPP", "OOS", "OOT", "QBD"];
    CoaNeverMatches(abbr);
    if AnyIn(QualityKeysAsWritten, u) {
      var i :| 0 <= i < |QualityKeysAsWritten| && Contains(u, QualityKeysAsWritten[i]);
      assert i != 6;
      var j := if i < 6 then i else i - 1;
      assert shorter[j] == QualityKeysAsWritten[i];
    }
    if AnyIn(shorter, u) {
      var j :| 0 <= j < |shorter| && Contains(u, shorter[j]);
      var i := if j < 6 then j else j + 1;
      assert shorter[j] == QualityKeysAsWritten[i];
    }
  }

  /** A character of `sub` that `s` lacks rules the substring out. */
  lemma {:induction false} MissingChar(s: string, sub: string, c: char)
    requires c in sub && c !in s
    ensures !Contains(s, sub)
    decreases |s|
  {
    var k :| 0 <= k < |sub| && sub[k] == c;
    if k < |s| {
      assert s[k] != c;
    }
    assert !(sub <= s);
    if s != [] {
      MissingChar(s[1..], sub, c);
    }
  }

  lemma NoRegulatoryKey(u: string)
    requires 'G' !in u && 'F' !in u && 'E' !in u && 'I' !in u && 'N' !in u && 'B' !in u && 'M' !in u && 'T' !in u
    ensures !AnyIn(RegulatoryKeys, u)
  {
    MissingChar(u, "GMP", 'G'); MissingChar(u, "GLP", 'G'); MissingChar(u, "FDA", 'F');
    MissingChar(u, "EMA", 'E'); MissingChar(u, "IND", 'I'); MissingChar(u, "NDA", 'N');
    MissingChar(u, "BLA", 'B'); MissingChar(u, "MAA", 'M'); MissingChar(u, "CTD", 'T');
    MissingChar(u, "ICH", 'I');
  }

  lemma NoQualityKeyAsWritten(u: string)
    requires 'Q' !in u && 'P' !in u && 'S' !in u && 'T' !in u && 'o' !in u
    ensures !AnyIn(QualityKeysAsWritten, u)
  {
    MissingChar(u, "QA", 'Q'); MissingChar(u, "QC", 'Q'); MissingChar(u, "CQA", 'Q');
    MissingChar(u, "CPP", 'P'); MissingChar(u, "OOS", 'S'); MissingChar(u, "OOT", 'T');
    MissingChar(u, "CoA", 'o'); MissingChar(u, "QBD", 'Q');
  }

  lemma NoCellGeneKey(u: string)
    requires 'M' !in u && 'W' !in u && 'E' !in u && 'D' !in u && 'R' !in u && 'G' !in u
    ensures !AnyIn(CellGeneKeys, u)
  {
    MissingChar(u, "MCB", 'M'); MissingChar(u, "WCB", 'W'); MissingChar(u, "EOPCB", 'E');
    MissingChar(u, "DCB", 'D'); MissingChar(u, "CAR", 'R'); MissingChar(u, "CGT", 'G');
    MissingChar(u, "MVB", 'M');
  }

  lemma NoProcessKey(u: string)
    requires 'D' !in u && 'U' !in u && 'P' !in u && 'F' !in u
    ensures !AnyIn(ProcessKeys, u)
  {
    MissingChar(u, "DSP", 'D'); MissingChar(u, "USP", 'U'); MissingChar(u, "PPQ", 'P');
    MissingChar(u, "PV", 'P'); MissingChar(u, "DOE", 'D'); MissingChar(u, "PAR", 'P');
    MissingChar(u, "CPV", 'P'); MissingChar(u, "FMEA", 'F');
  }

  lemma NoClinicalOrAnalyticalKey(u: string)
    requires 'F' !in u && 'P' !in u && 'T' !in u && 'S' !in u && 'I' !in u && 'D' !in u && 'M' !in u
    ensures !AnyIn(ClinicalKeys, u) && !AnyIn(AnalyticalKeys, u)
  {
    MissingChar(u, "FIH", 'F'); MissingChar(u, "PK", 'P'); MissingChar(u, "CTA", 'T');
    MissingChar(u, "CSR", 'S'); MissingChar(u, "IDE", 'I');
    MissingChar(u, "AD", 'D'); MissingChar(u, "ATP", 'T'); MissingChar(u, "CMA", 'M');
    MissingChar(u, "TOE", 'T');
  }

  lemma NoDefinitionWord(d: string)
    requires 'l' !in d && 'm' !in d && 'o' !in d && 'd' !in d
    ensures !Contains(d, "clinical") && !Contains(d, "analytical") && !AnyIn(OrganizationWords, d)
  {
    MissingChar(d, "clinical", 'l'); MissingChar(d, "analytical", 'l');
    MissingChar(d, "team", 'm'); MissingChar(d, "committee", 'm'); MissingChar(d, "council", 'o');
    MissingChar(d, "department", 'd'); MissingChar(d, "organization", 'o');
  }

  /**
   * `CoA`, a certificate of analysis, falls through to the default category
   * as written; with `COA` listed it is a quality term.
   */
  lemma CoaCounterexample()
    ensures CategorizeAsWritten("CoA", "") == Process
    ensures Categorize("CoA", "") == Quality
  {
    CoaUpper();
    assert Lower("") == "";
    CoaCasedCategories();
  }

  lemma CoaUpper()
    ensures Upper("CoA") == "COA"
  {
    var u := Upper("CoA");
    assert u[0] == 'C' && u[1] == 'O' && u[2] == 'A';
  }

  lemma CoaCasedCategories()
    ensures CategorizeCased(QualityKeysAsWritten, "COA", "") == Process
    ensures CategorizeCased(QualityKeys, "COA", "") == Quality
  {
    var u := "COA";
    NoRegulatoryKey(u);
    NoQualityKeyAsWritten(u);
    NoCellGeneKey(u);
    NoProcessKey(u);
    NoClinicalOrAnalyticalKey(u);
    NoDefinitionWord("");
    assert Contains(u, QualityKeys[6]) by { assert QualityKeys[6] <= u; }
  }

  /** With `COA` listed, an abbreviation containing it and no regulatory keyword is a quality term. */
  lemma CoaIsQuality(abbr: string, definition: string)
    requires Contains(Upper(abbr), "COA") && !AnyIn(RegulatoryKeys, Upper(abbr))
    ensures Categorize(abbr, definition) == Quality
  {
    assert QualityKeys[6] == "COA";
  }

  // ---------------------------------------------------------------------
  // `is_critical_term`, `is_regulatory_term`
  // ---------------------------------------------------------------------

  const CriticalAbbrs: set<string> := {"CQA", "CPP", "CMA", "FIH", "PPQ", "GMP", "MCB", "WCB"}
  const RegulatoryAbbrs: set<string> :=
    {"GMP", "GLP", "FDA", "EMA", "IND", "NDA", "BLA", "MAA", "CTD", "ICH", "CTA", "IMPD"}

  predicate IsCritical(abbr: string) { Upper(abbr) in CriticalAbbrs }
  predicate IsRegulatory(abbr: string) { Upper(abbr) in RegulatoryAbbrs }

  /** Both tests ignore the letter case of the abbreviation. */
  lemma FlagsIgnoreCase(abbr: string)
    ensures IsCritical(Lower(abbr)) == IsCritical(abbr) && IsCritical(Upper(abbr)) == IsCritical(abbr)
    ensures IsRegulatory(Lower(abbr)) == IsRegulatory(abbr) && IsRegulatory(Upper(abbr)) == IsRegulatory(abbr)
  {
    UpperOfCased(abbr);
  }

  // ---------------------------------------------------------------------
  // `find_related_stage`
  // ---------------------------------------------------------------------

  const CellBanks: seq<string> := ["MCB", "WCB", "DCB", "EOPCB"]
  const LateStage: seq<string> := ["BLA", "MAA", "NDA"]

  /** `[f'ex:Stage-cgt-{i}' for i in range(0, 4)]` */
  function CellBankStages(): (r: seq<string>)
    ensures |r| == 4
  {
    seq(4, i requires 0 <= i < 4 => "ex:Stage-cgt-" + NatToString(i))
  }

  predicate FirstInHuman(abbr: string, definition: string) {
    Upper(abbr) == "FIH" || Contains(Lower(definition), "first in human")
  }

  /** The stage links, rule by rule in source order. */
  function RelatedStages(abbr: string, definition: string): seq<string> {
    var u := Upper(abbr);
    (if u == "PPQ" then ["ex:Stage-protein-11", "ex:Stage-cgt-11"] else [])
    + (if FirstInHuman(abbr, definition) then ["ex:Stage-protein-3", "ex:Stage-cgt-3"] else [])
    + (if u in CellBanks then CellBankStages() else [])
    + (if u in LateStage then ["ex:Stage-protein-12", "ex:Stage-cgt-12"] else [])
  }

  /** `find_related_stage(abbr, definition)`: the list it appends to. */
  method FindRelatedStage(abbr: string, definition: string) returns (stages: seq<string>)
    ensures stages == RelatedStages(abbr, definition)
  {
    stages := [];
    var u := Upper(abbr);
    var d := Lower(definition);
    if u == "PPQ" {
      stages := stages + ["ex:Stage-protein-11"];
      stages := stages + ["ex:Stage-cgt-11"];
    }
    if u == "FIH" || Contains(d, "first in human") {
      stages := stages + ["ex:Stage-protein-3"];
      stages := stages + ["ex:Stage-cgt-3"];
    }
    if u in CellBanks {
      stages := stages + CellBankStages();
    }
    if u in LateStage {
      stages := stages + ["ex:Stage-protein-12", "ex:Stage-cgt-12"];
    }
  }

  /**
   * The abbreviation rules exclude each other, so at most one of them adds
   * links, besides the first-in-human pair; nothing matches gives no links.
   */
  lemma RelatedStagesCount(abbr: string, definition: string)
    ensures |RelatedStages(abbr, definition)|
         == (if FirstInHuman(abbr, definition) then 2 else 0)
          + (if Upper(abbr) == "PPQ" || Upper(abbr) in LateStage then 2
             else if Upper(abbr) in CellBanks then 4 else 0)
    ensures |RelatedStages(abbr, definition)| <= 6
  {
    var u := Upper(abbr);
    assert u == "PPQ" ==> u !in CellBanks && u !in LateStage;
    assert u in CellBanks ==> u !in LateStage;
  }

  /** The cell-bank links are the four CGT stages 0 to 3. */
  lemma CellBankStagesValues()
    ensures CellBankStages() == ["ex:Stage-cgt-0", "ex:Stage-cgt-1", "ex:Stage-cgt-2", "ex:Stage-cgt-3"]
  {
    var r := CellBankStages();
    assert NatToString(0) == "0" && NatToString(1) == "1" && NatToString(2) == "2" && NatToString(3) == "3";
    assert r[0] == "ex:Stage-cgt-0" && r[1] == "ex:Stage-cgt-1" && r[2] == "ex:Stage-cgt-2" && r[3] == "ex:Stage-cgt-3";
  }

  // ---------------------------------------------------------------------
  // The per-row loop of `generate_lexicon_ttl`.
  // ---------------------------------------------------------------------

  /** `row.get(column, '')` */
  function Cell(row: Sheet.Row, column: string): string {
    if column in row then row[column] else ""
  }

  /** `f'{abbr} - {definition[:50]}...'` for a long definition, else the whole definition. */
  function Label(abbr: string, definition: string): string {
    if |definition| > 50 then abbr + " - " + definition[..50] + "..." else abbr + " - " + definition
  }

  /** A literal as the generator writes it (the multi-line branch leaves lone quotes raw). */
  function Lit(s: string): string { Turtle.EscapeLexiconAsWritten(Some(s)) }

  /**
   * What a kept row contributes apart from its identifier: the stripped
   * fields and the statement lines after the subject line. A skipped row has
   * an empty abbreviation or definition.
   */
  datatype Term = Term(abbr: string, definition: string, body: seq<string>, triples: nat)

  /** The predicate lines that follow `<id> a ex:DefinedTerm ;`. */
  function Body(abbr: string, definition: string): seq<string> {
    var related := RelatedStages(abbr, definition);
    [ "    ex:hasAbbreviation " + Lit(abbr) + " ;",
      "    ex:hasDefinition " + Lit(definition) + " ;",
      "    ex:hasTermCategory " + CategorizeAsWritten(abbr, definition) + " ;",
      "    skos:prefLabel " + Lit(abbr) + " ;",
      "    skos:definition " + Lit(definition) + " ;",
      "    skos:notation " + Lit(abbr) + " ;",
      "    skos:inScheme ex:LexiconScheme ;" ]
    + (if IsCritical(abbr) then ["    ex:isCritical true ;"] else [])
    + (if IsRegulatory(abbr) then ["    ex:isRegulatory true ;"] else [])
    + seq(|related|, i requires 0 <= i < |related| => "    ex:usedInStage " + related[i] + " ;")
    + ["    rdfs:label " + Lit(Label(abbr, definition)) + " ."]
  }

  /** `7 + [critical] + [regulatory] + len(related) + 1`, the counter's increment. */
  function Increment(abbr: string, definition: string): nat {
    7 + (if IsCritical(abbr) then 1 else 0) + (if IsRegulatory(abbr) then 1 else 0)
      + |RelatedStages(abbr, definition)| + 1
  }

  function TermOf(row: Sheet.Row): Term {
    var abbr := Strip(Cell(row, "Abbreviation & Nomenclature"));
    var definition := Strip(Cell(row, "Definition"));
    if abbr == "" || definition == "" then Term(abbr, definition, [], 0)
    else Term(abbr, definition, Body(abbr, definition), Increment(abbr, definition))
  }

  /** The rows' terms, one per row. */
  function Terms(rows: seq<Sheet.Row>): (ts: seq<Term>)
    ensures |ts| == |rows| && forall i :: 0 <= i < |rows| ==> ts[i] == TermOf(rows[i])
  {
    seq(|rows|, i requires 0 <= i < |rows| => TermOf(rows[i]))
  }

  predicate Kept(t: Term) { t.abbr != "" && t.definition != "" }

  /**
   * A term's block holds the subject line and one line per body entry, but
   * the counter adds only as many triples as there are body lines: it trails
   * the statements by one per term.
   */
  lemma BodyLength(abbr: string, definition: string)
    ensures |Body(abbr, definition)| == Increment(abbr, definition)
  {
  }

  predicate Counted(t: Term) { Kept(t) ==> |t.body| == t.triples }

  lemma TermOfCounted(row: Sheet.Row)
    ensures Counted(TermOf(row))
  {
    BodyLength(Strip(Cell(row, "Abbreviation & Nomenclature")), Strip(Cell(row, "Definition")));
  }

  /** The loop's variables: the output lines so far, the two counters and the identifier dictionary. */
  datatype LexState = LexState(lines: seq<string>, terms: nat, triples: nat, ids: Gupri.Mappings)

  /** The lines of one kept term: comment, subject, predicates, blank. */
  function Block(t: Term, id: string): seq<string> {
    ["### Term: " + t.abbr, id + " a ex:DefinedTerm ;"] + t.body + [""]
  }

  function LexStep(st: LexState, t: Term, uuid5: string -> string): LexState {
    if !Kept(t) then st
    else
      var r := Gupri.Resolve(st.ids, TermKey(t.abbr), TermGupri(t.abbr, uuid5(TermKey(t.abbr))));
      LexState(st.lines + Block(t, r.0), st.terms + 1, st.triples + t.triples, r.1)
  }

  function LexRun(ts: seq<Term>, m0: Gupri.Mappings, uuid5: string -> string): LexState
    decreases |ts|
  {
    if ts == [] then LexState([], 0, 0, m0)
    else LexStep(LexRun(ts[..|ts| - 1], m0, uuid5), ts[|ts| - 1], uuid5)
  }

  /** The number of kept terms. */
  function KeptCount(ts: seq<Term>): nat {
    if ts == [] then 0 else KeptCount(ts[..|ts| - 1]) + (if Kept(ts[|ts| - 1]) then 1 else 0)
  }

  /**
   * The term counter counts the kept rows; every term adds three lines
   * beyond its counted triples (comment, subject, blank); no identifier
   * already in the dictionary changes.
   */
  lemma {:induction false} LexRunCounts(ts: seq<Term>, m0: Gupri.Mappings, uuid5: string -> string)
    requires forall i :: 0 <= i < |ts| ==> Counted(ts[i])
    ensures LexRun(ts, m0, uuid5).terms == KeptCount(ts)
    ensures |LexRun(ts, m0, uuid5).lines| == LexRun(ts, m0, uuid5).triples + 3 * LexRun(ts, m0, uuid5).terms
    ensures Gupri.Extends(m0, LexRun(ts, m0, uuid5).ids)
    decreases |ts|
  {
    if ts != [] {
      var n := |ts| - 1;
      LexRunCounts(ts[..n], m0, uuid5);
    }
  }

  /** The header, with the placeholder at index 11. */
  function Header(csvName: string, now: string): (h: seq<string>)
    ensures |h| == 14
  {
    [ "@prefix ex: <https://w3id.org/cmc-stagegate#> .",
      "@prefix rdfs: <http://www.w3.org/2000/01/rdf-schema#> .",
      "@prefix skos: <http://www.w3.org/2004/02/skos/core#> .",
      "@prefix xsd: <http://www.w3.org/2001/XMLSchema#> .",
      "@prefix dcterms: <http://purl.org/dc/terms/> .",
      "@prefix owl: <http://www.w3.org/2002/07/owl#> .",
      "",
      "#################################################################",
      "#    Lexicon Instance Data",
      "#    Generated from: " + csvName,
      "#    Generated on: " + now,
      "#    Total terms: Will be counted after processing",
      "#################################################################",
      "" ]
  }

  /** `ttl_lines[11] = …` then `ttl_lines.insert(12, …)`. */
  function WithStatistics(lines: seq<string>, terms: nat, triples: nat): (r: seq<string>)
    requires |lines| >= 12
    ensures |r| == |lines| + 1 && r[..11] == lines[..11] && r[13..] == lines[12..]
    ensures r[11] == "#    Total terms: " + NatToString(terms)
    ensures r[12] == "#    Total triples: " + NatToString(triples)
  {
    lines[..11] + ["#    Total terms: " + NatToString(terms), "#    Total triples: " + NatToString(triples)] + lines[12..]
  }

  /** One iteration of the row loop. */
  method TermStep(t: Term, cache: TermIds, lines: seq<string>, terms: nat, triples: nat)
    returns (lines': seq<string>, terms': nat, triples': nat)
    modifies cache
    ensures LexState(lines', terms', triples', cache.mappings)
         == LexStep(LexState(lines, terms, triples, old(cache.mappings)), t, cache.uuid5)
  {
    lines', terms', triples' := lines, terms, triples;
    if t.abbr == "" || t.definition == "" {
      return;
    }
    terms' := terms + 1;
    var id := cache.GenerateLexiconGupri(t.abbr);
    lines' := lines + Block(t, id);
    triples' := triples + t.triples;
  }

  /** The row loop of `generate_lexicon_ttl`, over the rows' terms. */
  method EmitTerms(ts: seq<Term>, cache: TermIds) returns (lines: seq<string>, termCount: nat, tripleCount: nat)
    modifies cache
    ensures LexState(lines, termCount, tripleCount, cache.mappings) == LexRun(ts, old(cache.mappings), cache.uuid5)
  {
    ghost var m0 := cache.mappings;
    lines := [];
    termCount, tripleCount := 0, 0;
    for i := 0 to |ts|
      invariant LexState(lines, termCount, tripleCount, cache.mappings) == LexRun(ts[..i], m0, cache.uuid5)
    {
      assert ts[..i + 1][..i] == ts[..i];
      lines, termCount, tripleCount := TermStep(ts[i], cache, lines, termCount, tripleCount);
    }
    assert ts[..|ts|] == ts;
  }

  /** The text written: the header with the statistics patched in, then the term lines. */
  function Document(csvName: string, now: string, run: LexState): string {
    Join("\n", WithStatistics(Header(csvName, now) + run.lines, run.terms, run.triples))
  }

  /**
   * `generate_lexicon_ttl` over the CSV rows: the text written, the two
   * counters, and the identifier dictionary afterwards.
   */
  method GenerateLexiconTtl(rows: seq<Sheet.Row>, csvName: string, now: string, cache: TermIds)
    returns (ttl: string, termCount: nat, tripleCount: nat)
    modifies cache
    ensures var run := LexRun(Terms(rows), old(cache.mappings), cache.uuid5);
      termCount == run.terms && tripleCount == run.triples && cache.mappings == run.ids
      && ttl == Document(csvName, now, run)
  {
    var ts := Terms(rows);
    var lines;
    lines, termCount, tripleCount := EmitTerms(ts, cache);
    ttl := Document(csvName, now, LexState(lines, termCount, tripleCount, cache.mappings));
  }

  /**
   * The counters of a run over real rows: terms are the kept rows, and the
   * term lines number the counted triples plus three per term.
   */
  lemma GeneratedCounts(rows: seq<Sheet.Row>, m0: Gupri.Mappings, uuid5: string -> string)
    ensures LexRun(Terms(rows), m0, uuid5).terms == KeptCount(Terms(rows))
    ensures |LexRun(Terms(rows), m0, uuid5).lines|
         == LexRun(Terms(rows), m0, uuid5).triples + 3 * LexRun(Terms(rows), m0, uuid5).terms
  {
    var ts := Terms(rows);
    forall i | 0 <= i < |ts| ensures Counted(ts[i]) {
      TermOfCounted(rows[i]);
    }
    LexRunCounts(ts, m0, uuid5);
  }
}
