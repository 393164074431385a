/**
 * The gist alignment check (validate_gist_alignment.py): the classes and
 * properties a base ontology declares, the ones an alignment file maps to
 * gist, the issues reported when a mapped name is not declared in the base,
 * and the exit code.
 *
 * A Turtle file is given by the `ex:` statements the script's regular
 * expressions find in it: a local name and the kind of statement it heads.
 */
module Gist {

  /** The statement shapes the extraction patterns distinguish. */
  datatype Kind =
    | SubClassOfGist        // `ex:N rdfs:subClassOf gist:M`
    | SubClassOfBlank       // `ex:N rdfs:subClassOf [`
    | SubClassOfOther       // `ex:N rdfs:subClassOf` anything else
    | TypeClass             // `ex:N a owl:Class` or `ex:N a rdfs:Class`
    | SubPropertyOfGist     // `ex:N rdfs:subPropertyOf gist:M`
    | InverseOfGist         // `ex:N owl:inverseOf gist:M`
    | SubPropertyOfOther    // `ex:N rdfs:subPropertyOf` or `owl:inverseOf` anything else
    | TypeObjectProperty    // `ex:N a owl:ObjectProperty`
    | TypeOtherProperty     // `ex:N a owl:DatatypeProperty` or `ex:N a rdf:Property`

  /** One pattern match: the `ex:` local name and the statement it heads. */
  datatype Match = Match(name: string, kind: Kind)

  /** The base file's class patterns. */
  predicate DeclaresClass(k: Kind) {
    k.SubClassOfGist? || k.SubClassOfBlank? || k.SubClassOfOther? || k.TypeClass?
  }

  /** The base file's property patterns. */
  predicate DeclaresProperty(k: Kind) {
    k.SubPropertyOfGist? || k.InverseOfGist? || k.SubPropertyOfOther? ||
    k.TypeObjectProperty? || k.TypeOtherProperty?
  }

  /** The alignment file's class mapping pattern: a subclass of a gist class or of a restriction. */
  predicate MapsClass(k: Kind) { k.SubClassOfGist? || k.SubClassOfBlank? }

  /** The alignment file's property patterns, including every object property declaration. */
  predicate MapsProperty(k: Kind) { k.SubPropertyOfGist? || k.InverseOfGist? || k.TypeObjectProperty? }

  function Names(ms: seq<Match>, p: Kind -> bool): set<string> {
    set m | m in ms && p(m.kind) :: m.name
  }

  lemma NamesSnoc(ms: seq<Match>, i: nat, p: Kind -> bool)
    requires i < |ms|
    ensures Names(ms[..i + 1], p) == Names(ms[..i], p) + (if p(ms[i].kind) then {ms[i].name} else {})
  {
    assert ms[..i + 1] == ms[..i] + [ms[i]];
  }

  /** `extract_entities`: the names the base declares as classes and as properties. */
  method ExtractEntities(ms: seq<Match>) returns (classes: set<string>, properties: set<string>)
    ensures classes == Names(ms, DeclaresClass)
    ensures properties == Names(ms, DeclaresProperty)
  {
    classes, properties := {}, {};
    for i := 0 to |ms|
      invariant classes == Names(ms[..i], DeclaresClass)
      invariant properties == Names(ms[..i], DeclaresProperty)
    {
      NamesSnoc(ms, i, DeclaresClass);
      NamesSnoc(ms, i, DeclaresProperty);
      if DeclaresClass(ms[i].kind) {
        classes := classes + {ms[i].name};
      }
      if DeclaresProperty(ms[i].kind) {
        properties := properties + {ms[i].name};
      }
    }
    assert ms[..|ms|] == ms;
  }

  /** `extract_gist_mappings`: the names the alignment maps to gist. */
  method ExtractMappings(ms: seq<Match>) returns (classes: set<string>, properties: set<string>)
    ensures classes == Names(ms, MapsClass)
    ensures properties == Names(ms, MapsProperty)
  {
    classes, properties := {}, {};
    for i := 0 to |ms|
      invariant classes == Names(ms[..i], MapsClass)
      invariant properties == Names(ms[..i], MapsProperty)
    {
      NamesSnoc(ms, i, MapsClass);
      NamesSnoc(ms, i, MapsProperty);
      if MapsClass(ms[i].kind) {
        classes := classes + {ms[i].name};
      }
      if MapsProperty(ms[i].kind) {
        properties := properties + {ms[i].name};
      }
    }
    assert ms[..|ms|] == ms;
  }

  /** Every `ex:` name declared an object property in the alignment counts as mapped. */
  lemma ObjectPropertyIsMapped(ms: seq<Match>, name: string)
    requires Match(name, TypeObjectProperty) in ms
    ensures name in Names(ms, MapsProperty)
  {
    var m := Match(name, TypeObjectProperty);
    assert m in ms && MapsProperty(m.kind);
  }

  /** Whatever a file maps, it also declares: a file checked against itself has no issue. */
  lemma MappedAreDeclared(ms: seq<Match>)
    ensures Names(ms, MapsClass) <= Names(ms, DeclaresClass)
    ensures Names(ms, MapsProperty) <= Names(ms, DeclaresProperty)
  {
    forall n | n in Names(ms, MapsClass) ensures n in Names(ms, DeclaresClass) {
      var m :| m in ms && MapsClass(m.kind) && m.name == n;
      assert DeclaresClass(m.kind);
    }
    forall n | n in Names(ms, MapsProperty) ensures n in Names(ms, DeclaresProperty) {
      var m :| m in ms && MapsProperty(m.kind) && m.name == n;
      assert DeclaresProperty(m.kind);
    }
  }

  // ---------------------------------------------------------------------
  // The issues and the exit code
  // ---------------------------------------------------------------------

  /** A reported issue and the names it lists. */
  datatype Issue = MissingClasses(names: set<string>) | MissingProperties(names: set<string>)

  /** The property the alignment may define itself. */
  const LegitimateNew: set<string> := {"lotOf"}

  /** The set logic of `validate_alignment`. */
  function Issues(baseClasses: set<string>, baseProperties: set<string>,
                  mappedClasses: set<string>, mappedProperties: set<string>): (r: seq<Issue>)
    ensures |r| <= 2
    ensures forall k :: 0 <= k < |r| ==> r[k].names != {}
    ensures |r| == 2 ==> r[0].MissingClasses? && r[1].MissingProperties?
  {
    var missingClasses := mappedClasses - baseClasses;
    var actualMissing := mappedProperties - baseProperties - LegitimateNew;
    (if missingClasses != {} then [MissingClasses(missingClasses)] else []) +
    (if actualMissing != {} then [MissingProperties(actualMissing)] else [])
  }

  /** No issue exactly when every mapped class is a base class and every mapped property a base property or `lotOf`. */
  lemma NoIssuesIff(baseClasses: set<string>, baseProperties: set<string>,
                    mappedClasses: set<string>, mappedProperties: set<string>)
    ensures Issues(baseClasses, baseProperties, mappedClasses, mappedProperties) == [] <==>
            mappedClasses <= baseClasses && mappedProperties <= baseProperties + LegitimateNew
  {
    var missingClasses := mappedClasses - baseClasses;
    var actualMissing := mappedProperties - baseProperties - LegitimateNew;
    if !(mappedClasses <= baseClasses) {
      var n :| n in mappedClasses && n !in baseClasses;
      assert n in missingClasses;
    }
    if !(mappedProperties <= baseProperties + LegitimateNew) {
      var n :| n in mappedProperties && n !in baseProperties + LegitimateNew;
      assert n in actualMissing;
    }
  }

  /** Each issue names exactly the mapped names the base lacks. */
  lemma IssueNames(baseClasses: set<string>, baseProperties: set<string>,
                   mappedClasses: set<string>, mappedProperties: set<string>, n: string)
    ensures var r := Issues(baseClasses, baseProperties, mappedClasses, mappedProperties);
            (n in mappedClasses && n !in baseClasses <==> exists k :: 0 <= k < |r| && r[k].MissingClasses? && n in r[k].names) &&
            (n in mappedProperties && n !in baseProperties && n != "lotOf" <==>
               exists k :: 0 <= k < |r| && r[k].MissingProperties? && n in r[k].names)
  {
    var r := Issues(baseClasses, baseProperties, mappedClasses, mappedProperties);
    var missingClasses := mappedClasses - baseClasses;
    var actualMissing := mappedProperties - baseProperties - LegitimateNew;
    if n in missingClasses {
      assert r[0] == MissingClasses(missingClasses);
    }
    if n in actualMissing {
      assert r[|r| - 1] == MissingProperties(actualMissing);
    }
  }

  /**
   * `main`: 1 when the base or the alignment file is missing; otherwise the
   * alignment is validated, and the code is 0 exactly when there is no issue.
   */
  method ValidateFiles(baseFound: bool, alignFound: bool, base: seq<Match>, align: seq<Match>) returns (code: int, issues: seq<Issue>)
    ensures !baseFound || !alignFound ==> code == 1 && issues == []
    ensures baseFound && alignFound ==>
              var bc := Names(base, DeclaresClass);
              var bp := Names(base, DeclaresProperty);
              var mc := Names(align, MapsClass);
              var mp := Names(align, MapsProperty);
              issues == Issues(bc, bp, mc, mp) &&
              (code == 0 <==> mc <= bc && mp <= bp + LegitimateNew) &&
              (code == 0 || code == 1)
  {
    var found := [baseFound, alignFound];
    for k := 0 to 2
      invariant forall j :: 0 <= j < k ==> found[j]
    {
      if !found[k] {
        return 1, [];
      }
    }
    assert found[0] && found[1];
    var bc, bp := ExtractEntities(base);
    var mc, mp := ExtractMappings(align);
    issues := Issues(bc, bp, mc, mp);
    NoIssuesIff(bc, bp, mc, mp);
    code := if issues == [] then 0 else 1;
  }

  /** Checking a file against itself never reports an issue. */
  lemma SelfAlignmentPasses(ms: seq<Match>)
    ensures Issues(Names(ms, DeclaresClass), Names(ms, DeclaresProperty), Names(ms, MapsClass), Names(ms, MapsProperty)) == []
  {
    MappedAreDeclared(ms);
    NoIssuesIff(Names(ms, DeclaresClass), Names(ms, DeclaresProperty), Names(ms, MapsClass), Names(ms, MapsProperty));
  }
}
