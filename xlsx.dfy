/**
 * The file naming of extract_xlsx.py (and its identical copy under
 * scripts/etl): workbook and sheet names are sanitised for use in file
 * names, each sheet is written to `<workbook>__<sheet>.csv`, and the combined
 * table recovers workbook and sheet by splitting the file stem on the first
 * `__`.
 */
module Xlsx {
  import opened Text
  import Slug

  /** The characters `[A-Za-z0-9._-]` that survive sanitising. */
  predicate SafeChar(c: char) { IsAlnum(c) || c == '.' || c == '_' || c == '-' }

  predicate Unsafe(c: char) { !SafeChar(c) }

  /** The characters stripped from both ends after the replacement. */
  predicate DotOrUnderscore(c: char) { c == '.' || c == '_' }

  /** A letter, a digit or a dash: a character the end strip never removes. */
  predicate Kept(c: char) { IsAlnum(c) || c == '-' }

  predicate NotKept(c: char) { !Kept(c) }

  /** `re.sub(r"[^A-Za-z0-9._-]+", "_", name).strip("._")` */
  function Survivors(name: string): string {
    Trim(Slug.CollapseRuns(name, Unsafe, '_'), DotOrUnderscore)
  }

  /** `sanitize_for_filename`: the survivors, or `sheet` when none survive. */
  function Sanitize(name: string): (r: string)
    ensures r != [] && All(r, SafeChar)
    ensures !DotOrUnderscore(r[0]) && !DotOrUnderscore(r[|r| - 1])
  {
    var t := Slug.CollapseRuns(name, Unsafe, '_');
    TrimKeeps(t, DotOrUnderscore, SafeChar);
    var s := Survivors(name);
    if s == [] then "sheet" else s
  }

  /** Sanitising a sanitised name returns it unchanged. */
  lemma SanitizeIdempotent(name: string)
    ensures Sanitize(Sanitize(name)) == Sanitize(name)
  {
    var r := Sanitize(name);
    Slug.CollapseFixpoint(r, Unsafe, '_');
    TrimNoop(r, DotOrUnderscore);
  }

  /**
   * Nothing survives exactly when the name has no letter, digit or dash; the
   * result is then the fallback `sheet`, and otherwise the survivors.
   */
  lemma SanitizeFallback(name: string)
    ensures Survivors(name) == [] <==> All(name, NotKept)
    ensures All(name, NotKept) ==> Sanitize(name) == "sheet"
    ensures !All(name, NotKept) ==> Sanitize(name) == Survivors(name)
  {
    var t := Slug.CollapseRuns(name, Unsafe, '_');
    if All(name, NotKept) {
      Slug.CollapseKeeps(name, Unsafe, '_', NotKept);
    } else {
      var i :| 0 <= i < |name| && Kept(name[i]);
      var k := CollapseShowsKept(name, i);
      assert !NotKept(t[k]);
    }
    assert All(t, SafeChar) by {
      forall i | 0 <= i < |t| ensures SafeChar(t[i]) { }
    }
    TrimEmpty(t);
  }

  /** A letter, digit or dash in the name is still there after the replacement, at index `k`. */
  lemma {:induction false} CollapseShowsKept(s: string, i: nat) returns (k: nat)
    requires i < |s| && Kept(s[i])
    ensures k < |Slug.CollapseRuns(s, Unsafe, '_')| && Slug.CollapseRuns(s, Unsafe, '_')[k] == s[i]
    decreases |s|
  {
    var r := Slug.CollapseRuns(s, Unsafe, '_');
    if i == 0 {
      k := 0;
    } else if Unsafe(s[0]) {
      var t := TrimLeft(s[1..], Unsafe);
      assert s[1..][i - 1] == s[i];
      var j := TrimLeftIndex(s[1..], Unsafe, i - 1);
      var k' := CollapseShowsKept(t, j);
      assert r == ['_'] + Slug.CollapseRuns(t, Unsafe, '_');
      k := k' + 1;
    } else {
      assert s[1..][i - 1] == s[i];
      var k' := CollapseShowsKept(s[1..], i - 1);
      assert r == [s[0]] + Slug.CollapseRuns(s[1..], Unsafe, '_');
      k := k' + 1;
    }
  }

  /** A character the left strip does not remove is still there after it, at index `j`. */
  lemma TrimLeftIndex(s: string, cs: char -> bool, i: nat) returns (j: nat)
    requires i < |s| && !cs(s[i])
    ensures j < |TrimLeft(s, cs)| && TrimLeft(s, cs)[j] == s[i]
  {
    TrimLeftStops(s, cs, i);
    j := i - (|s| - |TrimLeft(s, cs)|);
  }

  /** The left strip stops at or before the first character it does not strip. */
  lemma TrimLeftStops(s: string, cs: char -> bool, i: nat)
    requires i < |s| && !cs(s[i])
    ensures |s| - |TrimLeft(s, cs)| <= i
  {
  }

  /** Over safe characters, the end strip leaves nothing exactly when no letter, digit or dash is present. */
  lemma TrimEmpty(t: string)
    requires All(t, SafeChar)
    ensures Trim(t, DotOrUnderscore) == [] <==> All(t, NotKept)
  {
    var l := TrimLeft(t, DotOrUnderscore);
    var r := Trim(t, DotOrUnderscore);
    if r == [] {
      assert l == [];
      forall i | 0 <= i < |t| ensures NotKept(t[i]) {
        assert DotOrUnderscore(t[i]);
      }
    } else {
      var a := |t| - |l|;
      assert r[0] == t[a];
    }
  }

  // ---------------------------------------------------------------------
  // The `<workbook>__<sheet>` naming and its split.
  // ---------------------------------------------------------------------

  /** The stem of the CSV written for a sheet: `f"{workbook_stem}__{safe_sheet}"`. */
  function SheetStem(workbook: string, sheet: string): string {
    Sanitize(workbook) + "__" + Sanitize(sheet)
  }

  /** `stem.split("__", 1)` for a stem that contains `__`: the parts before and after its first occurrence. */
  function SplitFirst(s: string): (string, string)
    decreases |s|
  {
    if |s| < 2 then (s, "")
    else if s[0] == '_' && s[1] == '_' then ("", s[2..])
    else
      var p := SplitFirst(s[1..]);
      ([s[0]] + p.0, p.1)
  }

  /** The workbook and sheet the combined table infers from a file stem. */
  function StemParts(stem: string): (string, string) {
    if Contains(stem, "__") then SplitFirst(stem) else (stem, "")
  }

  /** No two neighbouring underscores. */
  predicate NoDoubleUnderscore(s: string) {
    forall i :: 0 <= i < |s| - 1 ==> !(s[i] == '_' && s[i + 1] == '_')
  }

  /** Splitting `a + "__" + b` on the first `__` gives back `a` and `b` when `a` has no `__` and does not end in `_`. */
  lemma {:induction false} SplitFirstJoin(a: string, b: string)
    requires NoDoubleUnderscore(a) && (a == [] || a[|a| - 1] != '_')
    ensures SplitFirst(a + "__" + b) == (a, b)
    decreases |a|
  {
    var s := a + "__" + b;
    if a == [] {
      assert s[2..] == b;
    } else {
      assert !(s[0] == '_' && s[1] == '_') by {
        if |a| >= 2 { assert s[1] == a[1]; }
      }
      assert s[1..] == a[1..] + "__" + b;
      assert NoDoubleUnderscore(a[1..]) by {
        forall i | 0 <= i < |a[1..]| - 1 ensures !(a[1..][i] == '_' && a[1..][i + 1] == '_') {
          assert a[1..][i] == a[i + 1] && a[1..][i + 1] == a[i + 2];
        }
      }
      SplitFirstJoin(a[1..], b);
      assert [s[0]] + a[1..] == a;
    }
  }

  /** The combined table recovers the sanitised workbook and sheet whenever the workbook part has no `__`. */
  lemma NamingRoundTrip(workbook: string, sheet: string)
    requires NoDoubleUnderscore(Sanitize(workbook))
    ensures StemParts(SheetStem(workbook, sheet)) == (Sanitize(workbook), Sanitize(sheet))
  {
    var a, b := Sanitize(workbook), Sanitize(sheet);
    var s := a + "__" + b;
    assert s[|a|..|a| + 2] == "__";
    ContainsAt(s, "__", |a|);
    SplitFirstJoin(a, b);
  }

  /** A name made of safe characters that neither starts nor ends with `.` or `_` is its own sanitised form. */
  lemma SanitizeClean(s: string)
    requires s != [] && All(s, SafeChar)
    requires !DotOrUnderscore(s[0]) && !DotOrUnderscore(s[|s| - 1])
    ensures Sanitize(s) == s
  {
    Slug.CollapseFixpoint(s, Unsafe, '_');
    TrimNoop(s, DotOrUnderscore);
  }

  /** `"a__b__c".split("__", 1)` */
  lemma SplitAtFirst()
    ensures StemParts("a__b__c") == ("a", "b__c")
  {
    var s := "a__b__c";
    assert s[1..3] == "__";
    ContainsAt(s, "__", 1);
    assert s[1..] == "__b__c";
    assert SplitFirst(s[1..]) == ("", "b__c");
    assert s[0] == 'a' && s[1] == '_';
    assert SplitFirst(s) == ([s[0]] + SplitFirst(s[1..]).0, SplitFirst(s[1..]).1);
    assert [s[0]] + "" == "a";
  }

  /** A workbook name with `__` of its own is split at that `__`. */
  lemma NamingAmbiguous()
    ensures Sanitize("a__b") == "a__b" && Sanitize("c") == "c"
    ensures StemParts(SheetStem("a__b", "c")) == ("a", "b__c")
  {
    SanitizeClean("a__b");
    SanitizeClean("c");
    assert SheetStem("a__b", "c") == "a__b__c";
    SplitAtFirst();
  }
}
