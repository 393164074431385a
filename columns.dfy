/**
 * The column profiler (scripts/etl/analyze_columns.py): the per-column
 * summary (`summarize_column`) and the loader that reads a CSV whose second
 * record holds the headers into one list of values per header
 * (`load_csv_columns_second_row_headers`).
 */
module Columns {
  import opened Text
  import opened Wrappers
  import Sheet

  // ---------------------------------------------------------------------
  // Filters
  // ---------------------------------------------------------------------

  /** `[v for v in s if p(v)]` */
  function Filter(s: seq<string>, p: string -> bool): (r: seq<string>)
    ensures |r| <= |s|
  {
    if s == [] then [] else (if p(s[0]) then [s[0]] else []) + Filter(s[1..], p)
  }

  /** The kept values are those satisfying `p`, each as often as it occurs. */
  lemma {:induction false} FilterCount(s: seq<string>, p: string -> bool, v: string)
    ensures multiset(Filter(s, p))[v] == if p(v) then multiset(s)[v] else 0
  {
    if s != [] {
      FilterCount(s[1..], p, v);
      assert multiset(s) == multiset{s[0]} + multiset(s[1..]) by {
        assert s == [s[0]] + s[1..];
      }
    }
  }

  predicate NonBlank(v: string) { Strip(v) != "" }

  predicate HasComma(v: string) { ',' in v }

  /** `[v for v in values if (v or "").strip() != ""]` */
  function NonEmpty(values: seq<string>): seq<string> {
    Filter(values, NonBlank)
  }

  /** `[v for v in vals if "," in v]` */
  function WithCommas(vals: seq<string>): seq<string> {
    Filter(vals, HasComma)
  }

  /** A set drawn from a sequence is no larger than the sequence. */
  lemma {:induction false} SetSize<T>(s: seq<T>)
    ensures |set x | x in s| <= |s|
  {
    if s != [] {
      var n := |s| - 1;
      SetSize(s[..n]);
      assert (set x | x in s) == (set x | x in s[..n]) + {s[n]} by {
        assert s == s[..n] + [s[n]];
      }
    }
  }

  // ---------------------------------------------------------------------
  // `Counter(...).most_common(5)`
  // ---------------------------------------------------------------------

  /** Counts do not increase along `s`. */
  predicate ByCount(s: seq<string>, m: multiset<string>) {
    forall i, j :: 0 <= i < j < |s| ==> m[s[i]] >= m[s[j]]
  }

  /** Places `x` after every element counted at least as often: ties keep arrival order. */
  function Insert(x: string, s: seq<string>, m: multiset<string>): seq<string> {
    if s == [] || m[s[0]] < m[x] then [x] + s else [s[0]] + Insert(x, s[1..], m)
  }

  lemma {:induction false} InsertCount(x: string, s: seq<string>, m: multiset<string>)
    ensures multiset(Insert(x, s, m)) == multiset(s) + multiset{x}
  {
    if s != [] && m[s[0]] >= m[x] {
      InsertCount(x, s[1..], m);
      assert s == [s[0]] + s[1..];
    }
  }

  /** Whatever `Insert` places after the head is counted no more often than it. */
  lemma InsertBelowHead(x: string, s: seq<string>, m: multiset<string>, y: string)
    requires ByCount(s, m) && s != [] && m[s[0]] >= m[x]
    requires y in Insert(x, s[1..], m)
    ensures m[s[0]] >= m[y]
  {
    InsertCount(x, s[1..], m);
    assert y in multiset(Insert(x, s[1..], m));
    if y != x {
      assert y in multiset(s[1..]);
      var p :| 0 <= p < |s[1..]| && s[1..][p] == y;
      assert s[p + 1] == y;
    }
  }

  lemma {:induction false} InsertSorted(x: string, s: seq<string>, m: multiset<string>)
    requires ByCount(s, m)
    ensures ByCount(Insert(x, s, m), m)
  {
    var r := Insert(x, s, m);
    if s == [] {
    } else if m[s[0]] < m[x] {
      forall i, j | 0 <= i < j < |r| ensures m[r[i]] >= m[r[j]] {
        if i > 0 { assert r[i] == s[i - 1]; }
        assert r[j] == s[j - 1];
      }
    } else {
      var t := Insert(x, s[1..], m);
      assert ByCount(s[1..], m) by {
        forall i, j | 0 <= i < j < |s[1..]| ensures m[s[1..][i]] >= m[s[1..][j]] {
          assert s[1..][i] == s[i + 1] && s[1..][j] == s[j + 1];
        }
      }
      InsertSorted(x, s[1..], m);
      forall i, j | 0 <= i < j < |r| ensures m[r[i]] >= m[r[j]] {
        assert r[j] == t[j - 1];
        if i > 0 {
          assert r[i] == t[i - 1];
        } else {
          InsertBelowHead(x, s, m, t[j - 1]);
        }
      }
    }
  }

  /** The values, most common first, ties in their order in `s`. */
  function SortByCount(s: seq<string>, m: multiset<string>): seq<string> {
    if s == [] then [] else Insert(s[|s| - 1], SortByCount(s[..|s| - 1], m), m)
  }

  lemma {:induction false} SortByCountSpec(s: seq<string>, m: multiset<string>)
    ensures ByCount(SortByCount(s, m), m) && multiset(SortByCount(s, m)) == multiset(s)
  {
    if s != [] {
      var n := |s| - 1;
      SortByCountSpec(s[..n], m);
      InsertSorted(s[n], SortByCount(s[..n], m), m);
      InsertCount(s[n], SortByCount(s[..n], m), m);
      assert s == s[..n] + [s[n]];
    }
  }

  /** The `k` most common values, most common first. */
  function Top(values: seq<string>, k: nat): (top: seq<string>)
    ensures |top| <= k
  {
    var order := SortByCount(Distinct(values), multiset(values));
    if |order| <= k then order else order[..k]
  }

  /** The `(value, count)` pairs of the `k` most common values. */
  function MostCommon(values: seq<string>, k: nat): (r: seq<(string, nat)>)
    ensures |r| <= k
  {
    var top := Top(values, k);
    seq(|top|, i requires 0 <= i < |top| => (top[i], multiset(values)[top[i]]))
  }

  /** The listed values occur in the input and differ from one another; counts do not increase. */
  lemma TopListed(values: seq<string>, k: nat)
    ensures var top := Top(values, k);
            (forall i :: 0 <= i < |top| ==> top[i] in values) &&
            (forall i, j :: 0 <= i < j < |top| ==> top[i] != top[j] && multiset(values)[top[i]] >= multiset(values)[top[j]])
  {
    var m := multiset(values);
    var d := Distinct(values);
    var order := SortByCount(d, m);
    var top := Top(values, k);
    SortByCountSpec(d, m);
    forall i | 0 <= i < |top| ensures top[i] in values {
      assert top[i] == order[i] && order[i] in multiset(order);
    }
    forall i, j | 0 <= i < j < |top| ensures top[i] != top[j] && m[top[i]] >= m[top[j]] {
      assert top[i] == order[i] && top[j] == order[j];
      DistinctOrder(d, order, i, j);
    }
  }

  /** A value left out only when `k` values are listed, each at least as common. */
  lemma TopCovers(values: seq<string>, k: nat, v: string)
    requires v in values && v !in Top(values, k)
    ensures |Top(values, k)| == k
    ensures forall i :: 0 <= i < k ==> multiset(values)[Top(values, k)[i]] >= multiset(values)[v]
  {
    var m := multiset(values);
    var d := Distinct(values);
    var order := SortByCount(d, m);
    SortByCountSpec(d, m);
    assert v in multiset(order) by { assert v in d; }
    var p :| 0 <= p < |order| && order[p] == v;
    assert |order| > k && p >= k;
  }

  /**
   * `most_common(k)`: distinct values, each with its number of occurrences,
   * counts non-increasing; when a value is left out, `k` values are listed
   * and none of them occurs less often than it.
   */
  lemma MostCommonSpec(values: seq<string>, k: nat)
    ensures var r := MostCommon(values, k);
            (forall i :: 0 <= i < |r| ==> r[i].0 in values && r[i].1 == multiset(values)[r[i].0] && r[i].1 > 0) &&
            (forall i, j :: 0 <= i < j < |r| ==> r[i].1 >= r[j].1 && r[i].0 != r[j].0) &&
            (forall v :: v in values && (forall i :: 0 <= i < |r| ==> r[i].0 != v) ==>
               |r| == k && forall i :: 0 <= i < |r| ==> r[i].1 >= multiset(values)[v])
  {
    var r := MostCommon(values, k);
    var top := Top(values, k);
    TopListed(values, k);
    forall v | v in values && (forall i :: 0 <= i < |r| ==> r[i].0 != v)
      ensures |r| == k && forall i :: 0 <= i < |r| ==> r[i].1 >= multiset(values)[v]
    {
      assert v !in top by {
        forall i | 0 <= i < |top| ensures top[i] != v {
          assert r[i].0 == top[i];
        }
      }
      TopCovers(values, k, v);
    }
  }

  /** A reordering of distinct elements has distinct elements. */
  lemma DistinctOrder(d: seq<string>, order: seq<string>, i: nat, j: nat)
    requires forall a, b :: 0 <= a < b < |d| ==> d[a] != d[b]
    requires multiset(order) == multiset(d) && i < j < |order|
    ensures order[i] != order[j]
  {
    if order[i] == order[j] {
      var x := order[i];
      assert multiset(order)[x] >= 2 by {
        assert order == order[..j] + [x] + order[j + 1..];
        assert x in order[..j] by { assert order[..j][i] == x; }
      }
      DistinctCountOne(d, x);
    }
  }

  lemma {:induction false} DistinctCountOne(d: seq<string>, x: string)
    requires forall a, b :: 0 <= a < b < |d| ==> d[a] != d[b]
    ensures multiset(d)[x] <= 1
  {
    if d != [] {
      var n := |d| - 1;
      assert d == d[..n] + [d[n]];
      DistinctCountOne(d[..n], x);
      if d[n] == x {
        assert x !in d[..n] by {
          forall a | 0 <= a < n ensures d[..n][a] != x { assert d[..n][a] == d[a]; }
        }
      }
    }
  }

  // ---------------------------------------------------------------------
  // Comma-separated values
  // ---------------------------------------------------------------------

  /** `[p.strip() for p in parts if p.strip()]` */
  function StrippedParts(parts: seq<string>): (r: seq<string>)
    ensures |r| <= |parts|
  {
    if parts == [] then []
    else
      var n := |parts| - 1;
      StrippedParts(parts[..n]) + (if Strip(parts[n]) != "" then [Strip(parts[n])] else [])
  }

  /** The stripped characters come from the input. */
  lemma StripWithin(s: string, c: char)
    requires c !in s
    ensures c !in Strip(s)
  {
    var a := |s| - |TrimLeft(s, IsSpace)|;
    var r := Strip(s);
    forall i | 0 <= i < |r| ensures r[i] != c { assert r[i] == s[a + i]; }
  }

  /** Stripping twice is stripping once. */
  lemma StripIdempotent(s: string)
    ensures Strip(Strip(s)) == Strip(s)
  {
    TrimNoop(Strip(s), IsSpace);
  }

  /** A trimmed, non-empty piece without a comma. */
  predicate CleanPart(p: string) {
    p != "" && Strip(p) == p && ',' !in p
  }

  predicate AllClean(ps: seq<string>) {
    forall i :: 0 <= i < |ps| ==> CleanPart(ps[i])
  }

  lemma AllCleanConcat(a: seq<string>, b: seq<string>)
    requires AllClean(a) && AllClean(b)
    ensures AllClean(a + b)
  {
    forall i | 0 <= i < |a + b| ensures CleanPart((a + b)[i]) {
      if i < |a| { assert (a + b)[i] == a[i]; } else { assert (a + b)[i] == b[i - |a|]; }
    }
  }

  /** A non-blank piece without a comma strips to a clean part. */
  lemma StripClean(p: string)
    requires ',' !in p && Strip(p) != ""
    ensures CleanPart(Strip(p))
  {
    StripIdempotent(p);
    StripWithin(p, ',');
  }

  lemma {:induction false} StrippedPartsClean(parts: seq<string>)
    requires forall i :: 0 <= i < |parts| ==> ',' !in parts[i]
    ensures AllClean(StrippedParts(parts))
  {
    if parts != [] {
      var n := |parts| - 1;
      assert forall i :: 0 <= i < n ==> ',' !in parts[..n][i] by {
        forall i | 0 <= i < n ensures ',' !in parts[..n][i] { assert parts[..n][i] == parts[i]; }
      }
      StrippedPartsClean(parts[..n]);
      var last := if Strip(parts[n]) != "" then [Strip(parts[n])] else [];
      assert AllClean(last) by {
        if last != [] { StripClean(parts[n]); }
      }
      AllCleanConcat(StrippedParts(parts[..n]), last);
    }
  }

  /** The non-empty stripped comma parts of one value. */
  function Parts(v: string): seq<string> {
    StrippedParts(Split(v, ','))
  }

  /** The loop over `with_commas[:5]`: each value's first five parts, when it has any. */
  function MultiValueExamples(withCommas: seq<string>): (r: seq<seq<string>>)
    ensures |r| <= |withCommas|
  {
    if withCommas == [] then []
    else
      var n := |withCommas| - 1;
      var ps := Parts(withCommas[n]);
      MultiValueExamples(withCommas[..n]) + (if ps != [] then [Take5(ps)] else [])
  }

  function Take5(ps: seq<string>): (r: seq<string>)
    ensures |r| <= 5 && r <= ps
  {
    if |ps| <= 5 then ps else ps[..5]
  }

  /** An example: one to five clean parts. */
  predicate Example(e: seq<string>) {
    1 <= |e| <= 5 && AllClean(e)
  }

  lemma PartsExample(v: string)
    requires Parts(v) != []
    ensures Example(Take5(Parts(v)))
  {
    var ps := Parts(v);
    StrippedPartsClean(Split(v, ','));
    forall i | 0 <= i < |Take5(ps)| ensures CleanPart(Take5(ps)[i]) {
      assert Take5(ps)[i] == ps[i];
    }
  }

  /** Every example holds between one and five clean parts. */
  lemma {:induction false} MultiValueExamplesClean(ws: seq<string>)
    ensures forall e :: e in MultiValueExamples(ws) ==> Example(e)
  {
    if ws != [] {
      var n := |ws| - 1;
      MultiValueExamplesClean(ws[..n]);
      var ps := Parts(ws[n]);
      if ps != [] {
        PartsExample(ws[n]);
      }
    }
  }

  // ---------------------------------------------------------------------
  // `summarize_column`
  // ---------------------------------------------------------------------

  datatype Summary = Summary(
    totalRows: nat, nonEmpty: nat, empty: nat, unique: nat,
    top5: seq<(string, nat)>, examples: seq<string>,
    withCommasCount: nat, multiValueExamples: seq<seq<string>>)

  /** `[v for v, _ in top5]` */
  function Values(pairs: seq<(string, nat)>): (r: seq<string>)
    ensures |r| == |pairs| && forall i :: 0 <= i < |pairs| ==> r[i] == pairs[i].0
  {
    if pairs == [] then [] else [pairs[0].0] + Values(pairs[1..])
  }

  function Summarize(values: seq<string>): Summary {
    var ne := NonEmpty(values);
    var top5 := MostCommon(ne, 5);
    var wc := WithCommas(ne);
    Summary(|values|, |ne|, |values| - |ne|, |set v | v in ne|,
            top5, Values(top5),
            |wc|, MultiValueExamples(if |wc| <= 5 then wc else wc[..5]))
  }

  /** The summary's counts: every row is blank or not, and the distinct and comma-holding values are among the non-blank ones. */
  lemma SummarizeCounts(values: seq<string>)
    ensures var s := Summarize(values);
            s.totalRows == s.nonEmpty + s.empty &&
            s.unique <= s.nonEmpty && s.withCommasCount <= s.nonEmpty &&
            |s.top5| <= 5 && |s.examples| == |s.top5| && |s.multiValueExamples| <= 5 &&
            forall i :: 0 <= i < |s.top5| ==> s.examples[i] == s.top5[i].0
  {
    var ne := NonEmpty(values);
    SetSize(ne);
    var wc := WithCommas(ne);
    assert |MultiValueExamples(if |wc| <= 5 then wc else wc[..5])| <= 5;
  }

  /**
   * The summary's lists: the top five are the most common non-blank values
   * with their counts, most common first; each multi-value example lists one
   * to five trimmed, non-empty comma parts.
   */
  lemma SummarizeLists(values: seq<string>)
    ensures var s := Summarize(values);
            (forall i :: 0 <= i < |s.top5| ==>
               Strip(s.top5[i].0) != "" && s.top5[i].1 == multiset(values)[s.top5[i].0] && s.top5[i].1 > 0) &&
            (forall i, j :: 0 <= i < j < |s.top5| ==> s.top5[i].1 >= s.top5[j].1) &&
            (forall e :: e in s.multiValueExamples ==> Example(e))
  {
    var ne := NonEmpty(values);
    MostCommonSpec(ne, 5);
    forall v | v in ne ensures Strip(v) != "" && multiset(ne)[v] == multiset(values)[v] {
      FilterCount(values, NonBlank, v);
      assert v in multiset(ne);
    }
    var wc := WithCommas(ne);
    MultiValueExamplesClean(if |wc| <= 5 then wc else wc[..5]);
  }

  // ---------------------------------------------------------------------
  // `load_csv_columns_second_row_headers`
  // ---------------------------------------------------------------------

  /** The stripped cells of `vals` that sit under header `h`, left to right. */
  function CellsUnder(headers: seq<string>, vals: seq<string>, h: string): seq<string>
    requires |vals| == |headers|
  {
    if headers == [] then []
    else
      var n := |headers| - 1;
      CellsUnder(headers[..n], vals[..n], h) + (if headers[n] == h then [Strip(vals[n])] else [])
  }

  /** The list `data[h]` after the data records `rows`. */
  function ColumnOf(headers: seq<string>, rows: seq<seq<string>>, h: string): seq<string> {
    if rows == [] then []
    else
      var n := |rows| - 1;
      ColumnOf(headers, rows[..n], h) + CellsUnder(headers, Sheet.Pad(rows[n], |headers|), h)
  }

  /**
   * `load_csv_columns_second_row_headers` over the parsed CSV records: no
   * record gives no headers and no data; a single record is an error at
   * `rows[1]`; otherwise the stripped second record is the header list and
   * every header collects the stripped, padded cells under it.
   */
  method LoadColumns(records: seq<seq<string>>) returns (r: Result<(seq<string>, map<string, seq<string>>)>)
    ensures records == [] ==> r == Success(([], map[]))
    ensures |records| == 1 ==> r.Failure?
    ensures |records| >= 2 ==>
              r.Success? &&
              var headers := Sheet.StripAll(records[1]);
              r.value.0 == headers &&
              r.value.1.Keys == (set h | h in headers) &&
              forall h :: h in headers ==> h in r.value.1 && r.value.1[h] == ColumnOf(headers, records[2..], h)
  {
    if records == [] {
      return Success(([], map[]));
    }
    if |records| < 2 {
      return Failure("IndexError: list index out of range");
    }
    var headers := Sheet.StripAll(records[1]);
    var data := Collect(headers, records[2..]);
    return Success((headers, data));
  }

  /** The outer loop: one list per header, extended by every data record in turn. */
  method Collect(headers: seq<string>, rows: seq<seq<string>>) returns (data: map<string, seq<string>>)
    ensures data.Keys == set h | h in headers
    ensures forall h :: h in headers ==> data[h] == ColumnOf(headers, rows, h)
  {
    data := map h | h in headers :: [];
    for i := 0 to |rows|
      invariant data.Keys == set h | h in headers
      invariant forall h :: h in headers ==> data[h] == ColumnOf(headers, rows[..i], h)
    {
      assert rows[..i + 1][..i] == rows[..i];
      data := AppendRow(data, headers, Sheet.Pad(rows[i], |headers|));
    }
    assert rows[..|rows|] == rows;
  }

  /** The inner loop: each cell, stripped, appended to the list of the header above it. */
  method AppendRow(data: map<string, seq<string>>, headers: seq<string>, vals: seq<string>) returns (data': map<string, seq<string>>)
    requires |vals| == |headers| && data.Keys == set h | h in headers
    ensures data'.Keys == data.Keys
    ensures forall h :: h in headers ==> data'[h] == data[h] + CellsUnder(headers, vals, h)
  {
    data' := data;
    for j := 0 to |headers|
      invariant data'.Keys == data.Keys
      invariant forall h :: h in headers ==> data'[h] == data[h] + CellsUnder(headers[..j], vals[..j], h)
    {
      assert headers[..j + 1][..j] == headers[..j] && vals[..j + 1][..j] == vals[..j];
      data' := data'[headers[j] := data'[headers[j]] + [Strip(vals[j])]];
    }
    assert headers[..|headers|] == headers && vals[..|headers|] == vals;
  }

  /** With distinct headers, every header's list has exactly one stripped value per data record. */
  lemma {:induction false} ColumnOfDistinct(headers: seq<string>, rows: seq<seq<string>>, k: nat)
    requires k < |headers| && forall a, b :: 0 <= a < b < |headers| ==> headers[a] != headers[b]
    ensures var c := ColumnOf(headers, rows, headers[k]);
            |c| == |rows| &&
            forall i :: 0 <= i < |rows| ==> c[i] == Cell(headers, rows[i], k)
  {
    if rows != [] {
      var n := |rows| - 1;
      var prev := ColumnOf(headers, rows[..n], headers[k]);
      var c := ColumnOf(headers, rows, headers[k]);
      ColumnOfDistinct(headers, rows[..n], k);
      CellsUnderDistinct(headers, Sheet.Pad(rows[n], |headers|), k);
      assert c == prev + [Cell(headers, rows[n], k)];
      forall i | 0 <= i < |rows| ensures c[i] == Cell(headers, rows[i], k) {
        if i < n {
          assert c[i] == prev[i] && rows[..n][i] == rows[i];
        } else {
          assert i == |prev| && c[i] == Cell(headers, rows[n], k);
        }
      }
    }
  }

  /** Column `k` of a data record after padding or truncation to the header count, stripped. */
  function Cell(headers: seq<string>, row: seq<string>, k: nat): string
    requires k < |headers|
  {
    Strip(Sheet.Pad(row, |headers|)[k])
  }

  lemma {:induction false} CellsUnderDistinct(headers: seq<string>, vals: seq<string>, k: nat)
    requires |vals| == |headers| && k < |headers|
    requires forall a, b :: 0 <= a < b < |headers| ==> headers[a] != headers[b]
    ensures CellsUnder(headers, vals, headers[k]) == [Strip(vals[k])]
  {
    var n := |headers| - 1;
    if k < n {
      CellsUnderDistinct(headers[..n], vals[..n], k);
      assert headers[n] != headers[k];
    } else {
      CellsUnderAbsent(headers[..n], vals[..n], headers[k]);
    }
  }

  lemma {:induction false} CellsUnderAbsent(headers: seq<string>, vals: seq<string>, h: string)
    requires |vals| == |headers| && h !in headers
    ensures CellsUnder(headers, vals, h) == []
  {
    if headers != [] {
      var n := |headers| - 1;
      assert headers[n] in headers;
      CellsUnderAbsent(headers[..n], vals[..n], h);
    }
  }
}
