/**
 * The stage-gate recommendation analysis
 * (scripts/analysis/stage_gate_recommendation.py, `analyze_all_stage_gates`):
 * the per-gate tally of the CGT rows of the Stage Gate Deliverables sheet
 * and the complexity score derived from it.
 */
module Recommendation {
  import opened Text
  import opened Wrappers

  /** One `gate_stats` entry before scoring. */
  datatype GateStats = GateStats(
    description: string, deliverables: nat, areas: set<string>,
    owners: nat, statuses: nat, categories: set<string>)

  /** The `defaultdict` factory's entry. */
  const Fresh := GateStats("", 0, {}, 0, 0, {})

  // ---------------------------------------------------------------------
  // The row filter and the per-gate tally
  // ---------------------------------------------------------------------

  /** A row taken into the tally: at least 11 columns, stream "CGT", an all-digit gate. */
  predicate Counted(row: seq<string>) {
    |row| >= 11 && row[0] == "CGT" && IsDigits(row[1])
  }

  function GateOf(row: seq<string>): nat
    requires Counted(row)
  {
    ParseNat(row[1])
  }

  /** A counted row of gate `g`. */
  predicate For(row: seq<string>, g: nat) {
    Counted(row) && GateOf(row) == g
  }

  /** `cell.strip()` is truthy. */
  predicate Filled(cell: string) {
    Strip(cell) != ""
  }

  function Bump(n: nat, cell: string): nat {
    if Filled(cell) then n + 1 else n
  }

  function AddTo(xs: set<string>, cell: string): set<string> {
    if Filled(cell) then xs + {Strip(cell)} else xs
  }

  /** One counted row folded into its gate's entry. */
  function Tally(st: GateStats, row: seq<string>): GateStats
    requires |row| >= 11
  {
    GateStats(
      if st.description == "" then row[2] else st.description,
      Bump(st.deliverables, row[5]), AddTo(st.areas, row[3]),
      Bump(st.owners, row[7]), Bump(st.statuses, row[8]), AddTo(st.categories, row[4]))
  }

  /** Gate `g`'s entry after the data rows `rows`. */
  function StatsOf(rows: seq<seq<string>>, g: nat): GateStats {
    if rows == [] then Fresh
    else
      var n := |rows| - 1;
      var prev := StatsOf(rows[..n], g);
      if For(rows[n], g) then Tally(prev, rows[n]) else prev
  }

  /** The gates that have an entry. */
  function Gates(rows: seq<seq<string>>): set<nat> {
    set i | 0 <= i < |rows| && Counted(rows[i]) :: GateOf(rows[i])
  }

  lemma GatesSnoc(rows: seq<seq<string>>, i: nat)
    requires i < |rows|
    ensures Gates(rows[..i + 1]) == Gates(rows[..i]) + (if Counted(rows[i]) then {GateOf(rows[i])} else {})
  {
    var a, b := rows[..i + 1], rows[..i];
    forall j | 0 <= j < i ensures a[j] == b[j] && b[j] == rows[j] { }
    assert a[i] == rows[i];
  }

  lemma StatsOfSnoc(rows: seq<seq<string>>, i: nat, g: nat)
    requires i < |rows|
    ensures StatsOf(rows[..i + 1], g) == if For(rows[i], g) then Tally(StatsOf(rows[..i], g), rows[i]) else StatsOf(rows[..i], g)
  {
    assert rows[..i + 1][..i] == rows[..i];
  }

  /** A gate without an entry is still at the factory value. */
  lemma {:induction false} StatsOfAbsent(rows: seq<seq<string>>, g: nat)
    requires g !in Gates(rows)
    ensures StatsOf(rows, g) == Fresh
  {
    if rows != [] {
      var n := |rows| - 1;
      assert Gates(rows[..n]) <= Gates(rows) by {
        forall x | x in Gates(rows[..n]) ensures x in Gates(rows) {
          var j :| 0 <= j < n && Counted(rows[..n][j]) && GateOf(rows[..n][j]) == x;
          assert rows[..n][j] == rows[j];
        }
      }
      StatsOfAbsent(rows[..n], g);
      assert !For(rows[n], g) by {
        if Counted(rows[n]) { assert GateOf(rows[n]) in Gates(rows); }
      }
    }
  }

  /**
   * The row loop of `analyze_all_stage_gates`, over the data rows (the
   * records after the skipped first record and the header record).
   */
  method TallyRows(rows: seq<seq<string>>) returns (stats: map<nat, GateStats>)
    ensures stats.Keys == Gates(rows)
    ensures forall g :: g in stats ==> stats[g] == StatsOf(rows, g)
  {
    stats := map[];
    for i := 0 to |rows|
      invariant stats.Keys == Gates(rows[..i])
      invariant forall g :: g in stats ==> stats[g] == StatsOf(rows[..i], g)
    {
      GatesSnoc(rows, i);
      var row := rows[i];
      if |row| >= 11 && row[0] == "CGT" && IsDigits(row[1]) {
        var g := ParseNat(row[1]);
        var st := Fresh;
        if g in stats {
          st := stats[g];
        } else {
          StatsOfAbsent(rows[..i], g);
        }
        stats := stats[g := Tally(st, row)];
      }
      forall h | h in stats ensures stats[h] == StatsOf(rows[..i + 1], h) {
        StatsOfSnoc(rows, i, h);
      }
    }
    assert rows[..|rows|] == rows;
  }

  /** Rows the filter drops change no entry and add no gate. */
  lemma IgnoredRow(rows: seq<seq<string>>, row: seq<string>, g: nat)
    requires !Counted(row)
    ensures StatsOf(rows + [row], g) == StatsOf(rows, g)
    ensures Gates(rows + [row]) == Gates(rows)
  {
    var r := rows + [row];
    assert r[..|rows|] == rows;
    GatesSnoc(r, |rows|);
    assert r[..|rows| + 1] == r;
  }

  /**
   * The first non-empty description of a gate's rows wins: the entry's
   * description is empty exactly when every row of the gate has an empty
   * description, and otherwise it is the description of the gate's first
   * row with a non-empty one.
   */
  lemma {:induction false} DescriptionIsFirst(rows: seq<seq<string>>, g: nat)
    ensures var d := StatsOf(rows, g).description;
            (d == "" <==> forall i :: 0 <= i < |rows| && For(rows[i], g) ==> rows[i][2] == "") &&
            (d != "" ==> exists i :: 0 <= i < |rows| && For(rows[i], g) && rows[i][2] == d &&
                           forall j :: 0 <= j < i && For(rows[j], g) ==> rows[j][2] == "")
  {
    if rows != [] {
      var n := |rows| - 1;
      var p := rows[..n];
      DescriptionIsFirst(p, g);
      forall i | 0 <= i < n ensures rows[i] == p[i] { }
      var d := StatsOf(rows, g).description;
      if StatsOf(p, g).description != "" {
        var i :| 0 <= i < n && For(p[i], g) && p[i][2] == StatsOf(p, g).description &&
                 forall j :: 0 <= j < i && For(p[j], g) ==> p[j][2] == "";
        assert rows[i] == p[i];
      } else if d != "" {
        assert For(rows[n], g) && rows[n][2] == d;
      }
    }
  }

  /** The number of counted rows of gate `g`. */
  function RowsFor(rows: seq<seq<string>>, g: nat): nat {
    if rows == [] then 0
    else RowsFor(rows[..|rows| - 1], g) + (if For(rows[|rows| - 1], g) then 1 else 0)
  }

  /** The counters never exceed the gate's row count, and a gate has an entry exactly when it has a row. */
  lemma {:induction false} CountersBounded(rows: seq<seq<string>>, g: nat)
    ensures var st := StatsOf(rows, g);
            st.deliverables <= RowsFor(rows, g) && st.owners <= RowsFor(rows, g) &&
            st.statuses <= RowsFor(rows, g)
    ensures g in Gates(rows) <==> RowsFor(rows, g) > 0
  {
    if rows != [] {
      var n := |rows| - 1;
      CountersBounded(rows[..n], g);
      GatesSnoc(rows, n);
      assert rows[..n + 1] == rows;
    }
  }

  /** The area (column 3) or category (column 4) set of an entry. */
  function Collected(st: GateStats, col: nat): set<string> {
    if col == 3 then st.areas else st.categories
  }

  /** Row `row` of gate `g` has the non-blank cell `a`, once stripped, in column `col`. */
  predicate Shows(row: seq<string>, g: nat, col: nat, a: string) {
    For(row, g) && col < |row| && Filled(row[col]) && Strip(row[col]) == a
  }

  /** Every collected area or category is the stripped non-blank cell of one of the gate's rows. */
  lemma {:induction false} CollectedSound(rows: seq<seq<string>>, g: nat, col: nat, a: string) returns (i: nat)
    requires col == 3 || col == 4
    requires a in Collected(StatsOf(rows, g), col)
    ensures i < |rows| && Shows(rows[i], g, col, a)
  {
    var n := |rows| - 1;
    var p := rows[..n];
    if a in Collected(StatsOf(p, g), col) {
      i := CollectedSound(p, g, col, a);
      assert rows[i] == p[i];
    } else {
      i := n;
    }
  }

  /** Every stripped non-blank cell of the column in the gate's rows is collected. */
  lemma {:induction false} CollectedComplete(rows: seq<seq<string>>, g: nat, col: nat, a: string, i: nat)
    requires col == 3 || col == 4
    requires i < |rows| && Shows(rows[i], g, col, a)
    ensures a in Collected(StatsOf(rows, g), col)
  {
    var n := |rows| - 1;
    if i < n {
      var p := rows[..n];
      assert p[i] == rows[i];
      CollectedComplete(p, g, col, a, i);
    }
  }

  // ---------------------------------------------------------------------
  // The complexity score
  // ---------------------------------------------------------------------

  /** The factors the scoring loop can append. */
  datatype Factor =
    | LowDeliverables | MediumDeliverables | HighDeliverables
    | FewAreas | ModerateAreas | ManyAreas
    | GoodOwners

  /** The factor's text in `complexity_factors`. */
  function Label(f: Factor): string {
    match f
    case LowDeliverables => "Low deliverable count"
    case MediumDeliverables => "Medium deliverable count"
    case HighDeliverables => "High deliverable count"
    case FewAreas => "Few functional areas"
    case ModerateAreas => "Moderate functional areas"
    case ManyAreas => "Many functional areas"
    case GoodOwners => "Good owner coverage"
  }

  /** The points a factor adds to `complexity_score`. */
  function Weight(f: Factor): nat {
    match f
    case LowDeliverables | FewAreas | GoodOwners => 1
    case MediumDeliverables | ModerateAreas => 2
    case HighDeliverables | ManyAreas => 3
  }

  function Points(factors: seq<Factor>): nat {
    if factors == [] then 0 else Weight(factors[0]) + Points(factors[1..])
  }

  /** Owner coverage above half the deliverables (`has_owners > deliv_count * 0.5`). */
  predicate GoodOwnerCoverage(st: GateStats) {
    2 * st.owners > st.deliverables
  }

  /** The factors of a gate: one deliverable band, one area band, the optional owner factor. */
  function Factors(st: GateStats): seq<Factor> {
    var d := st.deliverables;
    var a := |st.areas|;
    [if d < 30 then LowDeliverables else if d < 70 then MediumDeliverables else HighDeliverables] +
    [if a <= 5 then FewAreas else if a <= 8 then ModerateAreas else ManyAreas] +
    (if GoodOwnerCoverage(st) then [GoodOwners] else [])
  }

  /**
   * The scoring step of `analyze_all_stage_gates`: the score and the factors
   * accumulated band by band. The factors explain the score, which lies in
   * 2..7; there are three factors exactly when owner coverage is good.
   */
  method Score(st: GateStats) returns (score: nat, factors: seq<Factor>)
    ensures factors == Factors(st) && score == Points(factors)
    ensures 2 <= score <= 7
    ensures |factors| == (if GoodOwnerCoverage(st) then 3 else 2)
  {
    score := 0;
    factors := [];
    var delivCount := st.deliverables;
    if delivCount < 30 {
      score := score + 1;
      factors := factors + [LowDeliverables];
    } else if delivCount < 70 {
      score := score + 2;
      factors := factors + [MediumDeliverables];
    } else {
      score := score + 3;
      factors := factors + [HighDeliverables];
    }
    var areaCount := |st.areas|;
    if areaCount <= 5 {
      score := score + 1;
      factors := factors + [FewAreas];
    } else if areaCount <= 8 {
      score := score + 2;
      factors := factors + [ModerateAreas];
    } else {
      score := score + 3;
      factors := factors + [ManyAreas];
    }
    if 2 * st.owners > delivCount {
      score := score + 1;
      factors := factors + [GoodOwners];
    }
    PointsOfFactors(st);
  }

  lemma PointsOfFactors(st: GateStats)
    ensures var f := Factors(st);
            Points(f) == Weight(f[0]) + Weight(f[1]) + (if |f| == 3 then Weight(f[2]) else 0)
  {
    var f := Factors(st);
    assert Points(f) == Weight(f[0]) + Points(f[1..]);
    assert Points(f[1..]) == Weight(f[1]) + Points(f[1..][1..]);
    if |f| == 3 {
      assert Points(f[1..][1..]) == Weight(f[2]) + Points(f[1..][1..][1..]);
    }
  }

  /** A gate's entry after scoring. */
  datatype Assessment = Assessment(stats: GateStats, score: nat, factors: seq<Factor>)

  function Assess(st: GateStats): Assessment {
    Assessment(st, Points(Factors(st)), Factors(st))
  }

  /**
   * `analyze_all_stage_gates` over the parsed CSV records: fewer than two
   * records stop the reader; otherwise every gate with a counted data row
   * has an entry holding its tally and its score.
   */
  method AnalyzeAllStageGates(records: seq<seq<string>>) returns (r: Result<map<nat, Assessment>>)
    ensures |records| < 2 ==> r.Failure?
    ensures |records| >= 2 ==>
              r.Success? && r.value.Keys == Gates(records[2..]) &&
              forall g :: g in r.value ==> r.value[g] == Assess(StatsOf(records[2..], g))
  {
    if |records| < 2 {
      return Failure("StopIteration");
    }
    var stats := TallyRows(records[2..]);
    var result := ScoreAll(stats);
    return Success(result);
  }

  /** The scoring loop: every entry gets its score and factors. */
  method ScoreAll(stats: map<nat, GateStats>) returns (result: map<nat, Assessment>)
    ensures result.Keys == stats.Keys
    ensures forall g :: g in result ==> result[g] == Assess(stats[g])
  {
    result := map[];
    var todo := stats.Keys;
    while todo != {}
      invariant todo <= stats.Keys && result.Keys == stats.Keys - todo
      invariant forall g :: g in result ==> result[g] == Assess(stats[g])
      decreases |todo|
    {
      var g :| g in todo;
      var score, factors := Score(stats[g]);
      result := result[g := Assessment(stats[g], score, factors)];
      todo := todo - {g};
    }
  }

  /** Every assessed gate scores between 2 and 7, with two or three factors. */
  lemma AssessBounds(st: GateStats)
    ensures 2 <= Assess(st).score <= 7 && 2 <= |Assess(st).factors| <= 3
  {
    PointsOfFactors(st);
  }
}
