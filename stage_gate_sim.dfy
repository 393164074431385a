/**
 * The Stage Gate 0 test script: the deliverable workflow simulator and the two
 * text checks of its validator.
 *
 * The simulator keeps one status record per deliverable id in a dictionary
 * that remembers insertion order; here that dictionary is an id sequence in
 * insertion order beside a map. Timestamps are a `now` parameter.
 */
module StageGateSim {
  import opened Wrappers
  import opened Text

  // ---------------------------------------------------------------------
  // StageGateValidator._check_ttl_syntax and count_entities
  // ---------------------------------------------------------------------

  /** A kept line must end a statement or a brace. */
  predicate LineEndsWell(line: string) {
    line != [] && line[|line| - 1] in {'.', ';', '{', '}'}
  }

  /** Whether the loop inspects a stripped line at all. */
  predicate Inspected(line: string) {
    line != [] && line[0] != '#' && line[0] != '@'
  }

  /** A line passes when, stripped, it is skipped or ends well. */
  predicate LineOk(line: string) {
    var t := Strip(line);
    Inspected(t) ==> LineEndsWell(t)
  }

  /** Every line of the list passes `ok`, checked front to back. */
  predicate Every(lines: seq<string>, ok: string -> bool)
    decreases |lines|
  {
    lines == [] || (Every(lines[..|lines| - 1], ok) && ok(lines[|lines| - 1]))
  }

  /** A list of lines passes exactly when each line does. */
  lemma {:induction false} EveryAt(lines: seq<string>, ok: string -> bool)
    ensures Every(lines, ok) <==> forall k :: 0 <= k < |lines| ==> ok(lines[k])
    decreases |lines|
  {
    if lines != [] {
      var n := |lines| - 1;
      EveryAt(lines[..n], ok);
      assert forall k :: 0 <= k < n ==> lines[..n][k] == lines[k];
    }
  }

  /** The verdict `_check_ttl_syntax` reaches on a content string. */
  predicate SyntaxOk(content: string) {
    Every(Split(content, '\n'), LineOk) && CountChar(content, '{') == CountChar(content, '}')
  }

  /** `_check_ttl_syntax`: brace counts, then a line loop that stops at the first bad line. */
  method CheckTtlSyntax(content: string) returns (ok: bool)
    ensures ok <==> SyntaxOk(content)
  {
    var openCount := CountChar(content, '{');
    var closeCount := CountChar(content, '}');
    var lines := Split(content, '\n');
    var linesOk := CheckLines(lines);
    if !linesOk {
      return false;
    }
    return openCount == closeCount;
  }

  /** The line loop: it stops at the first line that does not pass. */
  method CheckLines(lines: seq<string>) returns (ok: bool)
    ensures ok <==> Every(lines, LineOk)
  {
    for i := 0 to |lines|
      invariant Every(lines[..i], LineOk)
    {
      assert lines[..i + 1][..i] == lines[..i];
      var good := CheckLine(lines[i]);
      if !good {
        EveryAt(lines, LineOk);
        return false;
      }
    }
    assert lines[..|lines|] == lines;
    return true;
  }

  /** One pass of the line loop: blank lines and `#`/`@` lines are skipped. */
  method CheckLine(line: string) returns (good: bool)
    ensures good <==> LineOk(line)
  {
    var t := Strip(line);
    if !Inspected(t) {
      return true;
    }
    return LineEndsWell(t);
  }

  /** The entity counts of `count_entities`: non-overlapping matches of each literal. */
  datatype EntityCounts = EntityCounts(stageGates: nat, functionalAreas: nat, deliverables: nat)

  function CountEntities(content: string): (r: EntityCounts)
    ensures r.stageGates == 0 <==> !Contains(content, "a sg:StageGate")
    ensures r.functionalAreas == 0 <==> !Contains(content, "a sg:FunctionalArea")
    ensures r.deliverables == 0 <==> !Contains(content, "a sg:Deliverable")
  {
    CountSubZero(content, "a sg:StageGate");
    CountSubZero(content, "a sg:FunctionalArea");
    CountSubZero(content, "a sg:Deliverable");
    EntityCounts(CountSub(content, "a sg:StageGate"), CountSub(content, "a sg:FunctionalArea"),
                 CountSub(content, "a sg:Deliverable"))
  }

  // ---------------------------------------------------------------------
  // The simulator
  // ---------------------------------------------------------------------

  /** The workflow states; "assigned" counts as pending in the readiness report. */
  datatype Status = Pending | Assigned | InProgress | Completed

  /** One entry of `deliverable_status`. */
  datatype Record = Record(text: string, area: string, status: Status, assignedTo: Option<string>,
                           startedAt: Option<int>, completedAt: Option<int>, notes: seq<string>)

  /** A deliverable as listed in the summary data. */
  datatype Deliverable = Deliverable(area: string, text: string)

  /** `f"{functional_area}-{text[:30]}"` */
  function DeliverableId(d: Deliverable): string {
    d.area + "-" + Take(d.text, 30)
  }

  function Fresh(d: Deliverable): Record {
    Record(d.text, d.area, Pending, None, None, None, [])
  }

  /** A dictionary that remembers insertion order: its keys, each once, and its entries. */
  datatype Table = Table(ids: seq<string>, records: map<string, Record>)

  ghost predicate Ordered(t: Table) {
    (forall k :: k in t.records <==> k in t.ids)
    && forall i, j :: 0 <= i < j < |t.ids| ==> t.ids[i] != t.ids[j]
  }

  /** `d[key] = value`: a new key goes last, an existing one keeps its place. */
  function Store(t: Table, key: string, r: Record): (t': Table)
    requires Ordered(t)
    ensures Ordered(t') && t'.records == t.records[key := r]
    ensures t'.ids == if key in t.records then t.ids else t.ids + [key]
  {
    if key in t.records then Table(t.ids, t.records[key := r]) else Table(t.ids + [key], t.records[key := r])
  }

  /** `initialize_workflow` over the deliverables, from the table `t`. */
  function InitAll(t: Table, ds: seq<Deliverable>): (t': Table)
    requires Ordered(t)
    ensures Ordered(t')
    decreases |ds|
  {
    if ds == [] then t
    else
      var d := ds[|ds| - 1];
      Store(InitAll(t, ds[..|ds| - 1]), DeliverableId(d), Fresh(d))
  }

  /** Some deliverable of the list has id `k`. */
  predicate HasId(ds: seq<Deliverable>, k: string)
    decreases |ds|
  {
    ds != [] && (HasId(ds[..|ds| - 1], k) || DeliverableId(ds[|ds| - 1]) == k)
  }

  /** The last deliverable of the list whose id is `k`. */
  function LastWithId(ds: seq<Deliverable>, k: string): (d: Deliverable)
    requires HasId(ds, k)
    ensures DeliverableId(d) == k
    decreases |ds|
  {
    if DeliverableId(ds[|ds| - 1]) == k then ds[|ds| - 1] else LastWithId(ds[..|ds| - 1], k)
  }

  /**
   * After initialisation an id taken by some deliverable holds a fresh pending
   * record of the last deliverable with that id: an id collision overwrites.
   */
  lemma {:induction false} InitLastWins(t: Table, ds: seq<Deliverable>, k: string)
    requires Ordered(t) && HasId(ds, k)
    ensures k in InitAll(t, ds).records && InitAll(t, ds).records[k] == Fresh(LastWithId(ds, k))
    decreases |ds|
  {
    if DeliverableId(ds[|ds| - 1]) != k {
      InitLastWins(t, ds[..|ds| - 1], k);
    }
  }

  /**
   * Initialisation only adds or overwrites: the ids afterwards are the ids
   * before and those of the deliverables, at most one new id per deliverable.
   */
  lemma {:induction false} InitKeys(t: Table, ds: seq<Deliverable>, k: string)
    requires Ordered(t)
    ensures k in InitAll(t, ds).records <==> k in t.records || HasId(ds, k)
    ensures |InitAll(t, ds).ids| <= |t.ids| + |ds|
    decreases |ds|
  {
    if ds != [] {
      InitKeys(t, ds[..|ds| - 1], k);
    }
  }

  /** The counters of `get_gate_readiness` for one functional area. */
  datatype AreaCount = AreaCount(completed: nat, total: nat)

  /** The report of `get_gate_readiness`, without the floating-point percentage. */
  datatype Readiness = Readiness(total: nat, completed: nat, inProgress: nat, pending: nat,
                                 canPass: bool, areas: seq<string>, byArea: map<string, AreaCount>)

  function Bit(b: bool): nat { if b then 1 else 0 }

  /** The three counters of the report; "assigned" counts as pending. */
  datatype Bucket = Done | Active | Waiting

  predicate InBucket(s: Status, b: Bucket) {
    match b
    case Done => s == Completed
    case Active => s == InProgress
    case Waiting => s == Pending || s == Assigned
  }

  /** How many of the listed ids have a status in bucket `b`. */
  function CountStatus(ids: seq<string>, records: map<string, Record>, b: Bucket): (n: nat)
    requires forall i :: 0 <= i < |ids| ==> ids[i] in records
    ensures n <= |ids|
    decreases |ids|
  {
    if ids == [] then 0
    else CountStatus(ids[..|ids| - 1], records, b) + Bit(InBucket(records[ids[|ids| - 1]].status, b))
  }

  /** Every record is counted exactly once among completed, in progress and pending. */
  lemma {:induction false} StatusPartition(ids: seq<string>, records: map<string, Record>)
    requires forall i :: 0 <= i < |ids| ==> ids[i] in records
    ensures CountStatus(ids, records, Done) + CountStatus(ids, records, Active)
      + CountStatus(ids, records, Waiting) == |ids|
    decreases |ids|
  {
    if ids != [] {
      StatusPartition(ids[..|ids| - 1], records);
    }
  }

  /** The by-area grouping: areas in first-seen order and their counters. */
  datatype Grouping = Grouping(areas: seq<string>, counts: map<string, AreaCount>)

  ghost predicate GroupingOk(g: Grouping) {
    (forall a :: a in g.counts ==> a in g.areas)
    && (forall i :: 0 <= i < |g.areas| ==> g.areas[i] in g.counts)
    && forall i, j :: 0 <= i < j < |g.areas| ==> g.areas[i] != g.areas[j]
  }

  /** The loop body of the grouping for one record. */
  function GroupStep(g: Grouping, r: Record): (g': Grouping)
    requires GroupingOk(g)
    ensures GroupingOk(g')
  {
    var prev := if r.area in g.counts then g.counts[r.area] else AreaCount(0, 0);
    var c := AreaCount(prev.completed + Bit(r.status == Completed), prev.total + 1);
    if r.area in g.counts then Grouping(g.areas, g.counts[r.area := c])
    else Grouping(g.areas + [r.area], g.counts[r.area := c])
  }

  function GroupAll(ids: seq<string>, records: map<string, Record>): (g: Grouping)
    requires forall i :: 0 <= i < |ids| ==> ids[i] in records
    ensures GroupingOk(g)
    decreases |ids|
  {
    if ids == [] then Grouping([], map[])
    else GroupStep(GroupAll(ids[..|ids| - 1], records), records[ids[|ids| - 1]])
  }

  /** The sum of the areas' totals, over the listed areas. */
  function SumTotals(areas: seq<string>, counts: map<string, AreaCount>): nat
    requires forall i :: 0 <= i < |areas| ==> areas[i] in counts
    decreases |areas|
  {
    if areas == [] then 0 else SumTotals(areas[..|areas| - 1], counts) + counts[areas[|areas| - 1]].total
  }

  function SumCompleted(areas: seq<string>, counts: map<string, AreaCount>): nat
    requires forall i :: 0 <= i < |areas| ==> areas[i] in counts
    decreases |areas|
  {
    if areas == [] then 0 else SumCompleted(areas[..|areas| - 1], counts) + counts[areas[|areas| - 1]].completed
  }

  /** Bumping one listed area's counters by `dt` and `dc` bumps the sums by the same. */
  lemma {:induction false} SumsBump(areas: seq<string>, counts: map<string, AreaCount>, a: string, c: AreaCount)
    requires forall i :: 0 <= i < |areas| ==> areas[i] in counts
    requires forall i, j :: 0 <= i < j < |areas| ==> areas[i] != areas[j]
    requires a in counts
    ensures var counts' := counts[a := c];
      if a in areas then
        SumTotals(areas, counts') + counts[a].total == SumTotals(areas, counts) + c.total
        && SumCompleted(areas, counts') + counts[a].completed == SumCompleted(areas, counts) + c.completed
      else
        SumTotals(areas, counts') == SumTotals(areas, counts) && SumCompleted(areas, counts') == SumCompleted(areas, counts)
    decreases |areas|
  {
    if areas != [] {
      var n := |areas| - 1;
      SumsBump(areas[..n], counts, a, c);
      if a == areas[n] {
        assert a !in areas[..n];
      } else if a in areas {
        assert a in areas[..n];
      }
    }
  }

  /** A new area's counters add to the sums. */
  lemma SumsAppend(areas: seq<string>, counts: map<string, AreaCount>, a: string, c: AreaCount)
    requires forall i :: 0 <= i < |areas| ==> areas[i] in counts
    requires a !in areas
    ensures SumTotals(areas + [a], counts[a := c]) == SumTotals(areas, counts) + c.total
    ensures SumCompleted(areas + [a], counts[a := c]) == SumCompleted(areas, counts) + c.completed
  {
    SumsFrame(areas, counts, a, c);
    assert (areas + [a])[..|areas|] == areas;
  }

  lemma {:induction false} SumsFrame(areas: seq<string>, counts: map<string, AreaCount>, a: string, c: AreaCount)
    requires forall i :: 0 <= i < |areas| ==> areas[i] in counts
    requires a !in areas
    ensures SumTotals(areas, counts[a := c]) == SumTotals(areas, counts)
    ensures SumCompleted(areas, counts[a := c]) == SumCompleted(areas, counts)
    decreases |areas|
  {
    if areas != [] {
      SumsFrame(areas[..|areas| - 1], counts, a, c);
    }
  }

  /** The per-area totals add up to the number of records, and the per-area completions to the completed ones. */
  lemma {:induction false} AreaSums(ids: seq<string>, records: map<string, Record>)
    requires forall i :: 0 <= i < |ids| ==> ids[i] in records
    ensures var g := GroupAll(ids, records);
      SumTotals(g.areas, g.counts) == |ids|
      && SumCompleted(g.areas, g.counts) == CountStatus(ids, records, Done)
    decreases |ids|
  {
    if ids != [] {
      var n := |ids| - 1;
      AreaSums(ids[..n], records);
      var g := GroupAll(ids[..n], records);
      var r := records[ids[n]];
      var prev := if r.area in g.counts then g.counts[r.area] else AreaCount(0, 0);
      assert GroupAll(ids, records) == GroupStep(g, r);
      assert CountStatus(ids, records, Done) == CountStatus(ids[..n], records, Done) + Bit(r.status == Completed);
      GroupStepSums(g, r);
    }
  }

  /** One step of the grouping adds one to the totals' sum, and one to the completions' sum for a completed record. */
  lemma GroupStepSums(g: Grouping, r: Record)
    requires GroupingOk(g)
    ensures var g' := GroupStep(g, r);
      SumTotals(g'.areas, g'.counts) == SumTotals(g.areas, g.counts) + 1
      && SumCompleted(g'.areas, g'.counts) == SumCompleted(g.areas, g.counts) + Bit(r.status == Completed)
  {
    var prev := if r.area in g.counts then g.counts[r.area] else AreaCount(0, 0);
    var c := AreaCount(prev.completed + Bit(r.status == Completed), prev.total + 1);
    if r.area in g.counts {
      assert r.area in g.areas;
      SumsBump(g.areas, g.counts, r.area, c);
    } else {
      SumsAppend(g.areas, g.counts, r.area, c);
    }
  }

  /** The loop body of the by-area grouping: open the record's area on first sight, then count the record. */
  method CountArea(areas: seq<string>, byArea: map<string, AreaCount>, details: Record)
    returns (areas': seq<string>, byArea': map<string, AreaCount>)
    requires GroupingOk(Grouping(areas, byArea))
    ensures Grouping(areas', byArea') == GroupStep(Grouping(areas, byArea), details)
  {
    var area := details.area;
    areas', byArea' := areas, byArea;
    if area !in byArea' {
      areas' := areas' + [area];
      byArea' := byArea'[area := AreaCount(0, 0)];
    }
    var c := byArea'[area];
    byArea' := byArea'[area := c.(total := c.total + 1)];
    if details.status == Completed {
      byArea' := byArea'[area := byArea'[area].(completed := byArea'[area].completed + 1)];
    }
  }

  /** The report for a table. */
  function ReadinessOf(t: Table): Readiness
    requires Ordered(t)
  {
    var total := |t.ids|;
    var completed := CountStatus(t.ids, t.records, Done);
    var g := GroupAll(t.ids, t.records);
    Readiness(total, completed,
              CountStatus(t.ids, t.records, Active),
              CountStatus(t.ids, t.records, Waiting),
              total > 0 && completed == total, g.areas, g.counts)
  }

  /** The report's counts partition the records, per area as overall, and the gate passes only when everything is done. */
  lemma ReadinessSums(t: Table)
    requires Ordered(t)
    ensures var r := ReadinessOf(t);
      r.completed + r.inProgress + r.pending == r.total
      && SumTotals(r.areas, r.byArea) == r.total && SumCompleted(r.areas, r.byArea) == r.completed
      && (r.canPass <==> r.total > 0 && forall k :: k in t.records ==> t.records[k].status == Completed)
  {
    StatusPartition(t.ids, t.records);
    AreaSums(t.ids, t.records);
    AllCompleted(t.ids, t.records);
  }

  /** The completed count equals the number of ids exactly when every listed record is completed. */
  lemma {:induction false} AllCompleted(ids: seq<string>, records: map<string, Record>)
    requires forall i :: 0 <= i < |ids| ==> ids[i] in records
    ensures CountStatus(ids, records, Done) == |ids|
      <==> forall i :: 0 <= i < |ids| ==> records[ids[i]].status == Completed
    decreases |ids|
  {
    if ids != [] {
      var n := |ids| - 1;
      AllCompleted(ids[..n], records);
      assert forall i :: 0 <= i < n ==> ids[..n][i] == ids[i];
    }
  }

  class Simulator {
    /** The deliverables of the summary data. */
    const data: seq<Deliverable>
    /** `deliverable_status`: ids in insertion order, and their records. */
    var ids: seq<string>
    var records: map<string, Record>

    ghost predicate Valid()
      reads this
    {
      Ordered(Table(ids, records))
    }

    constructor (data: seq<Deliverable>)
      ensures this.data == data && ids == [] && records == map[] && Valid()
    {
      this.data := data;
      ids := [];
      records := map[];
    }

    /** `initialize_workflow`: every deliverable gets a fresh pending record under its id. */
    method InitializeWorkflow()
      requires Valid()
      modifies this
      ensures Valid()
      ensures Table(ids, records) == InitAll(old(Table(ids, records)), data)
    {
      for i := 0 to |data|
        invariant Valid()
        invariant Table(ids, records) == InitAll(old(Table(ids, records)), data[..i])
      {
        assert data[..i + 1][..i] == data[..i];
        var d := data[i];
        var key := DeliverableId(d);
        ghost var next := Store(Table(ids, records), key, Fresh(d));
        if key !in records {
          ids := ids + [key];
        }
        records := records[key := Fresh(d)];
        assert Table(ids, records) == next;
      }
      assert data[..|data|] == data;
    }

    /** `assign_deliverable`: any known id, whatever its status, becomes assigned to `owner`. */
    method AssignDeliverable(id: string, owner: string) returns (ok: bool)
      requires Valid()
      modifies this
      ensures Valid() && ids == old(ids)
      ensures ok <==> id in old(records)
      ensures ok ==> records == old(records)[id := old(records)[id].(assignedTo := Some(owner), status := Assigned)]
      ensures !ok ==> records == old(records)
    {
      if id in records {
        records := records[id := records[id].(assignedTo := Some(owner))];
        records := records[id := records[id].(status := Assigned)];
        return true;
      }
      return false;
    }

    /** `start_deliverable`: only an assigned deliverable starts, stamped with `now`. */
    method StartDeliverable(id: string, now: int) returns (ok: bool)
      requires Valid()
      modifies this
      ensures Valid() && ids == old(ids)
      ensures ok <==> id in old(records) && old(records)[id].status == Assigned
      ensures ok ==> records == old(records)[id := old(records)[id].(status := InProgress, startedAt := Some(now))]
      ensures !ok ==> records == old(records)
    {
      if id in records {
        if records[id].status == Assigned {
          records := records[id := records[id].(status := InProgress)];
          records := records[id := records[id].(startedAt := Some(now))];
          return true;
        }
      }
      return false;
    }

    /** `complete_deliverable`: only one in progress completes; a non-empty note is kept. */
    method CompleteDeliverable(id: string, notes: string, now: int) returns (ok: bool)
      requires Valid()
      modifies this
      ensures Valid() && ids == old(ids)
      ensures ok <==> id in old(records) && old(records)[id].status == InProgress
      ensures ok ==> var r := old(records)[id];
        records == old(records)[id := r.(status := Completed, completedAt := Some(now),
                                         notes := if notes != "" then r.notes + [notes] else r.notes)]
      ensures !ok ==> records == old(records)
    {
      if id in records {
        if records[id].status == InProgress {
          records := records[id := records[id].(status := Completed)];
          records := records[id := records[id].(completedAt := Some(now))];
          if notes != "" {
            records := records[id := records[id].(notes := records[id].notes + [notes])];
          }
          return true;
        }
      }
      return false;
    }

    /** `get_gate_readiness`: the counts, then the by-area loop. */
    method GetGateReadiness() returns (r: Readiness)
      requires Valid()
      ensures r == ReadinessOf(Table(ids, records))
    {
      var total := |ids|;
      var completed := CountStatus(ids, records, Done);
      var inProgress := CountStatus(ids, records, Active);
      var pending := CountStatus(ids, records, Waiting);
      var areas: seq<string> := [];
      var byArea: map<string, AreaCount> := map[];
      assert forall j :: 0 <= j < |ids| ==> ids[j] in records;
      for i := 0 to |ids|
        invariant Grouping(areas, byArea) == GroupAll(ids[..i], records)
      {
        assert ids[..i + 1][..i] == ids[..i];
        areas, byArea := CountArea(areas, byArea, records[ids[i]]);
      }
      assert ids[..|ids|] == ids;
      r := Readiness(total, completed, inProgress, pending, total > 0 && completed == total, areas, byArea);
    }
  }
}
