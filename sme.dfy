/**
 * The SME generator (scripts/etl/generate_sme_ttl.py): rows naming a value
 * stream, a functional area, a contact kind and a person are aggregated into
 * functional areas and subject-matter experts, which are then written out in
 * sorted order, each block closed by turning its last ` ;` into ` .`.
 */
module Sme {
  import opened Wrappers
  import opened Text
  import Sheet
  import Slug
  import Turtle
  import Order

  // ---------------------------------------------------------------------
  // `extract_primary_backup`: the `(Backup X)` pattern, scanned by hand.
  // ---------------------------------------------------------------------

  const BackupOpen: string := "(Backup "

  /** The first `)` at or after index `j`. */
  function CloseFrom(s: string, j: nat): (r: Option<nat>)
    ensures r.Some? ==> j <= r.value < |s| && s[r.value] == ')' && forall k :: j <= k < r.value ==> s[k] != ')'
    ensures r.None? ==> forall k :: j <= k < |s| ==> s[k] != ')'
    decreases |s| - j
  {
    if j >= |s| then None
    else if s[j] == ')' then Some(j)
    else CloseFrom(s, j + 1)
  }

  /**
   * A match of `\(Backup ([^)]+)\)` at the start of `s`: the index of its
   * closing `)`, which the group must not reach.
   */
  function GroupEnd(s: string): (r: Option<nat>)
    ensures r.Some? <==> (BackupOpen <= s
      && exists c :: |BackupOpen| < c < |s| && s[c] == ')' && forall k :: |BackupOpen| <= k < c ==> s[k] != ')')
    ensures r.Some? ==> |BackupOpen| < r.value < |s| && s[r.value] == ')' && ')' !in s[|BackupOpen|..r.value]
  {
    if BackupOpen <= s then
      match CloseFrom(s, |BackupOpen|)
      case Some(c) =>
        if c > |BackupOpen| then
          assert forall k :: 0 <= k < c - |BackupOpen| ==> s[|BackupOpen|..c][k] == s[|BackupOpen| + k];
          Some(c)
        else None
      case None => None
    else None
  }

  /** `re.search(...).group(1)`: the group of the leftmost match. */
  function FirstBackup(s: string): Option<string>
    decreases |s|
  {
    if s == [] then None
    else match GroupEnd(s)
      case Some(c) => Some(s[|BackupOpen|..c])
      case None => FirstBackup(s[1..])
  }

  /** `re.sub(r'\(Backup [^)]+\)', '', s)`: every match removed, scanning left to right. */
  function RemoveBackups(s: string): string
    decreases |s|
  {
    if s == [] then []
    else match GroupEnd(s)
      case Some(c) => RemoveBackups(s[c + 1..])
      case None => [s[0]] + RemoveBackups(s[1..])
  }

  /** `extract_primary_backup(name_text)` */
  function ExtractPrimaryBackup(nameText: string): (string, Option<string>) {
    match FirstBackup(nameText)
    case Some(b) => (Strip(RemoveBackups(nameText)), Some(Strip(b)))
    case None => (Strip(nameText), None)
  }

  /** The backup found is never empty before stripping and never holds a `)`. */
  lemma {:induction false} FirstBackupShape(s: string)
    ensures FirstBackup(s).Some? ==> FirstBackup(s).value != [] && ')' !in FirstBackup(s).value
    decreases |s|
  {
    if s != [] && GroupEnd(s).None? {
      FirstBackupShape(s[1..]);
    }
  }

  /** Without a match nothing is removed. */
  lemma {:induction false} NoBackupKeepsText(s: string)
    requires FirstBackup(s).None?
    ensures RemoveBackups(s) == s
    decreases |s|
  {
    if s != [] {
      NoBackupKeepsText(s[1..]);
    }
  }

  /** A text without any match gives the stripped text and no backup. */
  lemma NoBackupPlain(s: string)
    requires FirstBackup(s).None?
    ensures ExtractPrimaryBackup(s) == (Strip(s), None)
  {
  }

  lemma GroupEndOf(b: string, q: string)
    requires b != [] && ')' !in b
    ensures GroupEnd(BackupOpen + b + ")" + q) == Some(|BackupOpen| + |b|)
  {
    var s := BackupOpen + b + ")" + q;
    var c := |BackupOpen| + |b|;
    assert s[..|BackupOpen|] == BackupOpen;
    assert s[c] == ')';
    assert s[|BackupOpen|..c] == b;
  }

  /** No group starts at a character other than `(`. */
  lemma NoGroupHere(s: string)
    requires s != [] && s[0] != '('
    ensures GroupEnd(s).None?
  {
    assert !(BackupOpen <= s) by { assert s[0] != BackupOpen[0]; }
  }

  /** Text without `(` before `g` holds no group: the search goes on into `g`. */
  lemma {:induction false} FirstBackupSkips(p: string, g: string)
    requires '(' !in p
    ensures FirstBackup(p + g) == FirstBackup(g)
    decreases |p|
  {
    if p == [] {
      assert p + g == g;
    } else {
      NoGroupHere(p + g);
      assert (p + g)[1..] == p[1..] + g;
      FirstBackupSkips(p[1..], g);
    }
  }

  /** Text without `(` before `g` is kept as it is. */
  lemma {:induction false} RemoveBackupsSkips(p: string, g: string)
    requires '(' !in p
    ensures RemoveBackups(p + g) == p + RemoveBackups(g)
    decreases |p|
  {
    if p == [] {
      assert p + g == g;
    } else {
      NoGroupHere(p + g);
      assert (p + g)[1..] == p[1..] + g;
      RemoveBackupsSkips(p[1..], g);
      assert p + RemoveBackups(g) == [p[0]] + (p[1..] + RemoveBackups(g));
    }
  }

  /** A group after text without `(` is the one found. */
  lemma BackupAfter(p: string, b: string, q: string)
    requires '(' !in p && b != [] && ')' !in b
    ensures FirstBackup(p + (BackupOpen + b + ")" + q)) == Some(b)
  {
    var g := BackupOpen + b + ")" + q;
    GroupEndOf(b, q);
    assert g[|BackupOpen|..|BackupOpen| + |b|] == b;
    FirstBackupSkips(p, g);
  }

  /** Removing the group after text without `(` leaves the text around it. */
  lemma BackupRemoved(p: string, b: string, q: string)
    requires '(' !in p && b != [] && ')' !in b
    ensures RemoveBackups(p + (BackupOpen + b + ")" + q)) == p + RemoveBackups(q)
  {
    var g := BackupOpen + b + ")" + q;
    GroupEndOf(b, q);
    assert g[|BackupOpen| + |b| + 1..] == q;
    RemoveBackupsSkips(p, g);
  }

  /** `"Name (Backup Other)"` gives the stripped name and the stripped other name. */
  lemma ExtractNameAndBackup(p: string, b: string)
    requires '(' !in p && b != [] && ')' !in b
    ensures ExtractPrimaryBackup(p + BackupOpen + b + ")") == (Strip(p), Some(Strip(b)))
  {
    BackupAfter(p, b, "");
    BackupRemoved(p, b, "");
    assert p + BackupOpen + b + ")" == p + (BackupOpen + b + ")" + "");
    assert p + RemoveBackups("") == p;
  }

  // ---------------------------------------------------------------------
  // The rows and the aggregation loop of `generate_sme_ttl`.
  // ---------------------------------------------------------------------

  /** `row.get(key, '').strip()` */
  function Field(row: Sheet.Row, key: string): string {
    Strip(if key in row then row[key] else "")
  }

  /** The `Contact` column after `.lower()`. */
  datatype Contact = PrimaryContact | SecondaryContact | OtherContact

  function ContactOf(c: string): Contact {
    var l := Lower(c);
    if l == "primary" then PrimaryContact
    else if l == "secondary" then SecondaryContact
    else OtherContact
  }

  /** The contact kind does not depend on letter case. */
  lemma ContactIgnoresCase(c: string)
    ensures ContactOf(Upper(c)) == ContactOf(c) && ContactOf(Lower(c)) == ContactOf(c)
  {
    LowerOfCased(c);
  }

  /** One row's stripped fields, with the person already split into primary and backup. */
  datatype Entry = Entry(stream: string, area: string, contact: Contact, person: string,
                         specialty: string, primary: string, backup: Option<string>)

  function EntryOf(row: Sheet.Row): Entry {
    var person := Field(row, "Person");
    var split := ExtractPrimaryBackup(person);
    Entry(Field(row, "Value Stream"), Field(row, "Functional Area of Responsibility"),
          ContactOf(Field(row, "Contact")), person, Field(row, "Specialty"), split.0, split.1)
  }

  function Entries(rows: seq<Sheet.Row>): (es: seq<Entry>)
    ensures |es| == |rows| && forall i :: 0 <= i < |rows| ==> es[i] == EntryOf(rows[i])
  {
    seq(|rows|, i requires 0 <= i < |rows| => EntryOf(rows[i]))
  }

  /** A functional area's `primary` and `secondary` name lists. */
  datatype Area = Area(primary: seq<string>, secondary: seq<string>)

  /** An entry of `all_smes`. */
  datatype Expert = Expert(modalities: set<string>, areas: set<string>, isPrimary: set<string>,
                           isBackup: set<string>, specialty: string)

  /** `functional_areas` (stream, then area) and `all_smes`. */
  datatype Tally = Tally(areas: map<string, map<string, Area>>, experts: map<string, Expert>)

  /** `f"{functional_area} ({value_stream})"` */
  function AreaLabel(area: string, stream: string): string { area + " (" + stream + ")" }

  /** The stream, and the area when there is one, opened with empty lists if new. */
  function Opened(t: Tally, e: Entry): (r: Tally)
    ensures e.stream in r.areas && (e.area != "" ==> e.area in r.areas[e.stream])
  {
    var fa := if e.stream in t.areas then t.areas else t.areas[e.stream := map[]];
    var byArea := fa[e.stream];
    if e.area != "" && e.area !in byArea then Tally(fa[e.stream := byArea[e.area := Area([], [])]], t.experts)
    else Tally(fa, t.experts)
  }

  /** The expert under `name`, created with `specialty` if new, with the stream added. */
  function Enrolled(experts: map<string, Expert>, name: string, specialty: string, stream: string): Expert {
    var x := if name in experts then experts[name] else Expert({}, {}, {}, {}, specialty);
    x.(modalities := x.modalities + {stream})
  }

  /** `functional_areas[stream][area] = lists` */
  function Put(fa: map<string, map<string, Area>>, stream: string, area: string, lists: Area): map<string, map<string, Area>>
    requires stream in fa
  {
    fa[stream := fa[stream][area := lists]]
  }

  /** The primary person's part of the loop body. */
  function TakePrimary(t: Tally, e: Entry): Tally
    requires e.stream in t.areas && (e.area != "" ==> e.area in t.areas[e.stream])
  {
    if e.primary == "" then t
    else
      var x := Enrolled(t.experts, e.primary, e.specialty, e.stream);
      if e.area == "" then Tally(t.areas, t.experts[e.primary := x])
      else
        var tag := AreaLabel(e.area, e.stream);
        var y := x.(areas := x.areas + {tag});
        var lists := t.areas[e.stream][e.area];
        match e.contact
        case PrimaryContact =>
          Tally(Put(t.areas, e.stream, e.area, lists.(primary := lists.primary + [e.primary])),
                t.experts[e.primary := y.(isPrimary := y.isPrimary + {tag})])
        case SecondaryContact =>
          Tally(Put(t.areas, e.stream, e.area, lists.(secondary := lists.secondary + [e.primary])),
                t.experts[e.primary := y.(isBackup := y.isBackup + {tag})])
        case OtherContact => Tally(t.areas, t.experts[e.primary := y])
  }

  /** The backup person's part of the loop body: always a secondary contact, created without a specialty. */
  function TakeBackup(t: Tally, e: Entry): Tally
    requires e.stream in t.areas && (e.area != "" ==> e.area in t.areas[e.stream])
  {
    if e.backup.None? || e.backup.value == "" then t
    else
      var b := e.backup.value;
      var x := Enrolled(t.experts, b, "", e.stream);
      if e.area == "" then Tally(t.areas, t.experts[b := x])
      else
        var tag := AreaLabel(e.area, e.stream);
        var lists := t.areas[e.stream][e.area];
        Tally(Put(t.areas, e.stream, e.area, lists.(secondary := lists.secondary + [b])),
              t.experts[b := x.(areas := x.areas + {tag}, isBackup := x.isBackup + {tag})])
  }

  /** One iteration of the row loop; rows without a value stream or a person are skipped. */
  function Step(t: Tally, e: Entry): Tally {
    if e.stream == "" || e.person == "" then t
    else
      var o := Opened(t, e);
      var p := TakePrimary(o, e);
      TakeBackup(p, e)
  }

  /** The aggregation after the given entries, in order. */
  function Run(es: seq<Entry>): Tally
    decreases |es|
  {
    if es == [] then Tally(map[], map[]) else Step(Run(es[..|es| - 1]), es[|es| - 1])
  }

  // ---------------------------------------------------------------------
  // What the aggregation keeps true.
  // ---------------------------------------------------------------------

  /** Every name listed under an area is an expert who has that area among the matching roles. */
  predicate ListedOk(t: Tally, m: string, a: string)
    requires m in t.areas && a in t.areas[m]
  {
    (forall n :: n in t.areas[m][a].primary ==> n in t.experts && AreaLabel(a, m) in t.experts[n].isPrimary)
    && (forall n :: n in t.areas[m][a].secondary ==> n in t.experts && AreaLabel(a, m) in t.experts[n].isBackup)
  }

  /** An expert works in at least one stream, every one of them opened, and holds roles only in its own areas. */
  predicate ExpertOk(t: Tally, n: string)
    requires n in t.experts
  {
    var x := t.experts[n];
    x.modalities != {} && x.modalities <= t.areas.Keys && x.isPrimary <= x.areas && x.isBackup <= x.areas
  }

  predicate Consistent(t: Tally) {
    (forall m, a | m in t.areas && a in t.areas[m] :: ListedOk(t, m, a))
    && (forall n | n in t.experts :: ExpertOk(t, n))
  }

  /** `t2` has every stream, area, expert and role of `t1`. */
  predicate Grows(t1: Tally, t2: Tally) {
    t1.areas.Keys <= t2.areas.Keys
    && (forall m | m in t1.areas :: t1.areas[m].Keys <= t2.areas[m].Keys)
    && t1.experts.Keys <= t2.experts.Keys
    && (forall n | n in t1.experts ::
          t1.experts[n].isPrimary <= t2.experts[n].isPrimary && t1.experts[n].isBackup <= t2.experts[n].isBackup
          && t1.experts[n].specialty == t2.experts[n].specialty)
  }

  lemma OpenedKeeps(t: Tally, e: Entry)
    requires Consistent(t)
    ensures Consistent(Opened(t, e)) && Grows(t, Opened(t, e))
  {
    var o := Opened(t, e);
    forall m, a | m in o.areas && a in o.areas[m] ensures ListedOk(o, m, a) {
      if m in t.areas && a in t.areas[m] {
        assert ListedOk(t, m, a);
        assert o.areas[m][a] == t.areas[m][a];
      } else {
        assert o.areas[m][a] == Area([], []);
      }
    }
    forall n | n in o.experts ensures ExpertOk(o, n) {
      assert ExpertOk(t, n);
    }
  }

  /** `y` keeps everything `x` recorded. */
  predicate ExpertGrows(x: Expert, y: Expert) {
    x.modalities <= y.modalities && x.areas <= y.areas && x.isPrimary <= y.isPrimary
    && x.isBackup <= y.isBackup && x.specialty == y.specialty
  }

  /** Storing a grown, well-formed expert keeps the tally consistent. */
  lemma PutExpert(t: Tally, n: string, y: Expert)
    requires Consistent(t)
    requires n in t.experts ==> ExpertGrows(t.experts[n], y)
    requires y.modalities != {} && y.modalities <= t.areas.Keys && y.isPrimary <= y.areas && y.isBackup <= y.areas
    ensures Consistent(Tally(t.areas, t.experts[n := y])) && Grows(t, Tally(t.areas, t.experts[n := y]))
  {
    var r := Tally(t.areas, t.experts[n := y]);
    forall m, a | m in r.areas && a in r.areas[m] ensures ListedOk(r, m, a) {
      assert ListedOk(t, m, a);
    }
    forall k | k in r.experts ensures ExpertOk(r, k) {
      if k != n {
        assert ExpertOk(t, k);
      }
    }
  }

  /** Listing an expert who already holds the matching role keeps the tally consistent. */
  lemma AppendListed(t: Tally, m: string, a: string, n: string, asPrimary: bool)
    requires Consistent(t) && m in t.areas && a in t.areas[m] && n in t.experts
    requires if asPrimary then AreaLabel(a, m) in t.experts[n].isPrimary else AreaLabel(a, m) in t.experts[n].isBackup
    ensures var l := t.areas[m][a];
      var r := Tally(Put(t.areas, m, a, if asPrimary then l.(primary := l.primary + [n]) else l.(secondary := l.secondary + [n])), t.experts);
      Consistent(r) && Grows(t, r)
  {
    var l := t.areas[m][a];
    var r := Tally(Put(t.areas, m, a, if asPrimary then l.(primary := l.primary + [n]) else l.(secondary := l.secondary + [n])), t.experts);
    forall m', a' | m' in r.areas && a' in r.areas[m'] ensures ListedOk(r, m', a') {
      assert ListedOk(t, m', a');
    }
    forall k | k in r.experts ensures ExpertOk(r, k) {
      assert ExpertOk(t, k);
    }
  }

  /** The expert as enrolled keeps what the tally had and is well-formed. */
  lemma EnrolledGrows(t: Tally, name: string, specialty: string, stream: string)
    requires Consistent(t) && stream in t.areas
    ensures var x := Enrolled(t.experts, name, specialty, stream);
      (name in t.experts ==> ExpertGrows(t.experts[name], x))
      && x.modalities != {} && x.modalities <= t.areas.Keys && x.isPrimary <= x.areas && x.isBackup <= x.areas
  {
    if name in t.experts {
      assert ExpertOk(t, name);
    }
  }

  lemma TakePrimaryKeeps(t: Tally, e: Entry)
    requires Consistent(t)
    requires e.stream in t.areas && (e.area != "" ==> e.area in t.areas[e.stream])
    ensures Consistent(TakePrimary(t, e)) && Grows(t, TakePrimary(t, e))
  {
    if e.primary != "" {
      var x := Enrolled(t.experts, e.primary, e.specialty, e.stream);
      EnrolledGrows(t, e.primary, e.specialty, e.stream);
      if e.area == "" {
        PutExpert(t, e.primary, x);
      } else {
        var tag := AreaLabel(e.area, e.stream);
        var y := x.(areas := x.areas + {tag});
        var z := match e.contact
          case PrimaryContact => y.(isPrimary := y.isPrimary + {tag})
          case SecondaryContact => y.(isBackup := y.isBackup + {tag})
          case OtherContact => y;
        PutExpert(t, e.primary, z);
        var t1 := Tally(t.areas, t.experts[e.primary := z]);
        if e.contact != OtherContact {
          AppendListed(t1, e.stream, e.area, e.primary, e.contact == PrimaryContact);
          GrowsTransitive(t, t1, TakePrimary(t, e));
        }
      }
    }
  }

  lemma TakeBackupKeeps(t: Tally, e: Entry)
    requires Consistent(t)
    requires e.stream in t.areas && (e.area != "" ==> e.area in t.areas[e.stream])
    ensures Consistent(TakeBackup(t, e)) && Grows(t, TakeBackup(t, e))
  {
    if e.backup.Some? && e.backup.value != "" {
      var b := e.backup.value;
      var x := Enrolled(t.experts, b, "", e.stream);
      EnrolledGrows(t, b, "", e.stream);
      if e.area == "" {
        PutExpert(t, b, x);
      } else {
        var tag := AreaLabel(e.area, e.stream);
        var z := x.(areas := x.areas + {tag}, isBackup := x.isBackup + {tag});
        PutExpert(t, b, z);
        var t1 := Tally(t.areas, t.experts[b := z]);
        AppendListed(t1, e.stream, e.area, b, false);
        GrowsTransitive(t, t1, TakeBackup(t, e));
      }
    }
  }

  /** One row keeps the aggregation consistent and loses nothing already recorded. */
  lemma StepKeeps(t: Tally, e: Entry)
    requires Consistent(t)
    ensures Consistent(Step(t, e)) && Grows(t, Step(t, e))
  {
    if e.stream != "" && e.person != "" {
      var o := Opened(t, e);
      OpenedKeeps(t, e);
      TakePrimaryKeeps(o, e);
      var p := TakePrimary(o, e);
      TakeBackupKeeps(p, e);
    }
  }

  lemma GrowsTransitive(t1: Tally, t2: Tally, t3: Tally)
    requires Grows(t1, t2) && Grows(t2, t3)
    ensures Grows(t1, t3)
  {
  }

  /**
   * After any rows the aggregation is consistent, and whatever an earlier
   * prefix recorded is still there: in particular an expert's specialty is
   * the one fixed when the name first appeared.
   */
  lemma {:induction false} RunKeeps(es: seq<Entry>, k: nat)
    requires k <= |es|
    ensures Consistent(Run(es)) && Grows(Run(es[..k]), Run(es))
    decreases |es|
  {
    if es == [] {
      assert es[..k] == es;
    } else {
      var n := |es| - 1;
      if k == |es| {
        RunKeeps(es[..n], 0);
        StepKeeps(Run(es[..n]), es[n]);
        assert es[..k] == es;
      } else {
        RunKeeps(es[..n], k);
        assert es[..n][..k] == es[..k];
        StepKeeps(Run(es[..n]), es[n]);
        GrowsTransitive(Run(es[..k]), Run(es[..n]), Run(es));
      }
    }
  }

  /** A name new to the tally gets the row's specialty as primary, none as backup only. */
  lemma NewExpertSpecialty(t: Tally, e: Entry, n: string)
    requires n !in t.experts && n in Step(t, e).experts
    ensures Step(t, e).experts[n].specialty == (if n == e.primary then e.specialty else "")
  {
    var o := Opened(t, e);
    assert o.experts == t.experts;
    var p := TakePrimary(o, e);
    assert n in p.experts ==> n == e.primary && p.experts[n].specialty == e.specialty;
    assert n in p.experts ==> TakeBackup(p, e).experts[n].specialty == p.experts[n].specialty;
  }

  /**
   * In a kept row with an area, the area's lists gain the primary person as
   * the contact kind says and then the backup as a secondary.
   */
  lemma StepLists(t: Tally, e: Entry)
    requires e.stream != "" && e.person != "" && e.area != ""
    ensures var before := if e.stream in t.areas && e.area in t.areas[e.stream] then t.areas[e.stream][e.area] else Area([], []);
      var after := Step(t, e).areas[e.stream][e.area];
      var listed := e.primary != "";
      var backup := if e.backup.Some? && e.backup.value != "" then [e.backup.value] else [];
      after.primary == before.primary + (if listed && e.contact == PrimaryContact then [e.primary] else [])
      && after.secondary == before.secondary + (if listed && e.contact == SecondaryContact then [e.primary] else []) + backup
  {
  }

  /** Skipped rows leave the tally as it was. */
  lemma SkippedRow(t: Tally, e: Entry)
    requires e.stream == "" || e.person == ""
    ensures Step(t, e) == t
  {
  }

  // ---------------------------------------------------------------------
  // The emitted text.
  // ---------------------------------------------------------------------

  /** `ttl_lines[-1].replace(' ;', ' .')`, as written: every ` ;` on the line. */
  function CloseAsWritten(line: string): string {
    Replace(line, " ;", " .")
  }

  /** The block's final ` ;` becomes ` .`; the rest of the line is left alone. */
  function Close(line: string): (r: string)
    ensures |r| == |line|
  {
    if EndsWith(line, " ;") then line[..|line| - 2] + " ." else line
  }

  /** Closing a statement line ends it with ` .` and keeps everything before the terminator. */
  lemma CloseEndsStatement(body: string)
    ensures Close(body + " ;") == body + " ."
    ensures EndsWith(Close(body + " ;"), " .")
  {
    assert EndsWith(body + " ;", " ;") by { assert (body + " ;")[|body|..] == " ;"; }
    assert (body + " ;")[..|body|] == body;
  }

  /** As written, a ` ;` inside a literal on the last line is rewritten too. */
  lemma CloseRewritesLiteral()
    ensures CloseAsWritten("\"a ;\" ;") == "\"a .\" ."
    ensures Close("\"a ;\" ;") == "\"a ;\" ."
  {
    var s := "\"a ;\" ;";
    assert s[0] == '"' && s[1] == 'a' && s[2] == ' ' && s[3] == ';' && s[4] == '"' && s[5] == ' ' && s[6] == ';';
    var t1, t2, t4, t5 := s[1..], s[2..], s[4..], s[5..];
    assert Replace(t5, " ;", " .") == " ." by {
      assert t5 == " ;" && t5[..2] == " ;" && t5[2..] == [];
    }
    assert Replace(t4, " ;", " .") == "\" ." by {
      assert t4[..2] != " ;" by { assert t4[..2][0] == '"'; }
      assert t4[1..] == t5;
    }
    assert Replace(t2, " ;", " .") == " .\" ." by {
      assert t2[..2] == " ;" && t2[2..] == t4;
    }
    assert Replace(t1, " ;", " .") == "a .\" ." by {
      assert t1[..2] != " ;" by { assert t1[..2][0] == 'a'; }
      assert t1[1..] == t2;
    }
    assert s[..2] != " ;" by { assert s[..2][0] == '"'; }
    CloseEndsStatement("\"a ;\"");
  }

  /** The block with its last line closed as the generator does it. */
  function Closed(lines: seq<string>): (r: seq<string>)
    requires lines != []
    ensures |r| == |lines| && r[..|r| - 1] == lines[..|lines| - 1]
  {
    lines[..|lines| - 1] + [CloseAsWritten(lines[|lines| - 1])]
  }

  /** `f'    {predicate} {object} ;'` */
  function PropLine(pred: string, obj: string): string { "    " + pred + " " + obj + " ;" }

  function Quoted(s: string): string { "\"" + s + "\"" }

  function PropLines(pred: string, objs: seq<string>): (r: seq<string>)
    ensures |r| == |objs| && forall i :: 0 <= i < |objs| ==> r[i] == PropLine(pred, objs[i])
  {
    seq(|objs|, i requires 0 <= i < |objs| => PropLine(pred, objs[i]))
  }

  function SmeRef(name: string): string { "ex:SME-" + Slug.SmeSlug(name) }

  function SmeRefs(names: seq<string>): (r: seq<string>)
    ensures |r| == |names| && forall i :: 0 <= i < |names| ==> r[i] == SmeRef(names[i])
  {
    seq(|names|, i requires 0 <= i < |names| => SmeRef(names[i]))
  }

  function QuotedAll(xs: seq<string>, escape: bool): (r: seq<string>)
    ensures |r| == |xs| && forall i :: 0 <= i < |xs| ==> r[i] == Quoted(if escape then Turtle.EscapeCmc(xs[i]) else xs[i])
  {
    seq(|xs|, i requires 0 <= i < |xs| => Quoted(if escape then Turtle.EscapeCmc(xs[i]) else xs[i]))
  }

  /** A functional area's block before closing: subject, label, modality, then its people. */
  function AreaLines(m: string, a: string, lists: Area): (r: seq<string>)
    ensures |r| == 3 + |lists.primary| + |lists.secondary|
  {
    ["\nex:FA-" + m + "-" + Slug.SmeSlug(a) + " a ex:FunctionalArea ;",
     PropLine("rdfs:label", Quoted(Turtle.EscapeCmc(a) + " (" + m + ")")),
     PropLine("ex:modality", Quoted(m))]
    + PropLines("ex:hasSME", SmeRefs(lists.primary))
    + PropLines("ex:hasBackupSME", SmeRefs(lists.secondary))
  }

  /** The closed blocks of the named areas, in the order given. */
  function AreaBlocks(m: string, names: seq<string>, byArea: map<string, Area>): seq<string>
    requires forall a :: a in names ==> a in byArea
  {
    if names == [] then []
    else
      var k := |names| - 1;
      AreaBlocks(m, names[..k], byArea) + Closed(AreaLines(m, names[k], byArea[names[k]]))
  }

  lemma AreaBlocksSnoc(m: string, names: seq<string>, byArea: map<string, Area>, i: nat)
    requires i < |names| && forall a :: a in names ==> a in byArea
    ensures AreaBlocks(m, names[..i + 1], byArea) == AreaBlocks(m, names[..i], byArea) + Closed(AreaLines(m, names[i], byArea[names[i]]))
  {
    assert names[..i + 1][..i] == names[..i];
  }

  /** The section of one stream: its heading, then its areas in sorted order. */
  ghost function StreamSection(m: string, byArea: map<string, Area>): seq<string> {
    ["\n# Functional Areas - " + m] + AreaBlocks(m, Order.SortedKeys(byArea.Keys), byArea)
  }

  ghost function StreamSections(names: seq<string>, fa: map<string, map<string, Area>>): seq<string>
    requires forall m :: m in names ==> m in fa
  {
    if names == [] then []
    else
      var k := |names| - 1;
      StreamSections(names[..k], fa) + StreamSection(names[k], fa[names[k]])
  }

  lemma StreamSectionsSnoc(names: seq<string>, fa: map<string, map<string, Area>>, i: nat)
    requires i < |names| && forall m :: m in names ==> m in fa
    ensures StreamSections(names[..i + 1], fa) == StreamSections(names[..i], fa) + StreamSection(names[i], fa[names[i]])
  {
    assert names[..i + 1][..i] == names[..i];
  }

  /** An expert's first three lines: subject, label and name. */
  function ExpertHead(n: string): seq<string> {
    ["\n" + SmeRef(n) + " a ex:SubjectMatterExpert ;",
     PropLine("rdfs:label", Quoted(Turtle.EscapeCmc(n))),
     PropLine("gist:name", Quoted(Turtle.EscapeCmc(n)))]
  }

  function SpecialtyLines(specialty: string): seq<string> {
    if specialty != "" then [PropLine("ex:hasSpecialty", Quoted(Turtle.EscapeCmc(specialty)))] else []
  }

  /** `ex:isPrimaryFor` / `ex:isBackupFor`: the sorted roles joined by `, `, or nothing without roles. */
  ghost function RoleLines(pred: string, roles: set<string>): seq<string> {
    if roles != {} then [PropLine(pred, Quoted(Join(", ", Order.SortedKeys(roles))))] else []
  }

  /** An expert's block before closing. */
  ghost function ExpertLines(n: string, x: Expert): seq<string> {
    ExpertHead(n)
    + PropLines("ex:hasExpertiseInModality", QuotedAll(Order.SortedKeys(x.modalities), false))
    + PropLines("ex:responsibleForArea", QuotedAll(Order.SortedKeys(x.areas), true))
    + SpecialtyLines(x.specialty)
    + RoleLines("ex:isPrimaryFor", x.isPrimary)
    + RoleLines("ex:isBackupFor", x.isBackup)
  }

  ghost function ExpertBlocks(names: seq<string>, experts: map<string, Expert>): seq<string>
    requires forall n :: n in names ==> n in experts
  {
    if names == [] then []
    else
      var k := |names| - 1;
      ExpertBlocks(names[..k], experts) + Closed(ExpertLines(names[k], experts[names[k]]))
  }

  lemma ExpertBlocksSnoc(names: seq<string>, experts: map<string, Expert>, i: nat)
    requires i < |names| && forall n :: n in names ==> n in experts
    ensures ExpertBlocks(names[..i + 1], experts) == ExpertBlocks(names[..i], experts) + Closed(ExpertLines(names[i], experts[names[i]]))
  {
    assert names[..i + 1][..i] == names[..i];
  }

  function Header(fileName: string): seq<string> {
    ["@prefix ex: <https://w3id.org/cmc-stagegate#> .",
     "@prefix gist: <https://ontologies.semanticarts.com/gist/> .",
     "@prefix rdfs: <http://www.w3.org/2000/01/rdf-schema#> .",
     "@prefix xsd: <http://www.w3.org/2001/XMLSchema#> .",
     "@prefix prov: <http://www.w3.org/ns/prov#> .",
     "",
     "# SME (Subject Matter Expert) Instances",
     "# Generated from: " + fileName,
     ""]
  }

  /** The lines written for a tally: header, streams in sorted order, then experts in sorted order. */
  ghost function Document(t: Tally, fileName: string): seq<string> {
    Header(fileName)
    + StreamSections(Order.SortedKeys(t.areas.Keys), t.areas)
    + ["\n\n# Subject Matter Experts"]
    + ExpertBlocks(Order.SortedKeys(t.experts.Keys), t.experts)
  }

  // ---------------------------------------------------------------------
  // The methods: the row loop and the emission loops.
  // ---------------------------------------------------------------------

  /** One iteration of the row loop over the two dictionaries. */
  method TakeRow(areas: map<string, map<string, Area>>, experts: map<string, Expert>, e: Entry)
    returns (areas': map<string, map<string, Area>>, experts': map<string, Expert>)
    ensures Tally(areas', experts') == Step(Tally(areas, experts), e)
  {
    areas', experts' := areas, experts;
    if e.stream == "" || e.person == "" {
      return;
    }
    if e.stream !in areas' {
      areas' := areas'[e.stream := map[]];
    }
    if e.area != "" && e.area !in areas'[e.stream] {
      areas' := areas'[e.stream := areas'[e.stream][e.area := Area([], [])]];
    }
    assert Tally(areas', experts') == Opened(Tally(areas, experts), e);
    ghost var o := Tally(areas', experts');
    if e.primary != "" {
      var x := if e.primary in experts' then experts'[e.primary] else Expert({}, {}, {}, {}, e.specialty);
      x := x.(modalities := x.modalities + {e.stream});
      if e.area != "" {
        var tag := AreaLabel(e.area, e.stream);
        x := x.(areas := x.areas + {tag});
        var lists := areas'[e.stream][e.area];
        if e.contact == PrimaryContact {
          areas' := Put(areas', e.stream, e.area, lists.(primary := lists.primary + [e.primary]));
          x := x.(isPrimary := x.isPrimary + {tag});
        } else if e.contact == SecondaryContact {
          areas' := Put(areas', e.stream, e.area, lists.(secondary := lists.secondary + [e.primary]));
          x := x.(isBackup := x.isBackup + {tag});
        }
      }
      experts' := experts'[e.primary := x];
    }
    assert Tally(areas', experts') == TakePrimary(o, e);
    ghost var p := Tally(areas', experts');
    if e.backup.Some? && e.backup.value != "" {
      var b := e.backup.value;
      var x := if b in experts' then experts'[b] else Expert({}, {}, {}, {}, "");
      x := x.(modalities := x.modalities + {e.stream});
      if e.area != "" {
        var tag := AreaLabel(e.area, e.stream);
        x := x.(areas := x.areas + {tag}, isBackup := x.isBackup + {tag});
        var lists := areas'[e.stream][e.area];
        areas' := Put(areas', e.stream, e.area, lists.(secondary := lists.secondary + [b]));
      }
      experts' := experts'[b := x];
    }
    assert Tally(areas', experts') == TakeBackup(p, e);
  }

  /** The row loop of `generate_sme_ttl`, over the rows' entries. */
  method Aggregate(es: seq<Entry>) returns (t: Tally)
    ensures t == Run(es)
  {
    var areas: map<string, map<string, Area>> := map[];
    var experts: map<string, Expert> := map[];
    for i := 0 to |es|
      invariant Tally(areas, experts) == Run(es[..i])
    {
      assert es[..i + 1][..i] == es[..i];
      areas, experts := TakeRow(areas, experts, es[i]);
    }
    assert es[..|es|] == es;
    t := Tally(areas, experts);
  }

  /** Appends one statement line per object. */
  method AppendProps(lines: seq<string>, pred: string, objs: seq<string>) returns (lines': seq<string>)
    ensures lines' == lines + PropLines(pred, objs)
  {
    lines' := lines;
    for i := 0 to |objs|
      invariant lines' == lines + PropLines(pred, objs[..i])
    {
      assert PropLines(pred, objs[..i + 1]) == PropLines(pred, objs[..i]) + [PropLine(pred, objs[i])];
      lines' := lines' + [PropLine(pred, objs[i])];
    }
    assert objs[..|objs|] == objs;
  }

  /** One functional area's block, closed. */
  method AreaBlock(m: string, a: string, lists: Area) returns (block: seq<string>)
    ensures block == Closed(AreaLines(m, a, lists))
  {
    block := ["\nex:FA-" + m + "-" + Slug.SmeSlug(a) + " a ex:FunctionalArea ;",
              PropLine("rdfs:label", Quoted(Turtle.EscapeCmc(a) + " (" + m + ")")),
              PropLine("ex:modality", Quoted(m))];
    block := AppendProps(block, "ex:hasSME", SmeRefs(lists.primary));
    block := AppendProps(block, "ex:hasBackupSME", SmeRefs(lists.secondary));
    block := Closed(block);
  }

  /** The inner loop over the areas, in the order given. */
  method EmitAreas(m: string, names: seq<string>, byArea: map<string, Area>) returns (blocks: seq<string>)
    requires forall a :: a in names ==> a in byArea
    ensures blocks == AreaBlocks(m, names, byArea)
  {
    blocks := [];
    for i := 0 to |names|
      invariant blocks == AreaBlocks(m, names[..i], byArea)
    {
      AreaBlocksSnoc(m, names, byArea, i);
      var block := AreaBlock(m, names[i], byArea[names[i]]);
      blocks := blocks + block;
    }
    assert names[..|names|] == names;
  }

  /** One stream's section: its heading, then its areas in sorted order. */
  method EmitSection(m: string, byArea: map<string, Area>) returns (lines: seq<string>)
    ensures lines == StreamSection(m, byArea)
  {
    var names := Order.SortNames(byArea.Keys);
    var blocks := EmitAreas(m, names, byArea);
    lines := ["\n# Functional Areas - " + m] + blocks;
  }

  /** The outer loop over the streams. */
  method EmitStreams(fa: map<string, map<string, Area>>) returns (lines: seq<string>)
    ensures lines == StreamSections(Order.SortedKeys(fa.Keys), fa)
  {
    var names := Order.SortNames(fa.Keys);
    lines := [];
    for i := 0 to |names|
      invariant lines == StreamSections(names[..i], fa)
    {
      StreamSectionsSnoc(names, fa, i);
      var section := EmitSection(names[i], fa[names[i]]);
      lines := lines + section;
    }
    assert names[..|names|] == names;
  }

  /** The role line, when there are roles. */
  method EmitRoles(pred: string, roles: set<string>) returns (lines: seq<string>)
    ensures lines == RoleLines(pred, roles)
  {
    lines := [];
    if roles != {} {
      var names := Order.SortNames(roles);
      lines := [PropLine(pred, Quoted(Join(", ", names)))];
    }
  }

  /** One expert's block, closed. */
  method EmitExpert(n: string, x: Expert) returns (block: seq<string>)
    ensures block == Closed(ExpertLines(n, x))
  {
    block := ExpertHead(n);
    var modalities := Order.SortNames(x.modalities);
    block := AppendProps(block, "ex:hasExpertiseInModality", QuotedAll(modalities, false));
    var areas := Order.SortNames(x.areas);
    block := AppendProps(block, "ex:responsibleForArea", QuotedAll(areas, true));
    block := block + SpecialtyLines(x.specialty);
    var primary := EmitRoles("ex:isPrimaryFor", x.isPrimary);
    var backup := EmitRoles("ex:isBackupFor", x.isBackup);
    block := Closed(block + primary + backup);
  }

  /** The loop over the experts, in the order given. */
  method EmitExpertList(names: seq<string>, experts: map<string, Expert>) returns (lines: seq<string>)
    requires forall n :: n in names ==> n in experts
    ensures lines == ExpertBlocks(names, experts)
  {
    lines := [];
    for i := 0 to |names|
      invariant lines == ExpertBlocks(names[..i], experts)
    {
      ExpertBlocksSnoc(names, experts, i);
      var block := EmitExpert(names[i], experts[names[i]]);
      lines := lines + block;
    }
    assert names[..|names|] == names;
  }

  /** The loop over the experts, in sorted order. */
  method EmitExperts(experts: map<string, Expert>) returns (lines: seq<string>)
    ensures lines == ExpertBlocks(Order.SortedKeys(experts.Keys), experts)
  {
    var names := Order.SortNames(experts.Keys);
    lines := EmitExpertList(names, experts);
  }

  /** `generate_sme_ttl` over the CSV rows: the text written. */
  method GenerateSmeTtl(rows: seq<Sheet.Row>, fileName: string) returns (ttl: string)
    ensures ttl == Join("\n", Document(Run(Entries(rows)), fileName))
  {
    var t := Aggregate(Entries(rows));
    var streams := EmitStreams(t.areas);
    var experts := EmitExperts(t.experts);
    ttl := Join("\n", Header(fileName) + streams + ["\n\n# Subject Matter Experts"] + experts);
  }
}
