/**
 * `validate_ttl_syntax_basic`: a line scanner that counts what it sees in a
 * Turtle file and collects coarse syntax complaints, without parsing.
 *
 * The file's content is the input; reading it (and the error raised when it
 * cannot be read) is outside the model. The regular expressions the scanner
 * uses are written out as small deterministic matchers.
 */
module VerifyTtl {
  import opened Wrappers
  import opened Text

  /** The counters of the `stats` dictionary. */
  datatype Stats = Stats(lines: nat, prefixes: nat, classes: nat, properties: nat,
                         instances: nat, comments: nat, triples: nat)

  /** The counters together with the running bracket depth. */
  datatype Scan = Scan(stats: Stats, depth: int)

  // ---------------------------------------------------------------------
  // The regular expressions, as greedy matchers
  // ---------------------------------------------------------------------

  /** The character classes the patterns use: `\s`, `\w` and `[^>]`. */
  datatype CharClass = Spaces | WordChars | NotGt

  predicate InClass(c: char, k: CharClass) {
    match k
    case Spaces => IsSpace(c)
    case WordChars => IsWord(c)
    case NotGt => c != '>'
  }

  /** One element of a pattern: a literal, `k*`, `k+`, or a choice of literals. */
  datatype Token = Lit(text: string) | Star(k: CharClass) | Plus(k: CharClass) | OneOf(alts: seq<string>)

  /** Length of the leading run of characters in class `k`. */
  function Run(s: string, k: CharClass): (n: nat)
    ensures n <= |s|
  {
    if s != [] && InClass(s[0], k) then 1 + Run(s[1..], k) else 0
  }

  /**
   * Whether `toks` matches at the start of `s` (`re.match`). Runs are taken
   * greedily: in every pattern below a run is followed by a character outside
   * its class, so the greedy run is the only one that can lead to a match.
   */
  predicate MatchAt(s: string, toks: seq<Token>)
    decreases |toks|
  {
    if toks == [] then true
    else
      var t := toks[0];
      match t
      case Lit(w) => w <= s && MatchAt(s[|w|..], toks[1..])
      case Star(k) => MatchAt(s[Run(s, k)..], toks[1..])
      case Plus(k) => Run(s, k) > 0 && MatchAt(s[Run(s, k)..], toks[1..])
      case OneOf(alts) => exists i :: 0 <= i < |alts| && alts[i] <= s && MatchAt(s[|alts[i]|..], toks[1..])
  }

  /** `re.search`: a match starting at some position. */
  predicate Search(s: string, toks: seq<Token>)
    decreases |s|
  {
    MatchAt(s, toks) || (s != [] && Search(s[1..], toks))
  }

  /** `@prefix\s+(\w+):\s*<([^>]+)>\s*\.` */
  const PrefixPattern: seq<Token> :=
    [Lit("@prefix"), Plus(Spaces), Plus(WordChars), Lit(":"), Star(Spaces),
     Lit("<"), Plus(NotGt), Lit(">"), Star(Spaces), Lit(".")]

  /** `(\w+:\w+)\s+a\s+(owl:Class|rdfs:Class)` */
  const ClassPattern: seq<Token> :=
    [Plus(WordChars), Lit(":"), Plus(WordChars), Plus(Spaces), Lit("a"), Plus(Spaces),
     OneOf(["owl:Class", "rdfs:Class"])]

  /** `(\w+:\w+)\s+rdfs:subClassOf` */
  const SubclassPattern: seq<Token> :=
    [Plus(WordChars), Lit(":"), Plus(WordChars), Plus(Spaces), Lit("rdfs:subClassOf")]

  /** `(\w+:\w+)\s+a\s+(owl:ObjectProperty|owl:DatatypeProperty|rdf:Property)` */
  const PropertyPattern: seq<Token> :=
    [Plus(WordChars), Lit(":"), Plus(WordChars), Plus(Spaces), Lit("a"), Plus(Spaces),
     OneOf(["owl:ObjectProperty", "owl:DatatypeProperty", "rdf:Property"])]

  /** `\.\s*[,;]` */
  const PunctPattern: seq<Token> := [Lit("."), Star(Spaces), OneOf([",", ";"])]

  // ---------------------------------------------------------------------
  // The line loop
  // ---------------------------------------------------------------------

  function Bit(b: bool): nat { if b then 1 else 0 }

  /** What one (stripped, non-comment) line adds to the bracket depth. */
  function DepthOf(s: string): int {
    CountChar(s, '[') - CountChar(s, ']') + CountChar(s, '(') - CountChar(s, ')')
  }

  /** Which of the four pattern counters a non-comment line bumps. */
  datatype Flags = Flags(prefix: bool, isClass: bool, isProperty: bool, isInstance: bool)

  function FlagsOf(s: string): Flags {
    Flags(MatchAt(s, PrefixPattern),
          Search(s, ClassPattern) || Search(s, SubclassPattern),
          Search(s, PropertyPattern),
          Contains(s, " a ") && !Contains(s, "owl:") && !Contains(s, "rdfs:Class"))
  }

  /** The counters after a non-comment stripped line `s` with flags `f`. */
  function Tally(sc: Scan, f: Flags, s: string): Scan {
    var st := sc.stats;
    Scan(st.(prefixes := st.prefixes + Bit(f.prefix),
             classes := st.classes + Bit(f.isClass),
             properties := st.properties + Bit(f.isProperty),
             instances := st.instances + Bit(f.isInstance),
             triples := st.triples + CountChar(s, '.') + CountChar(s, ';')),
         sc.depth + DepthOf(s))
  }

  /** One pass of the loop body over a raw line. */
  function LineStep(sc: Scan, line: string): (r: Scan)
    ensures r.stats.lines == sc.stats.lines
    ensures r.stats.comments + r.stats.prefixes <= sc.stats.comments + sc.stats.prefixes + 1
  {
    var s := Strip(line);
    if "#" <= s then Scan(sc.stats.(comments := sc.stats.comments + 1), sc.depth)
    else Tally(sc, FlagsOf(s), s)
  }

  /** The loop over `lines`, from the counters `sc`. */
  function ScanLines(sc: Scan, ls: seq<string>): Scan
    decreases |ls|
  {
    if ls == [] then sc else LineStep(ScanLines(sc, ls[..|ls| - 1]), ls[|ls| - 1])
  }

  /** The counters before the loop: `lines` already set, everything else zero. */
  function Start(content: string): Scan {
    Scan(Stats(|Split(content, '\n')|, 0, 0, 0, 0, 0, 0), 0)
  }

  /** The counters and depth after the loop. */
  function ScanOf(content: string): Scan {
    ScanLines(Start(content), Split(content, '\n'))
  }

  /** `f"{n}"` for an integer. */
  function IntToString(n: int): string {
    if n < 0 then "-" + NatToString(-n) else NatToString(n)
  }

  /** Whether `content.rstrip()` ends with `.`, `]` or `)`. */
  predicate ProperEnd(content: string) {
    var t := TrimRight(content, IsSpace);
    t != [] && (t[|t| - 1] == '.' || t[|t| - 1] == ']' || t[|t| - 1] == ')')
  }

  /** The complaints the scanner can append. */
  datatype Complaint =
    | Unbalanced(depth: int)
    | NoPrefixes
    | MissingPrefix(prefix: string)
    | DoubleSemicolon
    | PunctAfterPeriod
    | BadEnding

  /** The text of a complaint; none is as short as "Valid". */
  function Message(c: Complaint): (r: string)
    ensures |r| > 5
  {
    match c
    case Unbalanced(d) => "Unbalanced brackets: depth = " + IntToString(d)
    case NoPrefixes => "No @prefix declarations found"
    case MissingPrefix(p) => "Missing expected prefix: " + p
    case DoubleSemicolon => "Double semicolon found (possible syntax error)"
    case PunctAfterPeriod => "Comma or semicolon after period (possible syntax error)"
    case BadEnding => "File doesn't end with proper TTL terminator"
  }

  function Messages(cs: seq<Complaint>): (r: seq<string>)
    ensures |r| == |cs| && forall k :: 0 <= k < |cs| ==> r[k] == Message(cs[k])
  {
    if cs == [] then [] else [Message(cs[0])] + Messages(cs[1..])
  }

  const RequiredPrefixes: seq<string> := ["ex:", "rdfs:", "owl:"]

  /** One complaint per required prefix absent from the content, in list order. */
  function MissingAll(content: string, prefixes: seq<string>): (r: seq<Complaint>)
    ensures r == [] <==> forall k :: 0 <= k < |prefixes| ==> Contains(content, prefixes[k])
    decreases |prefixes|
  {
    if prefixes == [] then []
    else
      var p := prefixes[|prefixes| - 1];
      MissingAll(content, prefixes[..|prefixes| - 1]) + (if Contains(content, p) then [] else [MissingPrefix(p)])
  }

  /** The complaints about the counters, appended first. */
  function CounterComplaints(sc: Scan): (r: seq<Complaint>)
    ensures r == [] <==> sc.depth == 0 && sc.stats.prefixes > 0
  {
    (if sc.depth != 0 then [Unbalanced(sc.depth)] else [])
    + (if sc.stats.prefixes == 0 then [NoPrefixes] else [])
  }

  /** The complaints about the whole text, appended last. */
  function TextComplaints(content: string): (r: seq<Complaint>)
    ensures r == [] <==> !Contains(content, ";;") && !Search(content, PunctPattern) && ProperEnd(content)
  {
    (if Contains(content, ";;") then [DoubleSemicolon] else [])
    + (if Search(content, PunctPattern) then [PunctAfterPeriod] else [])
    + (if ProperEnd(content) then [] else [BadEnding])
  }

  /** The complaints, in the order they are appended. */
  function Errors(content: string, sc: Scan): seq<Complaint> {
    CounterComplaints(sc) + MissingAll(content, RequiredPrefixes) + TextComplaints(content)
  }

  datatype Verdict = Verdict(valid: bool, message: string, stats: Stats)

  /** The triple `validate_ttl_syntax_basic` returns for a readable file. */
  function Validate(content: string): Verdict {
    var sc := ScanOf(content);
    var errs := Errors(content, sc);
    if errs != [] then Verdict(false, Join("; ", Messages(errs)), sc.stats) else Verdict(true, "Valid", sc.stats)
  }

  // ---------------------------------------------------------------------
  // The imperative scanner
  // ---------------------------------------------------------------------

  /** The loop body: a comment line only bumps `comments`; any other line updates the rest. */
  method CountLine(stats: Stats, depth: int, line: string) returns (stats': Stats, depth': int)
    ensures Scan(stats', depth') == LineStep(Scan(stats, depth), line)
  {
    var stripped := Strip(line);
    if "#" <= stripped {
      stats' := stats.(comments := stats.comments + 1);
      depth' := depth;
      return;
    }
    stats', depth' := Bump(stats, depth, FlagsOf(stripped), stripped);
  }

  /** The updates for a non-comment line whose pattern tests gave `f`. */
  method Bump(stats: Stats, depth: int, f: Flags, stripped: string) returns (stats': Stats, depth': int)
    ensures Scan(stats', depth') == Tally(Scan(stats, depth), f, stripped)
  {
    var prefixes, classes, properties, instances := stats.prefixes, stats.classes, stats.properties, stats.instances;
    if f.prefix {
      prefixes := prefixes + 1;
    }
    if f.isClass {
      classes := classes + 1;
    }
    if f.isProperty {
      properties := properties + 1;
    }
    if f.isInstance {
      instances := instances + 1;
    }
    depth' := depth + CountChar(stripped, '[') - CountChar(stripped, ']');
    depth' := depth' + CountChar(stripped, '(') - CountChar(stripped, ')');
    var triples := stats.triples + CountChar(stripped, '.') + CountChar(stripped, ';');
    stats' := stats.(prefixes := prefixes, classes := classes, properties := properties,
                     instances := instances, triples := triples);
  }

  /** The loop over the lines of the content. */
  method ScanContent(content: string) returns (stats: Stats, depth: int)
    ensures Scan(stats, depth) == ScanOf(content)
  {
    var lines := Split(content, '\n');
    stats := Stats(|lines|, 0, 0, 0, 0, 0, 0);
    depth := 0;
    for i := 0 to |lines|
      invariant Scan(stats, depth) == ScanLines(Start(content), lines[..i])
    {
      assert lines[..i + 1][..i] == lines[..i];
      stats, depth := CountLine(stats, depth, lines[i]);
    }
    assert lines[..|lines|] == lines;
  }

  /** The checks after the loop, appending to `errors`. */
  method Complaints(content: string, stats: Stats, depth: int) returns (errors: seq<Complaint>)
    ensures errors == Errors(content, Scan(stats, depth))
  {
    errors := [];
    if depth != 0 {
      errors := errors + [Unbalanced(depth)];
    }
    if stats.prefixes == 0 {
      errors := errors + [NoPrefixes];
    }
    assert errors == CounterComplaints(Scan(stats, depth));
    ghost var before := errors;
    var required := RequiredPrefixes;
    for i := 0 to |required|
      invariant errors == before + MissingAll(content, required[..i])
    {
      assert required[..i + 1][..i] == required[..i];
      if !Contains(content, required[i]) {
        errors := errors + [MissingPrefix(required[i])];
      }
    }
    assert required[..|required|] == required;
    var tail := TextChecks(content);
    errors := errors + tail;
  }

  /** The three checks on the whole text. */
  method TextChecks(content: string) returns (tail: seq<Complaint>)
    ensures tail == TextComplaints(content)
  {
    tail := [];
    if Contains(content, ";;") {
      tail := tail + [DoubleSemicolon];
    }
    if Search(content, PunctPattern) {
      tail := tail + [PunctAfterPeriod];
    }
    if !ProperEnd(content) {
      tail := tail + [BadEnding];
    }
  }

  /** `validate_ttl_syntax_basic` over the file's content. */
  method ValidateTtlSyntaxBasic(content: string) returns (valid: bool, message: string, stats: Stats)
    ensures Verdict(valid, message, stats) == Validate(content)
  {
    var depth;
    stats, depth := ScanContent(content);
    var errors := Complaints(content, stats, depth);
    if errors != [] {
      return false, Join("; ", Messages(errors)), stats;
    }
    return true, "Valid", stats;
  }

  // ---------------------------------------------------------------------
  // What the scanner guarantees
  // ---------------------------------------------------------------------

  /** No complaint exactly when every check passes. */
  lemma NoErrorsIff(content: string, sc: Scan)
    ensures Errors(content, sc) == [] <==>
      (sc.depth == 0 && sc.stats.prefixes > 0
       && Contains(content, "ex:") && Contains(content, "rdfs:") && Contains(content, "owl:")
       && !Contains(content, ";;") && !Search(content, PunctPattern) && ProperEnd(content))
  {
    var missing := MissingAll(content, RequiredPrefixes);
    assert missing == [] <==> Contains(content, "ex:") && Contains(content, "rdfs:") && Contains(content, "owl:") by {
      assert RequiredPrefixes[0] == "ex:" && RequiredPrefixes[1] == "rdfs:" && RequiredPrefixes[2] == "owl:";
    }
    assert |Errors(content, sc)| == |CounterComplaints(sc)| + |missing| + |TextComplaints(content)|;
  }

  /**
   * The content is reported valid exactly when every check passes, and the
   * message is "Valid" exactly then.
   */
  lemma ValidIff(content: string)
    ensures var sc := ScanOf(content);
      Validate(content).valid <==>
        (sc.depth == 0 && sc.stats.prefixes > 0
         && Contains(content, "ex:") && Contains(content, "rdfs:") && Contains(content, "owl:")
         && !Contains(content, ";;") && !Search(content, PunctPattern) && ProperEnd(content))
    ensures Validate(content).valid <==> Validate(content).message == "Valid"
  {
    var errs := Errors(content, ScanOf(content));
    NoErrorsIff(content, ScanOf(content));
    if errs != [] {
      JoinLonger(Messages(errs));
    }
  }

  /** A join is at least as long as its first part. */
  lemma {:induction false} JoinLonger(parts: seq<string>)
    requires parts != []
    ensures |Join("; ", parts)| >= |parts[0]|
  {
    if |parts| > 1 {
      assert Join("; ", parts) == parts[0] + "; " + Join("; ", parts[1..]);
    }
  }

  /** `stats['lines']` counts `\n`-separated segments: one more than the newlines. */
  lemma LinesCount(content: string)
    ensures Validate(content).stats.lines == CountChar(content, '\n') + 1
  {
    ScanKeepsLines(Start(content), Split(content, '\n'));
  }

  lemma {:induction false} ScanKeepsLines(sc: Scan, ls: seq<string>)
    ensures ScanLines(sc, ls).stats.lines == sc.stats.lines
    decreases |ls|
  {
    if ls != [] {
      ScanKeepsLines(sc, ls[..|ls| - 1]);
    }
  }

  /** A comment line bumps `comments` and nothing else: not even the depth or the triples. */
  lemma CommentLineOnly(sc: Scan, line: string)
    requires "#" <= Strip(line)
    ensures LineStep(sc, line) == Scan(sc.stats.(comments := sc.stats.comments + 1), sc.depth)
  {
  }

  /** Whether the loop skips a line as a comment. */
  predicate IsComment(line: string) { "#" <= Strip(line) }

  /** The bracket depth the non-comment lines add up to. */
  function DepthSum(ls: seq<string>): int
    decreases |ls|
  {
    if ls == [] then 0
    else
      var l := ls[|ls| - 1];
      DepthSum(ls[..|ls| - 1]) + (if IsComment(l) then 0 else DepthOf(Strip(l)))
  }

  /** The `.` and `;` of the non-comment lines. */
  function TripleSum(ls: seq<string>): nat
    decreases |ls|
  {
    if ls == [] then 0
    else
      var l := ls[|ls| - 1];
      TripleSum(ls[..|ls| - 1]) + (if IsComment(l) then 0 else CountChar(Strip(l), '.') + CountChar(Strip(l), ';'))
  }

  /**
   * The depth and the triple count are plain sums over the lines: whatever the
   * order of openers and closers, only the totals reach the verdict.
   */
  lemma {:induction false} ScanTotals(sc: Scan, ls: seq<string>)
    ensures ScanLines(sc, ls).depth == sc.depth + DepthSum(ls)
    ensures ScanLines(sc, ls).stats.triples == sc.stats.triples + TripleSum(ls)
    decreases |ls|
  {
    if ls != [] {
      ScanTotals(sc, ls[..|ls| - 1]);
    }
  }

  /** Both sums split over a concatenation of lines. */
  lemma {:induction false} SumsConcat(a: seq<string>, b: seq<string>)
    ensures DepthSum(a + b) == DepthSum(a) + DepthSum(b)
    ensures TripleSum(a + b) == TripleSum(a) + TripleSum(b)
    decreases |b|
  {
    if b == [] {
      assert a + b == a;
    } else {
      var n := |b| - 1;
      assert (a + b)[..|a + b| - 1] == a + b[..n];
      SumsConcat(a, b[..n]);
    }
  }

  /**
   * Swapping two stretches of lines never changes the depth: a `]` that comes
   * before its `[` goes unnoticed.
   */
  lemma NestingIgnored(a: seq<string>, b: seq<string>)
    ensures DepthSum(a + b) == DepthSum(b + a)
  {
    SumsConcat(a, b);
    SumsConcat(b, a);
  }
}
