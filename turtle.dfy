/**
 * Turtle string literals: the body grammars of the short (`"…"`) and long
 * (`"""…"""`) quoted forms (productions STRING_LITERAL_QUOTE,
 * STRING_LITERAL_LONG_QUOTE and ECHAR, section 6.5 of W3C RDF 1.1 Turtle),
 * the decoding of a literal token, and the escapers the generators use to
 * build literal tokens, each with the value its token decodes to.
 */
module Turtle {
  import opened Text
  import opened Wrappers

  /** The letter after a backslash in an ECHAR escape. */
  predicate IsEchar(c: char) {
    c == 't' || c == 'b' || c == 'n' || c == 'r' || c == 'f' || c == '"' || c == '\'' || c == '\\'
  }

  /** The character an ECHAR escape stands for. */
  function EcharValue(c: char): char {
    if c == 't' then '\t'
    else if c == 'b' then 8 as char
    else if c == 'n' then '\n'
    else if c == 'r' then '\r'
    else if c == 'f' then 12 as char
    else c
  }

  /** Body of a STRING_LITERAL_QUOTE: no raw `"`, `\`, LF or CR except inside an escape. */
  predicate ShortBodyOk(b: string)
    decreases |b|
  {
    if b == [] then true
    else if b[0] == '\\' then |b| >= 2 && IsEchar(b[1]) && ShortBodyOk(b[2..])
    else b[0] != '"' && b[0] != '\n' && b[0] != '\r' && ShortBodyOk(b[1..])
  }

  /** Number of raw quotes (at most two) that may open one unit of a long body. */
  function LeadQuotes(b: string): nat {
    if b != [] && b[0] == '"' then (if |b| >= 2 && b[1] == '"' then 2 else 1) else 0
  }

  /**
   * Body of a STRING_LITERAL_LONG_QUOTE: `( ('"' | '""')? ([^"\\] | ECHAR) )*`.
   * Raw quotes come in runs of at most two and are always followed by another
   * character, so the body neither contains `"""` nor ends in a raw quote.
   */
  predicate LongBodyOk(b: string)
    decreases |b|
  {
    if b == [] then true
    else
      var q := LeadQuotes(b);
      q < |b| && b[q] != '"' &&
      if b[q] == '\\' then q + 1 < |b| && IsEchar(b[q + 1]) && LongBodyOk(b[q + 2..])
      else LongBodyOk(b[q + 1..])
  }

  /** The characters a literal body stands for, escapes decoded. */
  function Unescape(b: string): string
    decreases |b|
  {
    if b == [] then []
    else if b[0] == '\\' && |b| >= 2 then [EcharValue(b[1])] + Unescape(b[2..])
    else [b[0]] + Unescape(b[1..])
  }

  const Quote3: string := "\"\"\""

  /** The value a Turtle string-literal token denotes, or None if the token is not one. */
  function ParseLiteral(lit: string): Option<string> {
    if |lit| >= 6 && lit[..3] == Quote3 && lit[|lit| - 3..] == Quote3 then
      var body := lit[3..|lit| - 3];
      if LongBodyOk(body) then Some(Unescape(body)) else None
    else if |lit| >= 2 && lit[0] == '"' && lit[|lit| - 1] == '"' then
      var body := lit[1..|lit| - 1];
      if ShortBodyOk(body) then Some(Unescape(body)) else None
    else None
  }

  /** Concatenation of `f` over the characters of `s`. */
  function FlatMap(s: string, f: char -> string): string {
    if s == [] then [] else f(s[0]) + FlatMap(s[1..], f)
  }

  // ---------------------------------------------------------------------
  // Per-character escapes: the reference definitions of the escapers.
  // ---------------------------------------------------------------------

  /** Escape used by generate_cmc_ttl.py and generate_sme_ttl.py: CR is written as `\n`. */
  function CmcChar(c: char): string {
    if c == '\\' then "\\\\"
    else if c == '"' then "\\\""
    else if c == '\r' then "\\n"
    else if c == '\n' then "\\n"
    else if c == '\t' then "\\t"
    else [c]
  }

  /** Escape of the single-line branch of the GUPRI and lexicon escapers. */
  function ShortChar(c: char): string {
    if c == '\\' then "\\\\"
    else if c == '"' then "\\\""
    else if c == '\t' then "\\t"
    else if c == '\r' then "\\r"
    else if c == '\n' then "\\n"
    else [c]
  }

  /** Escape of the multi-line branch once every quote is escaped. */
  function LongChar(c: char): string {
    if c == '\\' then "\\\\"
    else if c == '"' then "\\\""
    else [c]
  }

  // ---------------------------------------------------------------------
  // The escapers, as chains of `str.replace` calls.
  // ---------------------------------------------------------------------

  /**
   * `escape_turtle_literal` of generate_cmc_ttl.py (and its copy in
   * generate_sme_ttl.py): the body only; callers add the quotes.
   */
  function EscapeCmc(v: string): string {
    Replace(Replace(Replace(Replace(Replace(v, "\\", "\\\\"), "\"", "\\\""), "\r", "\\n"), "\n", "\\n"), "\t", "\\t")
  }

  /** Single-line branch of the GUPRI escaper (four replacements). */
  function GupriShortBody(v: string): string {
    Replace(Replace(Replace(Replace(v, "\\", "\\\\"), "\"", "\\\""), "\t", "\\t"), "\r", "\\r")
  }

  /** Single-line branch of the lexicon escaper (five replacements). */
  function LexiconShortBody(v: string): string {
    Replace(Replace(Replace(Replace(Replace(v, "\\", "\\\\"), "\"", "\\\""), "\t", "\\t"), "\r", "\\r"), "\n", "\\n")
  }

  /** Multi-line branch as written: backslashes doubled, then each `"""` escaped. */
  function LongBodyAsWritten(v: string): string {
    Replace(Replace(v, "\\", "\\\\"), Quote3, "\\\"\\\"\\\"")
  }

  /** Multi-line branch with every quote escaped. */
  function LongBody(v: string): string {
    Replace(Replace(v, "\\", "\\\\"), "\"", "\\\"")
  }

  predicate Multiline(v: string) { '\n' in v || '\r' in v }

  /** `escape_turtle_literal` of generate_cmc_ttl_gupri.py, as written. */
  function EscapeGupriAsWritten(value: Option<string>): string {
    match value
    case None => "\"\""
    case Some(v) =>
      if Multiline(v) then Quote3 + LongBodyAsWritten(v) + Quote3
      else "\"" + GupriShortBody(v) + "\""
  }

  /** The GUPRI escaper with the multi-line branch escaping every quote. */
  function EscapeGupri(value: Option<string>): string {
    match value
    case None => "\"\""
    case Some(v) =>
      if Multiline(v) then Quote3 + LongBody(v) + Quote3
      else "\"" + GupriShortBody(v) + "\""
  }

  /** `escape_turtle_literal` of generate_lexicon_ttl.py, as written: strips first. */
  function EscapeLexiconAsWritten(value: Option<string>): string {
    match value
    case None => "\"\""
    case Some(raw) =>
      var v := Strip(raw);
      if Multiline(v) then Quote3 + LongBodyAsWritten(v) + Quote3
      else "\"" + LexiconShortBody(v) + "\""
  }

  /** The lexicon escaper with the multi-line branch escaping every quote. */
  function EscapeLexicon(value: Option<string>): string {
    match value
    case None => "\"\""
    case Some(raw) =>
      var v := Strip(raw);
      if Multiline(v) then Quote3 + LongBody(v) + Quote3
      else "\"" + LexiconShortBody(v) + "\""
  }

  // ---------------------------------------------------------------------
  // Replacement chains agree with the per-character escapes.
  // ---------------------------------------------------------------------

  lemma SubstSingle(x: char, c: char, rep: string)
    ensures Subst([x], c, rep) == if x == c then rep else [x]
  {
    assert [x][1..] == [];
  }

  lemma {:induction false} FlatMapCons(x: char, t: string, f: char -> string)
    ensures FlatMap([x] + t, f) == f(x) + FlatMap(t, f)
  {
    assert ([x] + t)[1..] == t;
  }

  function CmcSubst(v: string): string {
    Subst(Subst(Subst(Subst(Subst(v, '\\', "\\\\"), '"', "\\\""), '\r', "\\n"), '\n', "\\n"), '\t', "\\t")
  }

  lemma CmcSubstConcat(a: string, b: string)
    ensures CmcSubst(a + b) == CmcSubst(a) + CmcSubst(b)
  {
    var a1, b1 := Subst(a, '\\', "\\\\"), Subst(b, '\\', "\\\\");
    SubstConcat(a, b, '\\', "\\\\");
    var a2, b2 := Subst(a1, '"', "\\\""), Subst(b1, '"', "\\\"");
    SubstConcat(a1, b1, '"', "\\\"");
    var a3, b3 := Subst(a2, '\r', "\\n"), Subst(b2, '\r', "\\n");
    SubstConcat(a2, b2, '\r', "\\n");
    var a4, b4 := Subst(a3, '\n', "\\n"), Subst(b3, '\n', "\\n");
    SubstConcat(a3, b3, '\n', "\\n");
    SubstConcat(a4, b4, '\t', "\\t");
  }

  lemma CmcSubstChar(x: char)
    ensures CmcSubst([x]) == CmcChar(x)
  {
    SubstSingle(x, '\\', "\\\\");
    if x != '\\' {
      SubstSingle(x, '"', "\\\"");
      if x != '"' {
        SubstSingle(x, '\r', "\\n");
        if x != '\r' {
          SubstSingle(x, '\n', "\\n");
          if x != '\n' {
            SubstSingle(x, '\t', "\\t");
          }
        }
      }
    }
  }

  /** The CMC replacement chain escapes each character independently. */
  lemma {:induction false} EscapeCmcPerChar(v: string)
    ensures EscapeCmc(v) == FlatMap(v, CmcChar)
  {
    var v1 := Subst(v, '\\', "\\\\");
    ReplaceOneChar(v, '\\', "\\\\");
    var v2 := Subst(v1, '"', "\\\"");
    ReplaceOneChar(v1, '"', "\\\"");
    var v3 := Subst(v2, '\r', "\\n");
    ReplaceOneChar(v2, '\r', "\\n");
    var v4 := Subst(v3, '\n', "\\n");
    ReplaceOneChar(v3, '\n', "\\n");
    ReplaceOneChar(v4, '\t', "\\t");
    CmcSubstFlat(v);
  }

  lemma {:induction false} CmcSubstFlat(v: string)
    ensures CmcSubst(v) == FlatMap(v, CmcChar)
  {
    if v != [] {
      assert v == [v[0]] + v[1..];
      CmcSubstConcat([v[0]], v[1..]);
      CmcSubstChar(v[0]);
      CmcSubstFlat(v[1..]);
      FlatMapCons(v[0], v[1..], CmcChar);
    }
  }

  function ShortSubst(v: string): string {
    Subst(Subst(Subst(Subst(Subst(v, '\\', "\\\\"), '"', "\\\""), '\t', "\\t"), '\r', "\\r"), '\n', "\\n")
  }

  lemma ShortSubstConcat(a: string, b: string)
    ensures ShortSubst(a + b) == ShortSubst(a) + ShortSubst(b)
  {
    var a1, b1 := Subst(a, '\\', "\\\\"), Subst(b, '\\', "\\\\");
    SubstConcat(a, b, '\\', "\\\\");
    var a2, b2 := Subst(a1, '"', "\\\""), Subst(b1, '"', "\\\"");
    SubstConcat(a1, b1, '"', "\\\"");
    var a3, b3 := Subst(a2, '\t', "\\t"), Subst(b2, '\t', "\\t");
    SubstConcat(a2, b2, '\t', "\\t");
    var a4, b4 := Subst(a3, '\r', "\\r"), Subst(b3, '\r', "\\r");
    SubstConcat(a3, b3, '\r', "\\r");
    SubstConcat(a4, b4, '\n', "\\n");
  }

  lemma ShortSubstChar(x: char)
    ensures ShortSubst([x]) == ShortChar(x)
  {
    SubstSingle(x, '\\', "\\\\");
    if x != '\\' {
      SubstSingle(x, '"', "\\\"");
      if x != '"' {
        SubstSingle(x, '\t', "\\t");
        if x != '\t' {
          SubstSingle(x, '\r', "\\r");
          if x != '\r' {
            SubstSingle(x, '\n', "\\n");
          }
        }
      }
    }
  }

  lemma {:induction false} ShortSubstFlat(v: string)
    ensures ShortSubst(v) == FlatMap(v, ShortChar)
  {
    if v != [] {
      assert v == [v[0]] + v[1..];
      ShortSubstConcat([v[0]], v[1..]);
      ShortSubstChar(v[0]);
      ShortSubstFlat(v[1..]);
      FlatMapCons(v[0], v[1..], ShortChar);
    }
  }

  /** The lexicon single-line chain escapes each character independently. */
  lemma LexiconShortPerChar(v: string)
    ensures LexiconShortBody(v) == FlatMap(v, ShortChar)
  {
    var v1 := Subst(v, '\\', "\\\\");
    ReplaceOneChar(v, '\\', "\\\\");
    var v2 := Subst(v1, '"', "\\\"");
    ReplaceOneChar(v1, '"', "\\\"");
    var v3 := Subst(v2, '\t', "\\t");
    ReplaceOneChar(v2, '\t', "\\t");
    var v4 := Subst(v3, '\r', "\\r");
    ReplaceOneChar(v3, '\r', "\\r");
    ReplaceOneChar(v4, '\n', "\\n");
    ShortSubstFlat(v);
  }

  /** Substituting a character that does not occur changes nothing. */
  lemma {:induction false} SubstAbsent(s: string, c: char, rep: string)
    requires c !in s
    ensures Subst(s, c, rep) == s
  {
    if s != [] {
      SubstAbsent(s[1..], c, rep);
      assert s == [s[0]] + s[1..];
    }
  }

  lemma {:induction false} SubstKeepsAbsent(s: string, c: char, rep: string, d: char)
    requires d !in s && d !in rep
    ensures d !in Subst(s, c, rep)
  {
    if s != [] {
      SubstKeepsAbsent(s[1..], c, rep, d);
      assert s == [s[0]] + s[1..];
    }
  }

  /** On a value without LF, the GUPRI chain (which has no LF step) agrees with the per-character escape. */
  lemma GupriShortPerChar(v: string)
    requires '\n' !in v
    ensures GupriShortBody(v) == FlatMap(v, ShortChar)
  {
    var v1 := Subst(v, '\\', "\\\\");
    ReplaceOneChar(v, '\\', "\\\\");
    SubstKeepsAbsent(v, '\\', "\\\\", '\n');
    var v2 := Subst(v1, '"', "\\\"");
    ReplaceOneChar(v1, '"', "\\\"");
    SubstKeepsAbsent(v1, '"', "\\\"", '\n');
    var v3 := Subst(v2, '\t', "\\t");
    ReplaceOneChar(v2, '\t', "\\t");
    SubstKeepsAbsent(v2, '\t', "\\t", '\n');
    var v4 := Subst(v3, '\r', "\\r");
    ReplaceOneChar(v3, '\r', "\\r");
    SubstKeepsAbsent(v3, '\r', "\\r", '\n');
    SubstAbsent(v4, '\n', "\\n");
    ShortSubstFlat(v);
  }

  function LongSubst(v: string): string {
    Subst(Subst(v, '\\', "\\\\"), '"', "\\\"")
  }

  lemma {:induction false} LongSubstFlat(v: string)
    ensures LongSubst(v) == FlatMap(v, LongChar)
  {
    if v != [] {
      var x, t := v[0], v[1..];
      assert v == [x] + t;
      SubstConcat([x], t, '\\', "\\\\");
      SubstSingle(x, '\\', "\\\\");
      SubstConcat(Subst([x], '\\', "\\\\"), Subst(t, '\\', "\\\\"), '"', "\\\"");
      if x != '\\' {
        SubstSingle(x, '"', "\\\"");
      }
      LongSubstFlat(t);
      FlatMapCons(x, t, LongChar);
    }
  }

  /** The corrected multi-line chain escapes each character independently. */
  lemma LongBodyPerChar(v: string)
    ensures LongBody(v) == FlatMap(v, LongChar)
  {
    ReplaceOneChar(v, '\\', "\\\\");
    ReplaceOneChar(Subst(v, '\\', "\\\\"), '"', "\\\"");
    LongSubstFlat(v);
  }

  // ---------------------------------------------------------------------
  // Each escape yields a body of the right form that decodes to the value.
  // ---------------------------------------------------------------------

  /** A character the short form may carry raw. */
  predicate ShortRaw(c: char) { c != '"' && c != '\\' && c != '\n' && c != '\r' }

  lemma {:induction false} CmcFlatOk(v: string)
    ensures ShortBodyOk(FlatMap(v, CmcChar))
    ensures Unescape(FlatMap(v, CmcChar)) == Subst(v, '\r', "\n")
  {
    if v != [] {
      var x, t := v[0], v[1..];
      var rest := FlatMap(t, CmcChar);
      CmcFlatOk(t);
      FlatMapCons(x, t, CmcChar);
      assert v == [x] + t;
      var b := CmcChar(x) + rest;
      if ShortRaw(x) && x != '\t' {
        assert b[1..] == rest;
      } else {
        assert b[2..] == rest;
      }
      SubstConcat([x], t, '\r', "\n");
      SubstSingle(x, '\r', "\n");
    }
  }

  lemma {:induction false} ShortFlatOk(v: string)
    ensures ShortBodyOk(FlatMap(v, ShortChar))
    ensures Unescape(FlatMap(v, ShortChar)) == v
  {
    if v != [] {
      var x, t := v[0], v[1..];
      var rest := FlatMap(t, ShortChar);
      ShortFlatOk(t);
      FlatMapCons(x, t, ShortChar);
      assert v == [x] + t;
      var b := ShortChar(x) + rest;
      if ShortRaw(x) && x != '\t' {
        assert b[1..] == rest;
      } else {
        assert b[2..] == rest;
      }
    }
  }

  lemma {:induction false} LongFlatOk(v: string)
    ensures LongBodyOk(FlatMap(v, LongChar))
    ensures Unescape(FlatMap(v, LongChar)) == v
  {
    if v != [] {
      var x, t := v[0], v[1..];
      var rest := FlatMap(t, LongChar);
      LongFlatOk(t);
      FlatMapCons(x, t, LongChar);
      assert v == [x] + t;
      var b := LongChar(x) + rest;
      assert LeadQuotes(b) == 0;
      if x != '"' && x != '\\' {
        assert b[1..] == rest;
      } else {
        assert b[2..] == rest;
      }
    }
  }

  /** Wrapping a short body in quotes gives a token that decodes to the body's value. */
  lemma ShortToken(body: string)
    requires ShortBodyOk(body)
    ensures ParseLiteral("\"" + body + "\"") == Some(Unescape(body))
  {
    var lit := "\"" + body + "\"";
    assert lit[1..|lit| - 1] == body;
  }

  lemma LongToken(body: string)
    requires LongBodyOk(body)
    ensures ParseLiteral(Quote3 + body + Quote3) == Some(Unescape(body))
  {
    var lit := Quote3 + body + Quote3;
    assert lit[..3] == Quote3;
    assert lit[|lit| - 3..] == Quote3;
    assert lit[3..|lit| - 3] == body;
  }

  /**
   * The CMC and SME generators write `"` + EscapeCmc(v) + `"`: a short literal
   * denoting `v` with each CR turned into LF.
   */
  lemma EscapeCmcDenotes(v: string)
    ensures ShortBodyOk(EscapeCmc(v))
    ensures ParseLiteral("\"" + EscapeCmc(v) + "\"") == Some(Subst(v, '\r', "\n"))
  {
    EscapeCmcPerChar(v);
    CmcFlatOk(v);
    ShortToken(EscapeCmc(v));
  }

  /** The corrected GUPRI escaper yields a literal token denoting exactly the value. */
  lemma EscapeGupriDenotes(value: Option<string>)
    ensures ParseLiteral(EscapeGupri(value)) == Some(if value.Some? then value.value else "")
    ensures value.Some? && Multiline(value.value) ==> EscapeGupri(value)[..3] == Quote3
  {
    match value
    case None =>
      ShortToken("");
      assert "\"" + "" + "\"" == "\"\"";
    case Some(v) =>
      if Multiline(v) {
        LongBodyPerChar(v);
        LongFlatOk(v);
        LongToken(LongBody(v));
      } else {
        GupriShortPerChar(v);
        ShortFlatOk(v);
        ShortToken(GupriShortBody(v));
      }
  }

  /** The corrected lexicon escaper yields a literal token denoting the stripped value. */
  lemma EscapeLexiconDenotes(value: Option<string>)
    ensures ParseLiteral(EscapeLexicon(value)) == Some(if value.Some? then Strip(value.value) else "")
  {
    match value
    case None =>
      ShortToken("");
      assert "\"" + "" + "\"" == "\"\"";
    case Some(raw) =>
      var v := Strip(raw);
      if Multiline(v) {
        LongBodyPerChar(v);
        LongFlatOk(v);
        LongToken(LongBody(v));
      } else {
        LexiconShortPerChar(v);
        ShortFlatOk(v);
        ShortToken(LexiconShortBody(v));
      }
  }

  /** The escapers as written and corrected agree on every single-line value. */
  lemma EscapeGupriAgreesSingleLine(value: Option<string>)
    requires value.Some? ==> !Multiline(value.value)
    ensures EscapeGupriAsWritten(value) == EscapeGupri(value)
    ensures EscapeLexiconAsWritten(value) == EscapeLexicon(value)
  {
  }

  /** The two-character run at the end of the counterexample is not a long body. */
  lemma TrailingQuoteNotLongBody()
    ensures !LongBodyOk("a\n\"")
  {
    var v := "a\n\"";
    assert LeadQuotes(v) == 0 && v[1..] == "\n\"";
    assert LeadQuotes("\n\"") == 0 && "\n\""[1..] == "\"";
    assert LeadQuotes("\"") == 1;
  }

  lemma AsWrittenLongExample()
    ensures LongBodyAsWritten("a\n\"") == "a\n\""
  {
    var v := "a\n\"";
    ReplaceOneChar(v, '\\', "\\\\");
    SubstAbsent(v, '\\', "\\\\");
    assert v[..3] != Quote3;
    assert |v[1..]| < |Quote3|;
  }

  /**
   * As written, a multi-line value ending in a quote yields `""""` at the
   * close: the token is not a Turtle long string literal.
   */
  lemma GupriTrailingQuoteBreaks()
    ensures EscapeGupriAsWritten(Some("a\n\"")) == Quote3 + "a\n\"" + Quote3
    ensures ParseLiteral(EscapeGupriAsWritten(Some("a\n\""))) == None
    ensures ParseLiteral(EscapeGupri(Some("a\n\""))) == Some("a\n\"")
  {
    var v := "a\n\"";
    GupriAsWrittenExample();
    ParseLongLiteral(v);
    TrailingQuoteNotLongBody();
    EscapeGupriDenotes(Some(v));
  }

  lemma GupriAsWrittenExample()
    ensures EscapeGupriAsWritten(Some("a\n\"")) == Quote3 + "a\n\"" + Quote3
  {
    var v := "a\n\"";
    assert Multiline(v) by { assert v[1] == '\n'; }
    AsWrittenLongExample();
  }

  /** A token between triple quotes reads as a long literal exactly when its body is one. */
  lemma ParseLongLiteral(body: string)
    ensures ParseLiteral(Quote3 + body + Quote3) == if LongBodyOk(body) then Some(Unescape(body)) else None
  {
    var lit := Quote3 + body + Quote3;
    assert lit[..3] == Quote3 && lit[|lit| - 3..] == Quote3;
    assert lit[3..|lit| - 3] == body;
  }

  /** The same defect in the lexicon escaper: the value is stripped, the closing quote survives. */
  lemma LexiconTrailingQuoteBreaks()
    ensures ParseLiteral(EscapeLexiconAsWritten(Some("a\n\""))) == None
    ensures ParseLiteral(EscapeLexicon(Some("a\n\""))) == Some("a\n\"")
  {
    var v := "a\n\"";
    assert Strip(v) == v by { TrimNoop(v, IsSpace); }
    assert EscapeLexiconAsWritten(Some(v)) == EscapeGupriAsWritten(Some(v));
    GupriTrailingQuoteBreaks();
    EscapeLexiconDenotes(Some(v));
  }
}
