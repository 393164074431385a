/**
 * The identifier slugs the generators put into IRIs (`safe_id` in each
 * script) and the readable-hint cleaner of the GUPRI generator. Each slug is
 * characterised by a shape predicate: the slug function lands in its shape and
 * leaves strings already in that shape unchanged, so every slug is idempotent.
 */
module Slug {
  import opened Text

  predicate NotLowerAlnum(c: char) { !IsLowerAlnum(c) }
  predicate NotAlnum(c: char) { !IsAlnum(c) }

  /** No two neighbouring characters both satisfy `p`. */
  predicate NoAdjacent(s: string, p: char -> bool) {
    forall i :: 0 <= i < |s| - 1 ==> !(p(s[i]) && p(s[i + 1]))
  }

  /** Every character satisfying `isSep` is `rep`, and no two such are neighbours. */
  predicate Collapsed(s: string, isSep: char -> bool, rep: char) {
    (forall i :: 0 <= i < |s| ==> isSep(s[i]) ==> s[i] == rep) && NoAdjacent(s, isSep)
  }

  /** `re.sub(r"[…]+", rep, s)`: each maximal run of separator characters becomes one `rep`. */
  function CollapseRuns(s: string, isSep: char -> bool, rep: char): (r: string)
    ensures forall i :: 0 <= i < |r| ==> r[i] == rep || !isSep(r[i])
    ensures s != [] ==> r != [] && (isSep(s[0]) ==> r[0] == rep) && (!isSep(s[0]) ==> r[0] == s[0])
    ensures isSep(rep) ==> Collapsed(r, isSep, rep)
    decreases |s|
  {
    if s == [] then []
    else if isSep(s[0]) then [rep] + CollapseRuns(TrimLeft(s[1..], isSep), isSep, rep)
    else [s[0]] + CollapseRuns(s[1..], isSep, rep)
  }

  /** Collapsing keeps any property shared by the input characters and `rep`. */
  lemma {:induction false} CollapseKeeps(s: string, isSep: char -> bool, rep: char, p: char -> bool)
    requires All(s, p) && p(rep)
    ensures All(CollapseRuns(s, isSep, rep), p)
    decreases |s|
  {
    if s != [] {
      var r := CollapseRuns(s, isSep, rep);
      if isSep(s[0]) {
        var t := TrimLeft(s[1..], isSep);
        assert All(t, p) by {
          forall i | 0 <= i < |t| ensures p(t[i]) { assert t[i] == s[|s| - |t| + i]; }
        }
        CollapseKeeps(t, isSep, rep, p);
        assert r == [rep] + CollapseRuns(t, isSep, rep);
      } else {
        assert All(s[1..], p) by {
          forall i | 0 <= i < |s| - 1 ensures p(s[1..][i]) { assert s[1..][i] == s[i + 1]; }
        }
        CollapseKeeps(s[1..], isSep, rep, p);
        assert r == [s[0]] + CollapseRuns(s[1..], isSep, rep);
      }
      forall i | 0 <= i < |r| ensures p(r[i]) {
        if i > 0 { assert r[i] == r[1..][i - 1]; }
      }
    }
  }

  /** A string already collapsed is its own collapse. */
  lemma {:induction false} CollapseFixpoint(s: string, isSep: char -> bool, rep: char)
    requires Collapsed(s, isSep, rep)
    ensures CollapseRuns(s, isSep, rep) == s
    decreases |s|
  {
    if s != [] {
      CollapsedTail(s, isSep, rep);
      if isSep(s[0]) {
        assert TrimLeft(s[1..], isSep) == s[1..] by {
          if |s| > 1 { assert !isSep(s[1]); }
        }
      }
      CollapseFixpoint(s[1..], isSep, rep);
      assert s == [s[0]] + s[1..];
    }
  }

  lemma CollapsedTail(s: string, isSep: char -> bool, rep: char)
    requires s != [] && Collapsed(s, isSep, rep)
    ensures Collapsed(s[1..], isSep, rep)
  {
    var t := s[1..];
    forall i | 0 <= i < |t| ensures isSep(t[i]) ==> t[i] == rep { assert t[i] == s[i + 1]; }
    forall i | 0 <= i < |t| - 1 ensures !(isSep(t[i]) && isSep(t[i + 1])) {
      assert t[i] == s[i + 1] && t[i + 1] == s[i + 2];
    }
  }

  /** A contiguous piece of a string keeps its per-character and neighbour properties. */
  lemma SliceKeeps(s: string, a: nat, t: string, p: char -> bool, q: char -> bool)
    requires a + |t| <= |s| && t == s[a..a + |t|] && All(s, p) && NoAdjacent(s, q)
    ensures All(t, p) && NoAdjacent(t, q)
  {
    forall i | 0 <= i < |t| ensures p(t[i]) { assert t[i] == s[a + i]; }
    forall i | 0 <= i < |t| - 1 ensures !(q(t[i]) && q(t[i + 1])) {
      assert t[i] == s[a + i] && t[i + 1] == s[a + i + 1];
    }
  }

  lemma TrimSlice(s: string, cs: char -> bool, p: char -> bool, q: char -> bool)
    requires All(s, p) && NoAdjacent(s, q)
    ensures All(Trim(s, cs), p) && NoAdjacent(Trim(s, cs), q)
  {
    SliceKeeps(s, |s| - |TrimLeft(s, cs)|, Trim(s, cs), p, q);
  }

  // ---------------------------------------------------------------------
  // Dash slug: `safe_id` of the CMC, GUPRI and legacy generators.
  // ---------------------------------------------------------------------

  predicate LowerAlnumOrDash(c: char) { IsLowerAlnum(c) || c == '-' }

  /** Shape of a dash slug: non-empty, `[a-z0-9-]`, no dash at either end or next to another. */
  predicate IsDashSlug(t: string) {
    t != [] && All(t, LowerAlnumOrDash) && t[0] != '-' && t[|t| - 1] != '-' && NoAdjacent(t, IsDash)
  }

  /** strip, lower-case, runs of `[^a-z0-9]` to `-`, strip `-`; `"unnamed"` when nothing is left. */
  function DashSlug(text: string): string {
    SlugOfStripped(Strip(text))
  }

  /** The dash slug of text already stripped of surrounding white space. */
  function SlugOfStripped(s: string): string {
    var t := Trim(CollapseRuns(Lower(s), NotLowerAlnum, '-'), IsDash);
    if t == [] then "unnamed" else t
  }

  /** `safe_id(value_stream or "generic")` */
  function StreamId(stream: string): string {
    DashSlug(if stream == "" then "generic" else stream)
  }

  lemma UnnamedIsDashSlug()
    ensures IsDashSlug("unnamed")
  {
    var un := "unnamed";
    forall i | 0 <= i < |un| ensures LowerAlnumOrDash(un[i]) { }
    forall i | 0 <= i < |un| - 1 ensures !(IsDash(un[i]) && IsDash(un[i + 1])) { }
  }

  lemma DashCollapseShape(l: string)
    ensures All(CollapseRuns(l, NotLowerAlnum, '-'), LowerAlnumOrDash)
    ensures NoAdjacent(CollapseRuns(l, NotLowerAlnum, '-'), IsDash)
  {
    var c := CollapseRuns(l, NotLowerAlnum, '-');
    forall i | 0 <= i < |c| ensures LowerAlnumOrDash(c[i]) {
      assert c[i] == '-' || !NotLowerAlnum(c[i]);
    }
    forall i | 0 <= i < |c| - 1 ensures !(IsDash(c[i]) && IsDash(c[i + 1])) {
      assert !(NotLowerAlnum(c[i]) && NotLowerAlnum(c[i + 1]));
    }
  }

  lemma DashSlugShape(text: string)
    ensures IsDashSlug(DashSlug(text))
  {
    var c := CollapseRuns(Lower(Strip(text)), NotLowerAlnum, '-');
    DashCollapseShape(Lower(Strip(text)));
    TrimSlice(c, IsDash, LowerAlnumOrDash, IsDash);
    UnnamedIsDashSlug();
  }

  /** A dash slug is its own slug. */
  lemma DashSlugFixpoint(t: string)
    requires IsDashSlug(t)
    ensures DashSlug(t) == t
  {
    SlugStripLower(t);
    SlugCollapsed(t);
    CollapseFixpoint(t, NotLowerAlnum, '-');
    TrimNoop(t, IsDash);
  }

  lemma SlugStripLower(t: string)
    requires IsDashSlug(t)
    ensures Strip(t) == t && Lower(t) == t
  {
    assert !IsSpace(t[0]) && !IsSpace(t[|t| - 1]);
    TrimNoop(t, IsSpace);
    var l := Lower(t);
    assert forall i :: 0 <= i < |t| ==> l[i] == t[i];
  }

  lemma SlugCollapsed(t: string)
    requires IsDashSlug(t)
    ensures Collapsed(t, NotLowerAlnum, '-')
  {
    forall i | 0 <= i < |t| - 1 ensures !(NotLowerAlnum(t[i]) && NotLowerAlnum(t[i + 1])) {
      assert NotLowerAlnum(t[i]) ==> t[i] == '-';
      assert NotLowerAlnum(t[i + 1]) ==> t[i + 1] == '-';
    }
  }

  /** Slugging twice is slugging once. */
  lemma DashSlugIdempotent(text: string)
    ensures DashSlug(DashSlug(text)) == DashSlug(text)
  {
    DashSlugShape(text);
    DashSlugFixpoint(DashSlug(text));
  }

  lemma {:induction false} CollapseAllSep(s: string, isSep: char -> bool, rep: char)
    requires forall i :: 0 <= i < |s| ==> isSep(s[i])
    ensures forall i :: 0 <= i < |CollapseRuns(s, isSep, rep)| ==> CollapseRuns(s, isSep, rep)[i] == rep
    decreases |s|
  {
    if s != [] {
      assert TrimLeft(s[1..], isSep) == [];
    }
  }

  /** Text without any ASCII letter or digit falls back to `"unnamed"`. */
  lemma DashSlugFallback(text: string)
    requires forall i :: 0 <= i < |text| ==> !IsAlnum(text[i])
    ensures DashSlug(text) == "unnamed"
  {
    var s := Strip(text);
    TrimKeeps(text, IsSpace, NotAlnum);
    var l := Lower(s);
    forall i | 0 <= i < |l| ensures NotLowerAlnum(l[i]) {
      assert NotAlnum(s[i]);
    }
    CollapseAllSep(l, NotLowerAlnum, '-');
    var c := CollapseRuns(l, NotLowerAlnum, '-');
    assert forall i :: 0 <= i < |c| ==> IsDash(c[i]);
    assert TrimLeft(c, IsDash) == [];
  }

  // ---------------------------------------------------------------------
  // Underscore slug: `safe_id` of the lexicon generator.
  // ---------------------------------------------------------------------

  /** `re.sub(r'[^a-zA-Z0-9_]', '_', s)`: every non-word character to `_`, one for one. */
  function Underscored(s: string): (r: string)
    ensures |r| == |s| && All(r, IsWord)
    ensures forall i :: 0 <= i < |s| ==> r[i] == if IsWord(s[i]) then s[i] else '_'
  {
    if s == [] then [] else [if IsWord(s[0]) then s[0] else '_'] + Underscored(s[1..])
  }

  /** Shape of a lexicon slug: `[A-Za-z0-9_]`, no `_` at either end or next to another (may be empty). */
  predicate IsWordSlug(t: string) {
    All(t, IsWord) && NoAdjacent(t, IsUnderscore) && (t != [] ==> t[0] != '_' && t[|t| - 1] != '_')
  }

  /** Non-word characters to `_`, runs of `_` to one, `_` stripped from both ends. */
  function WordSlug(text: string): string {
    Trim(CollapseRuns(Underscored(text), IsUnderscore, '_'), IsUnderscore)
  }

  lemma WordSlugShape(text: string)
    ensures IsWordSlug(WordSlug(text))
  {
    var c := CollapseRuns(Underscored(text), IsUnderscore, '_');
    CollapseKeeps(Underscored(text), IsUnderscore, '_', IsWord);
    TrimSlice(c, IsUnderscore, IsWord, IsUnderscore);
  }

  lemma WordSlugFixpoint(t: string)
    requires IsWordSlug(t)
    ensures WordSlug(t) == t
  {
    assert Underscored(t) == t;
    CollapseFixpoint(t, IsUnderscore, '_');
    TrimNoop(t, IsUnderscore);
  }

  lemma WordSlugIdempotent(text: string)
    ensures WordSlug(WordSlug(text)) == WordSlug(text)
  {
    WordSlugShape(text);
    WordSlugFixpoint(WordSlug(text));
  }

  // ---------------------------------------------------------------------
  // Readable hint of a GUPRI: `re.sub('[^a-zA-Z0-9]+', '_', hint)[:20].strip('_')`.
  // ---------------------------------------------------------------------

  predicate AlnumOrUnderscore(c: char) { IsAlnum(c) || c == '_' }

  function CleanHint(hint: string): (r: string)
    ensures |r| <= 20
  {
    Trim(Take(CollapseRuns(hint, NotAlnum, '_'), 20), IsUnderscore)
  }

  /** The cleaned hint is at most 20 characters of `[A-Za-z0-9_]` with no `_` at the ends or doubled. */
  lemma CleanHintShape(hint: string)
    ensures IsWordSlug(CleanHint(hint)) && |CleanHint(hint)| <= 20
  {
    var c := CollapseRuns(hint, NotAlnum, '_');
    CollapsedHintShape(hint);
    var k := Take(c, 20);
    SliceKeeps(c, 0, k, IsWord, IsUnderscore);
    TrimSlice(k, IsUnderscore, IsWord, IsUnderscore);
  }

  /** Collapsing the non-alphanumeric runs leaves word characters and no doubled `_`. */
  lemma CollapsedHintShape(hint: string)
    ensures All(CollapseRuns(hint, NotAlnum, '_'), IsWord)
    ensures NoAdjacent(CollapseRuns(hint, NotAlnum, '_'), IsUnderscore)
  {
    var c := CollapseRuns(hint, NotAlnum, '_');
    forall i | 0 <= i < |c| ensures IsWord(c[i]) {
      assert c[i] == '_' || !NotAlnum(c[i]);
    }
    forall i | 0 <= i < |c| - 1 ensures !(IsUnderscore(c[i]) && IsUnderscore(c[i + 1])) {
      assert IsUnderscore(c[i]) ==> NotAlnum(c[i]);
      assert IsUnderscore(c[i + 1]) ==> NotAlnum(c[i + 1]);
    }
  }

  // ---------------------------------------------------------------------
  // SME slug: parenthesised text removed before the dash slug.
  // ---------------------------------------------------------------------

  /** `re.sub(r'\([^)]*\)', '', s)`: each `(` … first following `)` group removed, left to right. */
  function RemoveParens(s: string): (r: string)
    ensures |r| <= |s|
    decreases |s|
  {
    if s == [] then []
    else if s[0] == '(' && ')' in s[1..] then RemoveParens(AfterClose(s[1..]))
    else [s[0]] + RemoveParens(s[1..])
  }

  /** The text after the first `)`. */
  function AfterClose(s: string): (r: string)
    requires ')' in s
    ensures |r| < |s|
  {
    if s[0] == ')' then s[1..] else AfterClose(s[1..])
  }

  lemma {:induction false} AfterCloseSkips(x: string, b: string)
    requires ')' !in x
    ensures AfterClose(x + ")" + b) == b
  {
    if x == [] {
      assert x + ")" + b == [')'] + b;
    } else {
      assert (x + ")" + b)[1..] == x[1..] + ")" + b;
      AfterCloseSkips(x[1..], b);
    }
  }

  /** No `(` of the result has a `)` after it: every group was removed. */
  lemma {:induction false} RemoveParensComplete(s: string)
    ensures forall i :: 0 <= i < |RemoveParens(s)| && RemoveParens(s)[i] == '(' ==> ')' !in RemoveParens(s)[i + 1..]
    decreases |s|
  {
    if s != [] {
      if s[0] == '(' && ')' in s[1..] {
        RemoveParensComplete(AfterClose(s[1..]));
      } else {
        RemoveParensComplete(s[1..]);
        var r := RemoveParens(s);
        var t := RemoveParens(s[1..]);
        assert r == [s[0]] + t;
        if s[0] == '(' {
          assert ')' !in t by { RemoveParensSubset(s[1..], ')'); }
        }
        forall i | 0 <= i < |r| && r[i] == '(' ensures ')' !in r[i + 1..] {
          if i > 0 { assert r[i + 1..] == t[i..]; assert t[i - 1] == '('; }
        }
      }
    }
  }

  lemma {:induction false} RemoveParensSubset(s: string, c: char)
    requires c !in s
    ensures c !in RemoveParens(s)
    decreases |s|
  {
    if s != [] {
      if s[0] == '(' && ')' in s[1..] {
        AfterCloseSuffix(s[1..]);
        RemoveParensSubset(AfterClose(s[1..]), c);
      } else {
        RemoveParensSubset(s[1..], c);
      }
    }
  }

  lemma {:induction false} AfterCloseSuffix(s: string)
    requires ')' in s
    ensures AfterClose(s) == s[|s| - |AfterClose(s)|..]
  {
    if s[0] != ')' {
      AfterCloseSuffix(s[1..]);
    }
  }

  /** A parenthesised group (after text without `(`) vanishes from the result. */
  lemma {:induction false} RemoveParensGroup(a: string, x: string, b: string)
    requires '(' !in a && ')' !in x
    ensures RemoveParens(a + "(" + x + ")" + b) == a + RemoveParens(b)
  {
    if a == [] {
      var s := "(" + x + ")" + b;
      assert s[1..] == x + ")" + b;
      assert ')' in s[1..] by { assert s[1..][|x|] == ')'; }
      AfterCloseSkips(x, b);
      assert s[0] == '(';
      assert RemoveParens(s) == RemoveParens(b);
      assert a + "(" + x + ")" + b == s;
      assert a + RemoveParens(b) == RemoveParens(b);
    } else {
      var t := a[1..] + "(" + x + ")" + b;
      var s := [a[0]] + t;
      assert a + "(" + x + ")" + b == s;
      assert s[1..] == t;
      RemoveParensGroup(a[1..], x, b);
      assert s[0] != '(' by { assert s[0] == a[0]; }
      assert RemoveParens(s) == [a[0]] + (a[1..] + RemoveParens(b));
      assert [a[0]] + (a[1..] + RemoveParens(b)) == a + RemoveParens(b);
    }
  }

  /** `safe_id` of the SME generator. */
  function SmeSlug(text: string): string {
    DashSlug(RemoveParens(Strip(text)))
  }

  lemma {:induction false} RemoveParensNone(s: string)
    requires '(' !in s
    ensures RemoveParens(s) == s
  {
    if s != [] {
      RemoveParensNone(s[1..]);
      assert s == [s[0]] + s[1..];
    }
  }

  /** The SME slug always has the dash-slug shape. */
  lemma SmeSlugShape(text: string)
    ensures IsDashSlug(SmeSlug(text))
  {
    DashSlugShape(RemoveParens(Strip(text)));
  }

  /** Without parentheses the SME slug is the dash slug. */
  lemma SmeSlugPlain(text: string)
    requires '(' !in text
    ensures SmeSlug(text) == DashSlug(text)
  {
    var s := Strip(text);
    NoOpenParenStripped(text);
    RemoveParensNone(s);
    DashSlugStripped(text);
  }

  lemma NoOpenParenStripped(text: string)
    requires '(' !in text
    ensures '(' !in Strip(text)
  {
    TrimKeeps(text, IsSpace, NotOpenParen);
    var s := Strip(text);
    assert forall i :: 0 <= i < |s| ==> NotOpenParen(s[i]);
  }

  /** The dash slug strips its input first, so stripping beforehand changes nothing. */
  lemma DashSlugStripped(text: string)
    ensures DashSlug(Strip(text)) == DashSlug(text)
  {
    var s := Strip(text);
    TrimNoop(s, IsSpace);
  }

  predicate NotOpenParen(c: char) { c != '(' }
}
