/**
 * Python `str` operations the pipeline scripts rely on, stated over `seq<char>`.
 *
 * Case mapping, digits and word characters are the ASCII ones; the Unicode
 * extensions of Python's `lower`, `upper`, `isdigit` and `\w` are not modelled.
 */
module Text {

  /**
   * The ASCII and Latin-1 characters `str.strip()` removes. Python also strips
   * the wider Unicode spaces (U+1680, U+2000 to U+200A, U+2028, U+2029,
   * U+202F, U+205F, U+3000), which this predicate leaves out.
   */
  predicate IsSpace(c: char) {
    c == ' ' || c == '\t' || c == '\n' || c == '\r' ||
    c as int == 0x0b || c as int == 0x0c ||
    (0x1c <= c as int <= 0x1f) || c as int == 0x85 || c as int == 0xa0
  }

  predicate IsDigit(c: char) { '0' <= c <= '9' }

  predicate IsLowerAlnum(c: char) { 'a' <= c <= 'z' || '0' <= c <= '9' }

  predicate IsAlnum(c: char) { 'a' <= c <= 'z' || 'A' <= c <= 'Z' || '0' <= c <= '9' }

  /** Python's `\w` restricted to ASCII. */
  predicate IsWord(c: char) { IsAlnum(c) || c == '_' }

  function LowerChar(c: char): char {
    if 'A' <= c <= 'Z' then (c as int + 32) as char else c
  }

  function UpperChar(c: char): char {
    if 'a' <= c <= 'z' then (c as int - 32) as char else c
  }

  /** `s.lower()` */
  function Lower(s: string): (r: string)
    ensures |r| == |s| && forall i :: 0 <= i < |s| ==> r[i] == LowerChar(s[i])
  {
    if s == [] then [] else [LowerChar(s[0])] + Lower(s[1..])
  }

  /** `s.upper()` */
  function Upper(s: string): (r: string)
    ensures |r| == |s| && forall i :: 0 <= i < |s| ==> r[i] == UpperChar(s[i])
  {
    if s == [] then [] else [UpperChar(s[0])] + Upper(s[1..])
  }

  /** Upper-casing ignores an earlier change of case. */
  lemma UpperOfCased(s: string)
    ensures Upper(Lower(s)) == Upper(s) && Upper(Upper(s)) == Upper(s)
  {
    assert forall i :: 0 <= i < |s| ==> UpperChar(LowerChar(s[i])) == UpperChar(s[i]);
    assert forall i :: 0 <= i < |s| ==> UpperChar(UpperChar(s[i])) == UpperChar(s[i]);
  }

  /** Lower-casing ignores an earlier change of case. */
  lemma LowerOfCased(s: string)
    ensures Lower(Upper(s)) == Lower(s) && Lower(Lower(s)) == Lower(s)
  {
    assert forall i :: 0 <= i < |s| ==> LowerChar(UpperChar(s[i])) == LowerChar(s[i]);
    assert forall i :: 0 <= i < |s| ==> LowerChar(LowerChar(s[i])) == LowerChar(s[i]);
  }

  /** `s.lstrip(chars)` for a set of characters. */
  function TrimLeft(s: string, cs: char -> bool): (r: string)
    ensures |r| <= |s| && r == s[|s| - |r|..]
    ensures r == [] || !cs(r[0])
    ensures forall i :: 0 <= i < |s| - |r| ==> cs(s[i])
  {
    if s != [] && cs(s[0]) then TrimLeft(s[1..], cs) else s
  }

  /** `s.rstrip(chars)` for a set of characters. */
  function TrimRight(s: string, cs: char -> bool): (r: string)
    ensures |r| <= |s| && r == s[..|r|]
    ensures r == [] || !cs(r[|r| - 1])
    ensures forall i :: |r| <= i < |s| ==> cs(s[i])
  {
    if s != [] && cs(s[|s| - 1]) then TrimRight(s[..|s| - 1], cs) else s
  }

  /** `s.strip(chars)`: both ends. */
  function Trim(s: string, cs: char -> bool): (r: string)
    ensures r == [] || (!cs(r[0]) && !cs(r[|r| - 1]))
    ensures |s| - |TrimLeft(s, cs)| + |r| <= |s|
    ensures r == s[|s| - |TrimLeft(s, cs)|..|s| - |TrimLeft(s, cs)| + |r|]
  {
    var l := TrimLeft(s, cs);
    var r := TrimRight(l, cs);
    assert r == s[|s| - |l|..|s| - |l| + |r|];
    r
  }

  /** `s.strip()` */
  function Strip(s: string): string {
    Trim(s, IsSpace)
  }

  predicate IsUnderscore(c: char) { c == '_' }
  predicate IsDash(c: char) { c == '-' }

  /** A string whose characters all satisfy `p`. */
  predicate All(s: string, p: char -> bool) {
    forall i :: 0 <= i < |s| ==> p(s[i])
  }

  lemma TrimKeeps(s: string, cs: char -> bool, p: char -> bool)
    requires All(s, p)
    ensures All(Trim(s, cs), p)
  {
    var r := Trim(s, cs);
    var a := |s| - |TrimLeft(s, cs)|;
    forall i | 0 <= i < |r| ensures p(r[i]) { assert r[i] == s[a + i]; }
  }

  /** Trimming a string that has no trimmable character at either end changes nothing. */
  lemma TrimNoop(s: string, cs: char -> bool)
    requires s == [] || (!cs(s[0]) && !cs(s[|s| - 1]))
    ensures Trim(s, cs) == s
  {
  }

  /** `prefix <= s` is Python's `s.startswith(prefix)`. */
  predicate EndsWith(s: string, suffix: string) {
    |suffix| <= |s| && s[|s| - |suffix|..] == suffix
  }

  /** `sub in s` */
  predicate Contains(s: string, sub: string)
    decreases |s|
  {
    sub <= s || (s != [] && Contains(s[1..], sub))
  }

  /** `any(k in s for k in keys)` */
  predicate AnyIn(keys: seq<string>, s: string) {
    exists i :: 0 <= i < |keys| && Contains(s, keys[i])
  }

  lemma ContainsAt(s: string, sub: string, i: nat)
    requires i + |sub| <= |s| && s[i..i + |sub|] == sub
    ensures Contains(s, sub)
    decreases i
  {
    if i > 0 {
      assert s[1..][i - 1..i - 1 + |sub|] == sub;
      ContainsAt(s[1..], sub, i - 1);
    }
  }

  lemma ContainsWitness(s: string, sub: string) returns (i: nat)
    requires Contains(s, sub)
    ensures i + |sub| <= |s| && s[i..i + |sub|] == sub
    decreases |s|
  {
    if sub <= s {
      i := 0;
    } else {
      var j := ContainsWitness(s[1..], sub);
      i := j + 1;
      assert s[i..i + |sub|] == s[1..][j..j + |sub|];
    }
  }

  /** A single character occurs in `s`. */
  lemma ContainsChar(s: string, c: char)
    ensures Contains(s, [c]) <==> c in s
  {
    if c in s {
      var i :| 0 <= i < |s| && s[i] == c;
      ContainsAt(s, [c], i);
    }
    if Contains(s, [c]) {
      var i := ContainsWitness(s, [c]);
      assert s[i..i + 1][0] == s[i];
    }
  }

  /** `s.replace(pat, rep)`: leftmost, non-overlapping occurrences. */
  function Replace(s: string, pat: string, rep: string): string
    requires pat != []
    decreases |s|
  {
    if |s| < |pat| then s
    else if s[..|pat|] == pat then rep + Replace(s[|pat|..], pat, rep)
    else [s[0]] + Replace(s[1..], pat, rep)
  }

  /** Character-by-character substitution: the meaning of a one-character `replace`. */
  function Subst(s: string, c: char, rep: string): string {
    if s == [] then [] else (if s[0] == c then rep else [s[0]]) + Subst(s[1..], c, rep)
  }

  /** After substituting `c` by a text without `c`, no `c` is left. */
  lemma {:induction false} SubstRemoves(s: string, c: char, rep: string)
    requires c !in rep
    ensures c !in Subst(s, c, rep)
  {
    if s != [] {
      SubstRemoves(s[1..], c, rep);
    }
  }

  lemma {:induction false} ReplaceOneChar(s: string, c: char, rep: string)
    ensures Replace(s, [c], rep) == Subst(s, c, rep)
    decreases |s|
  {
    if s != [] {
      ReplaceOneChar(s[1..], c, rep);
      assert s[..1] == [s[0]];
      assert s[1..] == s[|[c]|..];
    }
  }

  lemma {:induction false} SubstConcat(a: string, b: string, c: char, rep: string)
    ensures Subst(a + b, c, rep) == Subst(a, c, rep) + Subst(b, c, rep)
  {
    if a != [] {
      assert (a + b)[1..] == a[1..] + b;
      SubstConcat(a[1..], b, c, rep);
    } else {
      assert a + b == b;
    }
  }

  /** Whether `c` occurs, as a count. */
  function CountChar(s: string, c: char): (n: nat)
    ensures n <= |s|
    ensures n == 0 <==> c !in s
  {
    if s == [] then 0 else (if s[0] == c then 1 else 0) + CountChar(s[1..], c)
  }

  lemma {:induction false} CountCharConcat(a: string, b: string, c: char)
    ensures CountChar(a + b, c) == CountChar(a, c) + CountChar(b, c)
  {
    if a != [] {
      assert (a + b)[1..] == a[1..] + b;
      CountCharConcat(a[1..], b, c);
    } else {
      assert a + b == b;
    }
  }

  /** `s.count(sub)`: leftmost, non-overlapping occurrences of a non-empty `sub`. */
  function CountSub(s: string, sub: string): (n: nat)
    requires sub != []
    ensures n <= |s|
    decreases |s|
  {
    if |s| < |sub| then 0
    else if s[..|sub|] == sub then 1 + CountSub(s[|sub|..], sub)
    else CountSub(s[1..], sub)
  }

  /** No occurrence is counted exactly when there is none. */
  lemma {:induction false} CountSubZero(s: string, sub: string)
    requires sub != []
    ensures CountSub(s, sub) == 0 <==> !Contains(s, sub)
    decreases |s|
  {
    if |s| < |sub| {
      if Contains(s, sub) {
        var i := ContainsWitness(s, sub);
      }
    } else if s[..|sub|] != sub {
      CountSubZero(s[1..], sub);
    }
  }

  /** `s.split(c)` for one separator character. */
  function Split(s: string, c: char): (r: seq<string>)
    ensures |r| == CountChar(s, c) + 1
    ensures forall i :: 0 <= i < |r| ==> c !in r[i]
  {
    if s == [] then [""]
    else
      var rest := Split(s[1..], c);
      if s[0] == c then [""] + rest else [[s[0]] + rest[0]] + rest[1..]
  }

  /** `sep.join(parts)` */
  function Join(sep: string, parts: seq<string>): string {
    if parts == [] then ""
    else if |parts| == 1 then parts[0]
    else parts[0] + sep + Join(sep, parts[1..])
  }

  /** Splitting and re-joining on the same character gives back the input. */
  lemma {:induction false} JoinSplit(s: string, c: char)
    ensures Join([c], Split(s, c)) == s
  {
    if s != [] {
      JoinSplit(s[1..], c);
      var rest := Split(s[1..], c);
      if s[0] == c {
        JoinEmptyFirst([c], rest);
      } else {
        JoinExtendFirst([c], [s[0]], rest);
      }
      assert s == [s[0]] + s[1..];
    }
  }

  lemma JoinEmptyFirst(sep: string, rest: seq<string>)
    requires rest != []
    ensures Join(sep, [""] + rest) == sep + Join(sep, rest)
  {
    assert ([""] + rest)[1..] == rest;
  }

  lemma JoinExtendFirst(sep: string, a: string, rest: seq<string>)
    requires rest != []
    ensures Join(sep, [a + rest[0]] + rest[1..]) == a + Join(sep, rest)
  {
    var parts := [a + rest[0]] + rest[1..];
    if |rest| > 1 {
      assert parts[1..] == rest[1..];
    }
  }

  /** A non-empty run of non-whitespace characters. */
  predicate IsToken(w: string) {
    w != [] && forall k :: 0 <= k < |w| ==> !IsSpace(w[k])
  }

  /** The non-empty parts of `s.split()`: runs of non-whitespace. */
  function Words(s: string): (r: seq<string>)
    ensures forall i :: 0 <= i < |r| ==> IsToken(r[i])
    decreases |s|
  {
    if s == [] then []
    else if IsSpace(s[0]) then Words(s[1..])
    else
      var w := WordAt(s);
      [w] + Words(s[|w|..])
  }

  /** The leading run of non-whitespace characters. */
  function WordAt(s: string): (w: string)
    ensures w <= s && (w == [] || IsToken(w))
    ensures s != [] && !IsSpace(s[0]) ==> w != []
    ensures |w| < |s| ==> IsSpace(s[|w|])
  {
    if s == [] || IsSpace(s[0]) then [] else [s[0]] + WordAt(s[1..])
  }

  function DigitString(d: nat): string
    requires d < 10
  {
    [('0' as int + d) as char]
  }

  /** `str(n)` for a natural number. */
  function NatToString(n: nat): (r: string)
    ensures r != [] && forall i :: 0 <= i < |r| ==> IsDigit(r[i])
  {
    if n < 10 then DigitString(n) else NatToString(n / 10) + DigitString(n % 10)
  }

  /** `int(s)` for a string of decimal digits. */
  function ParseNat(s: string): nat
    requires forall i :: 0 <= i < |s| ==> IsDigit(s[i])
  {
    if s == [] then 0
    else
      assert IsDigit(s[|s| - 1]);
      ParseNat(s[..|s| - 1]) * 10 + (s[|s| - 1] as int - '0' as int)
  }

  /** Reading back a rendered number gives the number: `int(str(n)) == n`. */
  lemma {:induction false} ParseNatToString(n: nat)
    ensures ParseNat(NatToString(n)) == n
  {
    if n >= 10 {
      var r := NatToString(n);
      ParseNatToString(n / 10);
      assert r[..|r| - 1] == NatToString(n / 10);
    }
  }

  /** `s.isdigit()`: non-empty and only digits. */
  predicate IsDigits(s: string) {
    s != [] && forall i :: 0 <= i < |s| ==> IsDigit(s[i])
  }

  /** `s[:n]` */
  function Take(s: string, n: nat): (r: string)
    ensures |r| == if |s| <= n then |s| else n
    ensures r <= s
  {
    if |s| <= n then s else s[..n]
  }

  /** The same strings, each once, in first-occurrence order (Python dict-key order). */
  function Distinct<T(==,!new)>(s: seq<T>): (r: seq<T>)
    ensures forall x :: x in r <==> x in s
    ensures forall i, j :: 0 <= i < j < |r| ==> r[i] != r[j]
    ensures |r| <= |s|
  {
    if s == [] then []
    else
      var prev := Distinct(s[..|s| - 1]);
      if s[|s| - 1] in prev then prev else prev + [s[|s| - 1]]
  }
}
