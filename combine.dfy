/**
 * `combine_ttl_files`: several Turtle files merged line by line. `@prefix`
 * lines go into a dictionary where a later declaration of a name replaces
 * the earlier one; every other non-empty, non-comment line is kept, in input
 * order. The output is the prefix block sorted by name, a blank line, then
 * the body lines joined by newlines. A missing file is given as `None`.
 */
module Combine {
  import opened Wrappers
  import opened Text
  import Order

  /** The merger's two accumulators: `all_prefixes` and `all_triples`. */
  datatype Merge = Merge(prefixes: map<string, string>, body: seq<string>)

  /** What one input line contributes. */
  datatype Entry = PrefixDecl(name: string, uri: string) | BodyLine(line: string) | Nothing

  /** The stripped line is a prefix declaration, a body line, or neither. */
  function Classify(raw: string): Entry {
    var line := Strip(raw);
    if "@prefix" <= line then
      var parts := Words(line);
      if |parts| >= 3 then PrefixDecl(parts[1], Join(" ", parts[2..])) else Nothing
    else if line != [] && !("#" <= line) then BodyLine(line)
    else Nothing
  }

  /** A prefix line needs three tokens; with fewer it is dropped like a blank or `#` line. */
  lemma ClassifyKinds(raw: string)
    ensures Classify(raw).PrefixDecl? <==> "@prefix" <= Strip(raw) && |Words(Strip(raw))| >= 3
    ensures Classify(raw).Nothing? <==>
      Strip(raw) == [] || Strip(raw)[0] == '#' || ("@prefix" <= Strip(raw) && |Words(Strip(raw))| < 3)
  {
    var line := Strip(raw);
    if line != [] && line[0] == '#' {
      assert !("@prefix" <= line);
      assert "#" <= line;
    }
    if "#" <= line {
      assert line[0] == '#';
    }
  }

  /** A body line is the stripped, non-empty, non-comment input line; a prefix name is one token. */
  lemma ClassifyParts(raw: string)
    ensures Classify(raw).PrefixDecl? ==>
      IsToken(Classify(raw).name) && Classify(raw).name == Words(Strip(raw))[1]
    ensures Classify(raw).BodyLine? ==>
      var l := Classify(raw).line;
      l == Strip(raw) && l != [] && l[0] != '#' && !IsSpace(l[0]) && !IsSpace(l[|l| - 1])
  {
    var line := Strip(raw);
    if line != [] && !("#" <= line) {
      assert "#" == [line[0]] ==> "#" <= line;
    }
  }

  /** Every line of a file, classified. */
  function ClassifyAll(lines: seq<string>): (es: seq<Entry>)
    ensures |es| == |lines| && forall k :: 0 <= k < |lines| ==> es[k] == Classify(lines[k])
  {
    seq(|lines|, k requires 0 <= k < |lines| => Classify(lines[k]))
  }

  function Absorb(m: Merge, e: Entry): Merge {
    match e
    case PrefixDecl(n, u) => m.(prefixes := m.prefixes[n := u])
    case BodyLine(l) => m.(body := m.body + [l])
    case Nothing => m
  }

  /** The state after the lines of one file, in order. */
  function AbsorbAll(m: Merge, es: seq<Entry>): Merge
    decreases |es|
  {
    if es == [] then m else Absorb(AbsorbAll(m, es[..|es| - 1]), es[|es| - 1])
  }

  /** `content.split('\n')` of a present file, classified; nothing for a missing one. */
  function EntriesOf(file: Option<string>): seq<Entry> {
    if file.Some? then ClassifyAll(Split(file.value, '\n')) else []
  }

  /** The state after all files, in order. */
  function AbsorbFiles(files: seq<Option<string>>): Merge
    decreases |files|
  {
    if files == [] then Merge(map[], [])
    else AbsorbAll(AbsorbFiles(files[..|files| - 1]), EntriesOf(files[|files| - 1]))
  }

  // ---------------------------------------------------------------------
  // Reference definitions: the body filter and the last declaration of a name.
  // ---------------------------------------------------------------------

  /** The kept body lines, in input order, duplicates included. */
  function BodyOf(es: seq<Entry>): (r: seq<string>)
    ensures |r| <= |es|
  {
    if es == [] then []
    else (if es[0].BodyLine? then [es[0].line] else []) + BodyOf(es[1..])
  }

  /** The URI of the last declaration of `name`, if any. */
  function LastDecl(es: seq<Entry>, name: string): Option<string> {
    if es == [] then None
    else
      var later := LastDecl(es[1..], name);
      if later.Some? then later
      else if es[0].PrefixDecl? && es[0].name == name then Some(es[0].uri)
      else None
  }

  lemma {:induction false} BodyOfAppend(a: seq<Entry>, b: seq<Entry>)
    ensures BodyOf(a + b) == BodyOf(a) + BodyOf(b)
    decreases |a|
  {
    if a != [] {
      assert (a + b)[1..] == a[1..] + b;
      BodyOfAppend(a[1..], b);
    } else {
      assert a + b == b;
    }
  }

  lemma {:induction false} LastDeclAppend(a: seq<Entry>, b: seq<Entry>, name: string)
    ensures LastDecl(a + b, name) == if LastDecl(b, name).Some? then LastDecl(b, name) else LastDecl(a, name)
    decreases |a|
  {
    if a != [] {
      assert (a + b)[1..] == a[1..] + b;
      LastDeclAppend(a[1..], b, name);
    } else {
      assert a + b == b;
    }
  }

  /** The body lines of a file are appended to the body, in order, and nothing else is. */
  lemma {:induction false} AbsorbAllBody(m: Merge, es: seq<Entry>)
    ensures AbsorbAll(m, es).body == m.body + BodyOf(es)
    decreases |es|
  {
    if es != [] {
      var n := |es| - 1;
      AbsorbAllBody(m, es[..n]);
      BodyOfAppend(es[..n], [es[n]]);
      assert es[..n] + [es[n]] == es;
    }
  }

  /**
   * Each prefix name ends up with the URI of its last declaration; a name
   * without a declaration keeps what it had. No redefinition is refused.
   */
  lemma {:induction false} AbsorbAllPrefixes(m: Merge, es: seq<Entry>, name: string)
    ensures name in AbsorbAll(m, es).prefixes <==> name in m.prefixes || LastDecl(es, name).Some?
    ensures LastDecl(es, name).Some? ==> AbsorbAll(m, es).prefixes[name] == LastDecl(es, name).value
    ensures LastDecl(es, name).None? && name in m.prefixes ==>
      AbsorbAll(m, es).prefixes[name] == m.prefixes[name]
    decreases |es|
  {
    if es != [] {
      var n := |es| - 1;
      AbsorbAllPrefixes(m, es[..n], name);
      LastDeclAppend(es[..n], [es[n]], name);
      assert es[..n] + [es[n]] == es;
    }
  }

  /** A second declaration of a name silently replaces the first. */
  lemma LaterPrefixWins(m: Merge, name: string, u1: string, u2: string)
    ensures AbsorbAll(m, [PrefixDecl(name, u1), PrefixDecl(name, u2)]).prefixes[name] == u2
    ensures AbsorbAll(m, [PrefixDecl(name, u1), PrefixDecl(name, u2)]).body == m.body
  {
    var es := [PrefixDecl(name, u1), PrefixDecl(name, u2)];
    var one := es[..1];
    assert one[..0] == [] && one[0] == PrefixDecl(name, u1);
    assert AbsorbAll(m, one[..0]) == m;
    var m1 := AbsorbAll(m, one);
    assert m1 == Absorb(m, PrefixDecl(name, u1));
    assert AbsorbAll(m, es) == Absorb(m1, PrefixDecl(name, u2));
  }

  function BodyOfFiles(files: seq<Option<string>>): seq<string>
    decreases |files|
  {
    if files == [] then [] else BodyOfFiles(files[..|files| - 1]) + BodyOf(EntriesOf(files[|files| - 1]))
  }

  /** The body of the merged files is the concatenation of their body lines in file order. */
  lemma {:induction false} AbsorbFilesBody(files: seq<Option<string>>)
    ensures AbsorbFiles(files).body == BodyOfFiles(files)
    decreases |files|
  {
    if files != [] {
      var n := |files| - 1;
      AbsorbFilesBody(files[..n]);
      AbsorbAllBody(AbsorbFiles(files[..n]), EntriesOf(files[n]));
    }
  }

  /** The present files, in order. */
  function Present(files: seq<Option<string>>): (r: seq<Option<string>>)
    ensures forall i :: 0 <= i < |r| ==> r[i].Some?
    ensures |r| <= |files|
  {
    if files == [] then []
    else
      var n := |files| - 1;
      Present(files[..n]) + (if files[n].Some? then [files[n]] else [])
  }

  /** Missing files contribute nothing: the result is that of the present files alone. */
  lemma {:induction false} MissingFilesSkipped(files: seq<Option<string>>)
    ensures AbsorbFiles(files) == AbsorbFiles(Present(files))
    decreases |files|
  {
    if files != [] {
      var n := |files| - 1;
      MissingFilesSkipped(files[..n]);
      var p := Present(files[..n]);
      if files[n].Some? {
        assert (p + [files[n]])[..|p|] == p;
      } else {
        assert Present(files) == p;
      }
    }
  }

  // ---------------------------------------------------------------------
  // Output.
  // ---------------------------------------------------------------------

  function PrefixLine(name: string, uri: string): string {
    "@prefix " + name + " " + uri + "\n"
  }

  /** One `@prefix` line per listed name, in the listed order. */
  function PrefixBlock(names: seq<string>, m: map<string, string>): string
    requires forall n :: n in names ==> n in m
  {
    if names == [] then ""
    else
      var k := |names| - 1;
      PrefixBlock(names[..k], m) + PrefixLine(names[k], m[names[k]])
  }

  /** The combined text of a merged state. */
  ghost function Document(m: Merge): string {
    PrefixBlock(Order.SortedKeys(m.prefixes.Keys), m.prefixes) + "\n" + Join("\n", m.body)
  }

  /** One line of the loop over a file: classify it and update the matching accumulator. */
  method TakeLine(prefixes: map<string, string>, body: seq<string>, raw: string)
    returns (prefixes': map<string, string>, body': seq<string>)
    ensures Merge(prefixes', body') == Absorb(Merge(prefixes, body), Classify(raw))
  {
    prefixes', body' := prefixes, body;
    var line := Strip(raw);
    if "@prefix" <= line {
      var parts := Words(line);
      if |parts| >= 3 {
        prefixes' := prefixes[parts[1] := Join(" ", parts[2..])];
      }
    } else if line != [] && !("#" <= line) {
      body' := body + [line];
    }
  }

  /** The loop over one file's lines. */
  method TakeFile(prefixes: map<string, string>, body: seq<string>, file: Option<string>)
    returns (prefixes': map<string, string>, body': seq<string>)
    ensures Merge(prefixes', body') == AbsorbAll(Merge(prefixes, body), EntriesOf(file))
  {
    prefixes', body' := prefixes, body;
    if file.Some? {
      var lines := Split(file.value, '\n');
      ghost var es := ClassifyAll(lines);
      for j := 0 to |lines|
        invariant Merge(prefixes', body') == AbsorbAll(Merge(prefixes, body), es[..j])
      {
        assert es[..j + 1][..j] == es[..j];
        prefixes', body' := TakeLine(prefixes', body', lines[j]);
      }
      assert es[..|lines|] == es;
    }
  }

  /** The loop writing the sorted prefix lines. */
  method WritePrefixes(names: seq<string>, prefixes: map<string, string>) returns (out: string)
    requires forall n :: n in names ==> n in prefixes
    ensures out == PrefixBlock(names, prefixes)
  {
    out := "";
    for k := 0 to |names|
      invariant out == PrefixBlock(names[..k], prefixes)
    {
      assert names[..k + 1][..k] == names[..k];
      out := out + PrefixLine(names[k], prefixes[names[k]]);
    }
    assert names[..|names|] == names;
  }

  /** `combine_ttl_files` over the files' contents: the text it writes. */
  method CombineTtlFiles(files: seq<Option<string>>) returns (out: string)
    ensures out == Document(AbsorbFiles(files))
  {
    var prefixes: map<string, string> := map[];
    var body: seq<string> := [];
    for i := 0 to |files|
      invariant Merge(prefixes, body) == AbsorbFiles(files[..i])
    {
      assert files[..i + 1][..i] == files[..i];
      prefixes, body := TakeFile(prefixes, body, files[i]);
    }
    assert files[..|files|] == files;
    var names := Order.SortNames(prefixes.Keys);
    var block := WritePrefixes(names, prefixes);
    out := block + "\n" + Join("\n", body);
  }
}
