/**
 * The upload of Turtle files to a GraphDB repository through the RDF4J
 * statements endpoint (scripts/deployment/export_to_graphdb.py): the endpoint
 * URL, the content type chosen from the file suffix, the HTTP Basic
 * credentials, the retry policy of one upload and the loop over the files.
 *
 * The network is a function from the attempt number to what that attempt
 * met; URL quoting and base64 are function parameters.
 */
module GraphDb {
  import opened Text
  import opened Wrappers

  function Max(a: int, b: int): int { if a < b then b else a }

  // ---------------------------------------------------------------------
  // Endpoint
  // ---------------------------------------------------------------------

  predicate IsSlash(c: char) { c == '/' }

  /** `base_url.rstrip("/") + f"/repositories/{quote(repository)}/statements"` */
  function StatementsUrl(baseUrl: string, repository: string, quote: string -> string): (r: string)
    ensures EndsWith(r, "/statements")
  {
    TrimRight(baseUrl, IsSlash) + "/repositories/" + quote(repository) + "/statements"
  }

  /** Trailing slashes on the base URL make no difference. */
  lemma StatementsUrlIgnoresSlash(baseUrl: string, repository: string, quote: string -> string)
    ensures StatementsUrl(baseUrl + "/", repository, quote) == StatementsUrl(baseUrl, repository, quote)
  {
    var s := baseUrl + "/";
    assert s[..|s| - 1] == baseUrl;
  }

  /** An IRI in angle brackets, as RDF4J expects the `context` parameter. */
  predicate Bracketed(s: string) {
    |s| >= 2 && s[0] == '<' && s[|s| - 1] == '>'
  }

  /** The stripped context, wrapped in `<…>` unless it already starts with `<` and ends with `>`. */
  function ContextTerm(context: string): (r: string)
    ensures Bracketed(r)
    ensures Bracketed(Strip(context)) ==> r == Strip(context)
    ensures !Bracketed(Strip(context)) ==> r[1..|r| - 1] == Strip(context)
  {
    var c := Strip(context);
    if |c| >= 1 && c[0] == '<' && c[|c| - 1] == '>' then c
    else "<" + c + ">"
  }

  /** Wrapping an already wrapped context changes nothing. */
  lemma ContextTermIdempotent(context: string)
    ensures ContextTerm(ContextTerm(context)) == ContextTerm(context)
  {
    var r := ContextTerm(context);
    assert !IsSpace(r[0]) && !IsSpace(r[|r| - 1]);
    TrimNoop(r, IsSpace);
    assert Strip(r) == r;
  }

  /**
   * `build_endpoint`: the statements URL, with `?context=<encoded IRI>`
   * when a non-empty context is given; `quotePlus` is the form encoding of
   * `urlencode`.
   */
  function Endpoint(baseUrl: string, repository: string, context: Option<string>,
                    quote: string -> string, quotePlus: string -> string): (r: string)
    ensures StatementsUrl(baseUrl, repository, quote) <= r
    ensures context == None || context == Some("") <==> r == StatementsUrl(baseUrl, repository, quote)
  {
    var base := StatementsUrl(baseUrl, repository, quote);
    if context == None || context.value == "" then base
    else base + "?context=" + quotePlus(ContextTerm(context.value))
  }

  /** With a decoder that inverts the form encoding, the query gives back the bracketed context. */
  lemma EndpointContextDecodes(baseUrl: string, repository: string, context: string,
                               quote: string -> string, quotePlus: string -> string, unquotePlus: string -> string)
    requires context != ""
    requires forall x :: unquotePlus(quotePlus(x)) == x
    ensures var base := StatementsUrl(baseUrl, repository, quote);
            var r := Endpoint(baseUrl, repository, Some(context), quote, quotePlus);
            |base| + 9 <= |r| && r[|base|..|base| + 9] == "?context=" &&
            unquotePlus(r[|base| + 9..]) == ContextTerm(context)
  {
    var base := StatementsUrl(baseUrl, repository, quote);
    var r := Endpoint(baseUrl, repository, Some(context), quote, quotePlus);
    assert r == base + "?context=" + quotePlus(ContextTerm(context));
    assert r[|base| + 9..] == quotePlus(ContextTerm(context));
  }

  // ---------------------------------------------------------------------
  // Content type
  // ---------------------------------------------------------------------

  /** The index of the last `c` in `s`, or -1. */
  function LastIndex(s: string, c: char): (r: int)
    ensures -1 <= r < |s|
    ensures r >= 0 ==> s[r] == c
    ensures forall k :: r < k < |s| ==> s[k] != c
  {
    if s == [] then -1
    else if s[|s| - 1] == c then |s| - 1
    else LastIndex(s[..|s| - 1], c)
  }

  /** `Path(name).suffix`: from the last dot, unless that dot starts or ends the name. */
  function Suffix(name: string): (r: string)
    ensures r == [] || (|r| >= 2 && r[0] == '.' && '.' !in r[1..] && EndsWith(name, r) && |r| < |name|)
  {
    var i := LastIndex(name, '.');
    if 0 < i < |name| - 1 then name[i..] else ""
  }

  /** A stem followed by `.ext` has suffix `.ext`. */
  lemma SuffixOf(stem: string, ext: string)
    requires stem != [] && ext != [] && '.' !in ext
    ensures Suffix(stem + "." + ext) == "." + ext
  {
    var name := stem + "." + ext;
    var i := LastIndex(name, '.');
    assert name[|stem|] == '.';
    assert i == |stem| by {
      forall k | |stem| < k < |name| ensures name[k] != '.' {
        assert name[k] == ext[k - |stem| - 1];
      }
    }
    assert name[i..] == "." + ext;
  }

  /** A name without a dot, or a dot-file name, has no suffix. */
  lemma NoSuffix(ext: string)
    requires '.' !in ext
    ensures Suffix(ext) == "" && Suffix("." + ext) == ""
  {
    var d := "." + ext;
    assert d[0] == '.';
    assert LastIndex(d, '.') == 0 by {
      forall k | 0 < k < |d| ensures d[k] != '.' { assert d[k] == ext[k - 1]; }
    }
  }

  /** Lower-casing the name lower-cases its suffix. */
  lemma {:induction false} LastIndexLower(s: string)
    ensures LastIndex(Lower(s), '.') == LastIndex(s, '.')
    decreases |s|
  {
    if s != [] {
      var l := Lower(s);
      assert l[|l| - 1] == LowerChar(s[|s| - 1]);
      assert l[..|l| - 1] == Lower(s[..|s| - 1]);
      LastIndexLower(s[..|s| - 1]);
    }
  }

  lemma SuffixLower(name: string)
    ensures Suffix(Lower(name)) == Lower(Suffix(name))
  {
    LastIndexLower(name);
    var i := LastIndex(name, '.');
    if 0 < i < |name| - 1 {
      assert Lower(name)[i..] == Lower(name[i..]);
    }
  }

  const Turtle := "text/turtle"
  const NTriples := "application/n-triples"
  const RdfXml := "application/rdf+xml"
  const PlainText := "text/plain"

  /** The media type for a lower-cased suffix. */
  function MediaType(suffix: string): string {
    if suffix == ".ttl" || suffix == ".turtle" then Turtle
    else if suffix == ".nt" then NTriples
    else if suffix == ".rdf" || suffix == ".xml" then RdfXml
    else PlainText
  }

  /** `detect_content_type`: by the suffix, compared in lower case. */
  function ContentType(name: string): string {
    MediaType(Lower(Suffix(name)))
  }

  /** The content type does not depend on the case of the name. */
  lemma ContentTypeIgnoresCase(name: string)
    ensures ContentType(Lower(name)) == ContentType(name)
  {
    SuffixLower(name);
    LowerOfCased(Suffix(name));
    assert Lower(Suffix(Lower(name))) == Lower(Suffix(name));
  }

  /** A name `stem.ext` is typed by its extension in lower case. */
  lemma ContentTypeByExtension(stem: string, ext: string)
    requires stem != [] && ext != [] && '.' !in ext
    ensures ContentType(stem + "." + ext) == MediaType("." + Lower(ext))
  {
    SuffixOf(stem, ext);
    assert Lower("." + ext) == "." + Lower(ext);
  }

  /** A name without a dot, and a dot-file such as `.ttl`, are plain text. */
  lemma ContentTypeWithoutSuffix(ext: string)
    requires '.' !in ext
    ensures ContentType(ext) == PlainText && ContentType("." + ext) == PlainText
  {
    NoSuffix(ext);
  }

  /**
   * `Path(f).resolve().name`: the last component of the path once trailing
   * slashes are dropped; the suffix, and so the content type, is read from
   * it alone.
   */
  function BaseName(path: string): (r: string)
    ensures '/' !in r
    ensures EndsWith(TrimRight(path, IsSlash), r)
  {
    var t := TrimRight(path, IsSlash);
    var i := LastIndex(t, '/');
    t[i + 1..]
  }

  /** A name without `/` is its own last component, alone or below a directory. */
  lemma BaseNameOf(dir: string, name: string)
    requires name != [] && '/' !in name
    ensures BaseName(name) == name && BaseName(dir + "/" + name) == name
  {
    var p := dir + "/" + name;
    assert p[|p| - 1] == name[|name| - 1];
    assert TrimRight(p, IsSlash) == p;
    assert p[|dir|] == '/';
    assert LastIndex(p, '/') == |dir| by {
      forall k | |dir| < k < |p| ensures p[k] != '/' {
        assert p[k] == name[k - |dir| - 1];
      }
    }
    assert p[|dir| + 1..] == name;
    assert TrimRight(name, IsSlash) == name;
    assert LastIndex(name, '/') == -1;
  }

  /** A dot-file in a directory, such as `out/.ttl`, is sent as plain text. */
  lemma DotFileInDirectory()
    ensures BaseName("out/.ttl") == ".ttl" && ContentType(BaseName("out/.ttl")) == PlainText
  {
    assert "out" + "/" + ".ttl" == "out/.ttl";
    BaseNameOf("out", ".ttl");
    NoSuffix("ttl");
  }

  /** `.TTL` is Turtle: the comparison ignores case. */
  lemma UpperTtlIsTurtle(stem: string)
    requires stem != []
    ensures ContentType(stem + ".TTL") == Turtle
  {
    ContentTypeByExtension(stem, "TTL");
    assert stem + ".TTL" == stem + "." + "TTL";
    var l := Lower("TTL");
    assert l[0] == 't' && l[1] == 't' && l[2] == 'l';
    assert "." + l == ".ttl";
  }

  // ---------------------------------------------------------------------
  // Basic authentication
  // ---------------------------------------------------------------------

  /**
   * `build_auth_header`: `Basic` and the base64 of `user:password` (`b64`
   * stands for UTF-8 encoding followed by base64), or none when the user is
   * missing or empty or the password is missing.
   */
  function AuthHeader(user: Option<string>, password: Option<string>, b64: string -> string): (r: Option<string>)
    ensures r == None <==> user == None || user == Some("") || password == None
    ensures r != None ==> "Basic " <= r.value
  {
    if user == None || user.value == "" || password == None then None
    else Some("Basic " + b64(user.value + ":" + password.value))
  }

  /** The text before and after the first `:`, as section 2 of RFC 7617 reads user-pass. */
  function SplitColon(s: string): (r: (string, string))
    ensures ':' in s ==> ':' !in r.0 && s == r.0 + ":" + r.1
  {
    if s == [] then ("", "")
    else if s[0] == ':' then ("", s[1..])
    else
      var p := SplitColon(s[1..]);
      ([s[0]] + p.0, p.1)
  }

  lemma {:induction false} SplitColonJoin(u: string, p: string)
    requires ':' !in u
    ensures SplitColon(u + ":" + p) == (u, p)
    decreases |u|
  {
    var s := u + ":" + p;
    if u == [] {
      assert s[1..] == p;
    } else {
      assert s[1..] == u[1..] + ":" + p;
      SplitColonJoin(u[1..], p);
      assert [u[0]] + u[1..] == u;
    }
  }

  /**
   * A server that decodes the token recovers the user and the password,
   * including an empty password, whenever the user has no `:`.
   */
  lemma AuthHeaderDecodes(user: string, password: string, b64: string -> string, unb64: string -> string)
    requires user != "" && ':' !in user
    requires forall x :: unb64(b64(x)) == x
    ensures var h := AuthHeader(Some(user), Some(password), b64);
            h != None && SplitColon(unb64(h.value[6..])) == (user, password)
  {
    var h := AuthHeader(Some(user), Some(password), b64);
    assert h.value[6..] == b64(user + ":" + password);
    SplitColonJoin(user, password);
  }

  // ---------------------------------------------------------------------
  // One upload with retries
  // ---------------------------------------------------------------------

  /** What one POST met: a response, an HTTP error status, or another exception. */
  datatype Outcome = Response(status: int) | HttpError(code: int) | Raised

  /** 429, a 5xx status and non-HTTP exceptions are retried. */
  predicate Retryable(o: Outcome) {
    o.Raised? || (o.HttpError? && (o.code == 429 || 500 <= o.code < 600))
  }

  /** The result of `upload_file`: success, the status (-1 for an exception) and the attempts made. */
  datatype Upload = Upload(ok: bool, status: int, attempts: nat)

  /**
   * The upload from attempt `attempt` on, where `net(k)` is what attempt `k`
   * meets: it stops at a response, at an error that is not retried, or once
   * `attempt` reaches `maxRetries`.
   */
  function Attempts(net: nat -> Outcome, maxRetries: int, attempt: nat): Upload
    requires attempt >= 1
    decreases maxRetries - attempt
  {
    var o := net(attempt);
    if o.Response? then Upload(true, o.status, attempt)
    else if Retryable(o) && attempt < maxRetries then Attempts(net, maxRetries, attempt + 1)
    else Upload(false, if o.HttpError? then o.code else -1, attempt)
  }

  /**
   * The retry policy: every attempt before the last met a retried failure;
   * the last met a response (success, with its status), an error that is
   * not retried, or a retried failure once the budget of `maxRetries`
   * attempts was spent (the status is -1 for an exception).
   */
  lemma {:induction false} AttemptsPolicy(net: nat -> Outcome, maxRetries: int, attempt: nat)
    requires attempt >= 1
    ensures var r := Attempts(net, maxRetries, attempt);
            attempt <= r.attempts <= Max(maxRetries, attempt) &&
            (forall k :: attempt <= k < r.attempts ==> Retryable(net(k))) &&
            (r.ok <==> net(r.attempts).Response?) &&
            (r.ok ==> r.status == net(r.attempts).status) &&
            (net(r.attempts).HttpError? ==> r.status == net(r.attempts).code) &&
            (net(r.attempts).Raised? ==> r.status == -1) &&
            (!r.ok && Retryable(net(r.attempts)) ==> r.attempts == Max(maxRetries, attempt))
    decreases maxRetries - attempt
  {
    if !net(attempt).Response? && Retryable(net(attempt)) && attempt < maxRetries {
      AttemptsPolicy(net, maxRetries, attempt + 1);
    }
  }

  /** The pause after failed attempt `k + 1`: 1, 2, 4, 8, 16, then 30 for ever. */
  function Backoff(k: nat): (b: nat)
    ensures 1 <= b <= 30
  {
    if k == 0 then 1 else Min(2 * Backoff(k - 1), 30)
  }

  function Min(a: int, b: int): int { if a < b then a else b }

  /** The pauses taken before attempt `n + 1`. */
  function Pauses(n: nat): (p: seq<nat>)
    ensures |p| == n && forall k :: 0 <= k < n ==> p[k] == Backoff(k)
  {
    if n == 0 then [] else Pauses(n - 1) + [Backoff(n - 1)]
  }

  function Pow2(k: nat): nat { if k == 0 then 1 else 2 * Pow2(k - 1) }

  /** The pauses double from 1 up to the cap of 30. */
  lemma {:induction false} BackoffClosedForm(k: nat)
    ensures Backoff(k) == if k < 5 then Pow2(k) else 30
  {
    if k > 0 {
      BackoffClosedForm(k - 1);
      assert Pow2(1) == 2 && Pow2(2) == 4 && Pow2(3) == 8 && Pow2(4) == 16;
    }
  }

  /** `upload_file`: attempts until success, a non-retried error or the attempt budget, pausing in between. */
  method UploadFile(net: nat -> Outcome, maxRetries: int) returns (r: Upload, pauses: seq<nat>)
    ensures r == Attempts(net, maxRetries, 1)
    ensures r.attempts >= 1 && pauses == Pauses(r.attempts - 1)
  {
    var attempt: nat := 0;
    var backoff: nat := 1;
    pauses := [];
    while true
      invariant attempt == 0 || attempt < maxRetries
      invariant Attempts(net, maxRetries, attempt + 1) == Attempts(net, maxRetries, 1)
      invariant backoff == Backoff(attempt) && pauses == Pauses(attempt)
      decreases Max(maxRetries, 1) - attempt
    {
      attempt := attempt + 1;
      var o := net(attempt);
      AttemptStops(net, maxRetries, attempt);
      if o.Response? {
        return Upload(true, o.status, attempt), pauses;
      }
      if !Retryable(o) {
        return Upload(false, o.code, attempt), pauses;
      }
      if attempt >= maxRetries {
        return Upload(false, if o.HttpError? then o.code else -1, attempt), pauses;
      }
      RetryContinues(net, maxRetries, attempt);
      pauses := pauses + [backoff];
      backoff := Min(backoff * 2, 30);
    }
  }

  /** The attempt that meets a response, an error not retried, or the end of the budget is the last. */
  lemma AttemptStops(net: nat -> Outcome, maxRetries: int, attempt: nat)
    requires attempt >= 1
    ensures net(attempt).Response? ==> Attempts(net, maxRetries, attempt) == Upload(true, net(attempt).status, attempt)
    ensures net(attempt).HttpError? && (!Retryable(net(attempt)) || attempt >= maxRetries) ==>
              Attempts(net, maxRetries, attempt) == Upload(false, net(attempt).code, attempt)
    ensures net(attempt).Raised? && attempt >= maxRetries ==> Attempts(net, maxRetries, attempt) == Upload(false, -1, attempt)
  {
  }

  /** A retried failure before the budget is spent hands over to the next attempt. */
  lemma RetryContinues(net: nat -> Outcome, maxRetries: int, attempt: nat)
    requires 1 <= attempt < maxRetries && Retryable(net(attempt))
    ensures Attempts(net, maxRetries, attempt + 1) == Attempts(net, maxRetries, attempt)
  {
  }

  /** An HTTP error that is not retried fails the upload on the first attempt. */
  lemma PermanentErrorFailsAtOnce(net: nat -> Outcome, maxRetries: int)
    requires net(1).HttpError? && !Retryable(net(1))
    ensures Attempts(net, maxRetries, 1) == Upload(false, net(1).code, 1)
  {
  }

  // ---------------------------------------------------------------------
  // The upload loop of `main`
  // ---------------------------------------------------------------------

  /** A file named on the command line and whether it exists. */
  datatype FileArg = FileArg(name: string, present: bool)

  /** What `main` reports for a file. */
  datatype Event =
    | Skipped(name: string)
    | Listed(name: string, contentType: string)
    | Succeeded(name: string, status: int)
    | Failed(name: string, status: int)

  /** No failed upload among the events. */
  predicate NoFailure(es: seq<Event>) {
    forall k :: 0 <= k < |es| ==> !es[k].Failed?
  }

  /**
   * The events for one file: skipped when missing, listed on a dry run, and
   * otherwise listed and then the outcome of `upload`.
   */
  function Step(f: FileArg, dryRun: bool, upload: Upload): (r: seq<Event>)
    ensures r != [] && NoFailure(r[..|r| - 1])
    ensures r[|r| - 1].Failed? <==> f.present && !dryRun && !upload.ok
    ensures f.present ==> r[0] == Listed(BaseName(f.name), ContentType(BaseName(f.name)))
  {
    if !f.present then [Skipped(f.name)] else Present(BaseName(f.name), dryRun, upload)
  }

  /** The events for a file that exists, named by the last component `n` of its path. */
  function Present(n: string, dryRun: bool, upload: Upload): (r: seq<Event>)
    ensures r != [] && r[0] == Listed(n, ContentType(n)) && NoFailure(r[..|r| - 1])
    ensures r[|r| - 1].Failed? <==> !dryRun && !upload.ok
  {
    if dryRun then [Listed(n, ContentType(n))]
    else [Listed(n, ContentType(n)),
          if upload.ok then Succeeded(n, upload.status) else Failed(n, upload.status)]
  }

  /** A present file is listed under its last component and typed by it alone, whatever directory holds it. */
  lemma StepListsLastComponent(dir: string, name: string, dryRun: bool, upload: Upload)
    requires name != [] && '/' !in name
    ensures var r := Step(FileArg(dir + "/" + name, true), dryRun, upload);
            r[0] == Listed(name, ContentType(name)) &&
            r == Step(FileArg(name, true), dryRun, upload)
  {
    BaseNameOf(dir, name);
  }

  /** The run over `files[i..]`: its exit code and its events; `net(i)` is the network seen by the upload of file `i`. */
  function Run(files: seq<FileArg>, i: nat, dryRun: bool, maxRetries: int, net: nat -> nat -> Outcome): (int, seq<Event>)
    requires i <= |files|
    decreases |files| - i
  {
    if i == |files| then (0, [])
    else
      var h := Step(files[i], dryRun, Attempts(net(i), maxRetries, 1));
      if h[|h| - 1].Failed? then (1, h)
      else
        var rest := Run(files, i + 1, dryRun, maxRetries, net);
        (rest.0, h + rest.1)
  }

  /** `main` after argument parsing: each file in order, stopping at the first failed upload. */
  method Deploy(files: seq<FileArg>, dryRun: bool, maxRetries: int, net: nat -> nat -> Outcome)
    returns (code: int, events: seq<Event>)
    ensures (code, events) == Run(files, 0, dryRun, maxRetries, net)
  {
    var i: nat := 0;
    events := [];
    ghost var total := Run(files, 0, dryRun, maxRetries, net);
    while i < |files|
      invariant i <= |files|
      invariant total.0 == Run(files, i, dryRun, maxRetries, net).0
      invariant total.1 == events + Run(files, i, dryRun, maxRetries, net).1
    {
      var step := HandleFile(files[i], dryRun, maxRetries, net(i));
      if step[|step| - 1].Failed? {
        RunFails(files, i, dryRun, maxRetries, net, step);
        return 1, events + step;
      }
      RunContinues(files, i, dryRun, maxRetries, net, step);
      ghost var rest := Run(files, i + 1, dryRun, maxRetries, net).1;
      assert events + (step + rest) == (events + step) + rest;
      events := events + step;
      i := i + 1;
    }
    assert Run(files, i, dryRun, maxRetries, net) == (0, []);
    assert events + [] == events;
    return 0, events;
  }

  /** One file of the loop: skip it, list it, or list and upload it. */
  method HandleFile(f: FileArg, dryRun: bool, maxRetries: int, net: nat -> Outcome) returns (step: seq<Event>)
    ensures step == Step(f, dryRun, Attempts(net, maxRetries, 1))
  {
    var n := BaseName(f.name);
    if !f.present {
      step := [Skipped(f.name)];
    } else if dryRun {
      step := [Listed(n, ContentType(n))];
    } else {
      var u, _ := UploadFile(net, maxRetries);
      step := [Listed(n, ContentType(n)),
               if u.ok then Succeeded(n, u.status) else Failed(n, u.status)];
    }
  }

  /** A file whose step ends in a failure ends the run with code 1. */
  lemma RunFails(files: seq<FileArg>, i: nat, dryRun: bool, maxRetries: int, net: nat -> nat -> Outcome, step: seq<Event>)
    requires i < |files| && step == Step(files[i], dryRun, Attempts(net(i), maxRetries, 1))
    requires step[|step| - 1].Failed?
    ensures Run(files, i, dryRun, maxRetries, net) == (1, step)
  {
  }

  /** Any other file's step is followed by the run over the remaining files. */
  lemma RunContinues(files: seq<FileArg>, i: nat, dryRun: bool, maxRetries: int, net: nat -> nat -> Outcome, step: seq<Event>)
    requires i < |files| && step == Step(files[i], dryRun, Attempts(net(i), maxRetries, 1))
    requires !step[|step| - 1].Failed?
    ensures Run(files, i, dryRun, maxRetries, net).0 == Run(files, i + 1, dryRun, maxRetries, net).0
    ensures Run(files, i, dryRun, maxRetries, net).1 == step + Run(files, i + 1, dryRun, maxRetries, net).1
  {
  }

  /** Events that report no upload: only skipped and listed files. */
  predicate Quiet(es: seq<Event>) {
    forall k :: 0 <= k < |es| ==> es[k].Skipped? || es[k].Listed?
  }

  /** A dry run sends nothing and succeeds: one skipped or listed event per file. */
  lemma {:induction false} DryRunSendsNothing(files: seq<FileArg>, i: nat, maxRetries: int, net: nat -> nat -> Outcome)
    requires i <= |files|
    ensures var r := Run(files, i, true, maxRetries, net);
            r.0 == 0 && |r.1| == |files| - i && Quiet(r.1)
    decreases |files| - i
  {
    if i < |files| {
      var h := Step(files[i], true, Attempts(net(i), maxRetries, 1));
      assert |h| == 1 && Quiet(h);
      RunContinues(files, i, true, maxRetries, net, h);
      DryRunSendsNothing(files, i + 1, maxRetries, net);
      QuietConcat(h, Run(files, i + 1, true, maxRetries, net).1);
    }
  }

  lemma QuietConcat(a: seq<Event>, b: seq<Event>)
    requires Quiet(a) && Quiet(b)
    ensures Quiet(a + b)
  {
    forall k | 0 <= k < |a + b| ensures (a + b)[k].Skipped? || (a + b)[k].Listed? {
      if k >= |a| { assert (a + b)[k] == b[k - |a|]; }
    }
  }

  /**
   * A run's report is well ended: the exit code is 0 or 1, it is 1 exactly
   * when the events end in a failed upload, and no failure comes earlier.
   */
  predicate WellEnded(code: int, es: seq<Event>) {
    (code == 0 || code == 1) &&
    (code == 1 <==> es != [] && es[|es| - 1].Failed?) &&
    (es != [] ==> NoFailure(es[..|es| - 1]))
  }

  /** The loop stops at the first failed upload and only then returns 1. */
  lemma {:induction false} RunStopsAtFailure(files: seq<FileArg>, i: nat, dryRun: bool, maxRetries: int, net: nat -> nat -> Outcome)
    requires i <= |files|
    ensures WellEnded(Run(files, i, dryRun, maxRetries, net).0, Run(files, i, dryRun, maxRetries, net).1)
    decreases |files| - i
  {
    if i < |files| {
      var h := Step(files[i], dryRun, Attempts(net(i), maxRetries, 1));
      if !h[|h| - 1].Failed? {
        RunContinues(files, i, dryRun, maxRetries, net, h);
        RunStopsAtFailure(files, i + 1, dryRun, maxRetries, net);
        StepWithoutFailure(h);
        var rest := Run(files, i + 1, dryRun, maxRetries, net);
        PrependNoFailure(h, rest.0, rest.1);
      } else {
        RunFails(files, i, dryRun, maxRetries, net, h);
      }
    }
  }

  lemma StepWithoutFailure(h: seq<Event>)
    requires h != [] && NoFailure(h[..|h| - 1]) && !h[|h| - 1].Failed?
    ensures NoFailure(h)
  {
    forall k | 0 <= k < |h| - 1 ensures !h[k].Failed? {
      assert h[k] == h[..|h| - 1][k];
    }
  }

  lemma PrependNoFailure(h: seq<Event>, code: int, rest: seq<Event>)
    requires h != [] && NoFailure(h) && WellEnded(code, rest)
    ensures WellEnded(code, h + rest)
  {
    var r := h + rest;
    if rest != [] {
      assert r[|r| - 1] == rest[|rest| - 1];
    }
    var p := r[..|r| - 1];
    forall k | 0 <= k < |p| ensures !p[k].Failed? {
      if k >= |h| { assert p[k] == rest[..|rest| - 1][k - |h|]; }
      else { assert p[k] == h[k]; }
    }
  }
}
