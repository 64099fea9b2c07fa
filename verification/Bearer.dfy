/** The writer's static bearer tokens (internal/writer/auth). */
module Bearer {
  import opened Text
  import opened ErrorTrees

  const DEFAULT_SERVICE := "unknown"

  /** The tokens file as the scanner sees it: the text read until the end or until an error. */
  datatype TokensFile = Unopened(cause: Err) | Scanned(text: string, stopped: Option<Err>)

  datatype Loaded = Loaded(index: map<string, string>) | LoadError(err: Err)

  datatype AuthResult = Authenticated(service: string) | NoCredentials | InvalidCredentials

  // --- What a line says ----------------------------------------------------------------------------

  /** Blank lines and comments say nothing. */
  predicate IsEntry(line: string) {
    Fields(line) != [] && !HasPrefix(Fields(line)[0], "#")
  }

  predicate Names(line: string, token: string) {
    IsEntry(line) && Fields(line)[0] == token
  }

  function ServiceOn(line: string): string {
    if |Fields(line)| >= 2 then Fields(line)[1] else DEFAULT_SERVICE
  }

  predicate IsLastNaming(lines: seq<string>, i: nat, token: string) {
    && i < |lines| && Names(lines[i], token)
    && forall j | i < j < |lines| :: !Names(lines[j], token)
  }

  predicate SomeNames(lines: seq<string>, token: string) {
    exists i | 0 <= i < |lines| :: Names(lines[i], token)
  }

  /** What a map from tokens to services must say about a file: the last line that names a token decides. */
  ghost predicate AgreesWithScan(index: map<string, string>, lines: seq<string>) {
    && (forall token :: token in index <==> SomeNames(lines, token))
    && (forall i: nat, token | IsLastNaming(lines, i, token) && token in index :: index[token] == ServiceOn(lines[i]))
  }

  // --- Trimming does not change the fields ------------------------------------------------------------

  lemma {:induction false} WordLengthStops(s: string, c: char)
    requires IsSpace(c)
    ensures WordLength(s + [c]) == WordLength(s)
  {
    if s != "" && !IsSpace(s[0]) {
      assert (s + [c])[1..] == s[1..] + [c];
      WordLengthStops(s[1..], c);
    }
  }

  lemma {:induction false} FieldsIgnoreLastSpace(s: string, c: char)
    requires IsSpace(c)
    ensures Fields(s + [c]) == Fields(s)
    decreases |s|
  {
    var longer := s + [c];
    if s == "" {
      assert longer[1..] == "";
    } else if IsSpace(s[0]) {
      assert longer[1..] == s[1..] + [c];
      FieldsIgnoreLastSpace(s[1..], c);
    } else {
      var k := WordLength(s);
      WordLengthStops(s, c);
      assert longer[..k] == s[..k] && longer[k..] == s[k..] + [c];
      assert k > 0;
      FieldsIgnoreLastSpace(s[k..], c);
    }
  }

  lemma {:induction false} FieldsOfTrimmedRight(s: string)
    ensures Fields(TrimRight(s)) == Fields(s)
  {
    if s != "" && IsSpace(s[|s| - 1]) {
      FieldsOfTrimmedRight(s[..|s| - 1]);
      FieldsIgnoreLastSpace(s[..|s| - 1], s[|s| - 1]);
      assert s == s[..|s| - 1] + [s[|s| - 1]];
    }
  }

  lemma {:induction false} FieldsOfTrimmedLeft(s: string)
    ensures Fields(TrimLeft(s)) == Fields(s)
  {
    if s != "" && IsSpace(s[0]) {
      FieldsOfTrimmedLeft(s[1..]);
    }
  }

  /** The loop's test on the trimmed line is the test for an entry, and trimming loses no field. */
  lemma TrimmedEntry(line: string)
    ensures var trimmed := TrimSpace(line);
      && Fields(trimmed) == Fields(line)
      && (IsEntry(line) <==> trimmed != "" && !HasPrefix(trimmed, "#"))
  {
    FieldsOfTrimmedLeft(line);
    FieldsOfTrimmedRight(TrimLeft(line));
    var i, j := TrimSpaceSlice(line);
    var trimmed := TrimSpace(line);
    if trimmed != "" {
      var k := WordLength(trimmed);
      assert !IsSpace(trimmed[0]) && k > 0;
      assert Fields(trimmed)[0] == trimmed[..k] && trimmed[..k][0] == trimmed[0];
    }
  }

  // --- Loading and looking up --------------------------------------------------------------------------

  /** The index after one more line. */
  function AfterLine(index: map<string, string>, line: string): map<string, string> {
    if IsEntry(line) then index[Fields(line)[0] := ServiceOn(line)] else index
  }

  lemma OneMoreLine(index: map<string, string>, lines: seq<string>, line: string)
    requires AgreesWithScan(index, lines)
    ensures AgreesWithScan(AfterLine(index, line), lines + [line])
  {
    var longer := lines + [line];
    forall token ensures SomeNames(longer, token) <==> SomeNames(lines, token) || Names(line, token) {
      if i :| 0 <= i < |lines| && Names(lines[i], token) {
        assert Names(longer[i], token);
      }
      assert longer[|lines|] == line;
    }
    forall i: nat, token | IsLastNaming(longer, i, token)
      ensures if i == |lines| then Names(line, token) else IsLastNaming(lines, i, token) && !Names(line, token)
    {
      assert i < |lines| ==> !Names(longer[|lines|], token);
      forall j | i < j < |lines| ensures !Names(lines[j], token) {
        assert !Names(longer[j], token);
      }
    }
  }

  /** The scan loop: later lines overwrite earlier ones. */
  method ScanLines(lines: seq<string>) returns (out: map<string, string>)
    ensures AgreesWithScan(out, lines)
  {
    out := map[];
    for n := 0 to |lines|
      invariant AgreesWithScan(out, lines[..n])
    {
      ghost var before := out;
      TrimmedEntry(lines[n]);
      OneMoreLine(before, lines[..n], lines[n]);
      assert lines[..n + 1] == lines[..n] + [lines[n]];
      var line := TrimSpace(lines[n]);
      if line == "" || HasPrefix(line, "#") {
        continue;
      }
      var parts := Fields(line);
      var token := parts[0];
      var service := "unknown";
      if |parts| >= 2 {
        service := parts[1];
      }
      out := out[token := service];
      assert out == AfterLine(before, lines[n]);
    }
    assert lines[..|lines|] == lines;
  }

  predicate HasEntry(lines: seq<string>) {
    exists i | 0 <= i < |lines| :: IsEntry(lines[i])
  }

  lemma EmptyIndexIff(index: map<string, string>, lines: seq<string>)
    requires AgreesWithScan(index, lines)
    ensures index == map[] <==> !HasEntry(lines)
  {
    if i :| 0 <= i < |lines| && IsEntry(lines[i]) {
      assert Names(lines[i], Fields(lines[i])[0]) && Fields(lines[i])[0] in index;
    } else {
      forall token ensures token !in index {
        assert !SomeNames(lines, token);
      }
    }
  }

  /** Loading succeeds exactly on a file read to its end that has an entry. */
  method NewBearer(file: TokensFile) returns (r: Loaded)
    ensures r.Loaded? <==> file.Scanned? && file.stopped.None? && HasEntry(Lines(file.text))
    ensures r.Loaded? ==> AgreesWithScan(r.index, Lines(file.text))
  {
    if file.Unopened? {
      return LoadError(Wrapped("auth: open tokens file", file.cause));
    }
    var out := ScanLines(Lines(file.text));
    EmptyIndexIff(out, Lines(file.text));
    if file.stopped.Some? {
      return LoadError(Wrapped("auth: scan tokens file", file.stopped.value));
    }
    if |out| == 0 {
      return LoadError(Opaque("auth: tokens file is empty"));
    }
    return Loaded(out);
  }

  /** The token of an Authorization header, or "" without a bearer credential. */
  function BearerToken(header: string): string {
    if HasPrefix(header, "Bearer ") then TrimSpace(header[7..]) else ""
  }

  function Authenticate(index: map<string, string>, header: string): AuthResult {
    var token := BearerToken(header);
    if token == "" then NoCredentials
    else if token in index then Authenticated(index[token])
    else InvalidCredentials
  }

  lemma {:induction false} LastNamingExists(lines: seq<string>, token: string) returns (i: nat)
    requires SomeNames(lines, token)
    ensures IsLastNaming(lines, i, token)
  {
    var last := |lines| - 1;
    if Names(lines[last], token) {
      i := last;
    } else {
      var k :| 0 <= k < |lines| && Names(lines[k], token);
      assert Names(lines[..last][k], token);
      i := LastNamingExists(lines[..last], token);
      forall j | i < j < |lines| ensures !Names(lines[j], token) {
        assert j < last ==> !Names(lines[..last][j], token);
      }
    }
  }

  /**
   * Looking a header up is scanning the file: a service is found exactly when the last line naming the token
   * gives it, and the header is rejected exactly when it carries no token or no line names it.
   */
  lemma LookupIsScan(index: map<string, string>, lines: seq<string>, header: string, service: string)
    requires AgreesWithScan(index, lines)
    ensures Authenticate(index, header) == Authenticated(service) <==>
            exists i: nat :: IsLastNaming(lines, i, BearerToken(header)) && ServiceOn(lines[i]) == service
    ensures Authenticate(index, header).Authenticated? <==> SomeNames(lines, BearerToken(header))
    ensures Authenticate(index, header).NoCredentials? <==> BearerToken(header) == ""
  {
    var token := BearerToken(header);
    if SomeNames(lines, token) {
      var i := LastNamingExists(lines, token);
      assert Fields(lines[i])[0] in Fields(lines[i]);
      assert token != "" && index[token] == ServiceOn(lines[i]);
      forall k: nat | IsLastNaming(lines, k, token) ensures index[token] == ServiceOn(lines[k]) {
      }
    } else {
      assert token !in index;
      forall i: nat ensures !IsLastNaming(lines, i, token) {
        assert !SomeNames(lines, token);
      }
    }
  }

  // --- Rendering a file --------------------------------------------------------------------------------

  datatype Entry = Entry(token: string, service: Option<string>)

  predicate IsWord(s: string) {
    s != "" && NoSpace(s)
  }

  predicate IsRenderable(e: Entry) {
    IsWord(e.token) && e.token[0] != '#' && (e.service.Some? ==> IsWord(e.service.value))
  }

  function RenderLine(e: Entry): string {
    match e.service
    case None => e.token
    case Some(service) => e.token + " " + service
  }

  function RenderLines(entries: seq<Entry>): (lines: seq<string>)
    ensures |lines| == |entries|
    ensures forall i | 0 <= i < |entries| :: lines[i] == RenderLine(entries[i])
  {
    seq(|entries|, i requires 0 <= i < |entries| => RenderLine(entries[i]))
  }

  function Render(entries: seq<Entry>): string {
    Join(RenderLines(entries), '\n')
  }

  function ServiceOf(e: Entry): string {
    if e.service.Some? then e.service.value else DEFAULT_SERVICE
  }

  /** Each token with the service of the last entry for it. */
  function LastWins(entries: seq<Entry>): map<string, string> {
    if entries == [] then map[]
    else
      var last := entries[|entries| - 1];
      LastWins(entries[..|entries| - 1])[last.token := ServiceOf(last)]
  }

  lemma RenderedLineFields(e: Entry)
    requires IsRenderable(e)
    ensures var line := RenderLine(e);
      && line != "" && '\n' !in line && DropCarriageReturn(line) == line
      && IsEntry(line) && Fields(line)[0] == e.token && ServiceOn(line) == ServiceOf(e)
  {
    var line := RenderLine(e);
    forall i | 0 <= i < |line| ensures line[i] != '\n' && (i == |line| - 1 ==> line[i] != '\r') {
      if i > |e.token| {
        assert line[i] == e.service.value[i - |e.token| - 1];
      } else if i < |e.token| {
        assert line[i] == e.token[i] && !IsSpace(e.token[i]);
      }
    }
    match e.service
    case None => FieldsOfWord(e.token);
    case Some(service) => FieldsOfPair(e.token, service);
  }

  lemma RenderedLines(entries: seq<Entry>)
    requires entries != [] && forall e | e in entries :: IsRenderable(e)
    ensures Lines(Render(entries)) == RenderLines(entries)
  {
    var lines := RenderLines(entries);
    forall i | 0 <= i < |entries|
      ensures lines[i] != "" && '\n' !in lines[i] && DropCarriageReturn(lines[i]) == lines[i]
    {
      assert entries[i] in entries;
      RenderedLineFields(entries[i]);
    }
    SplitJoin(lines, '\n');
    assert MapDropCR(lines) == lines;
  }

  lemma {:induction false} RenderedAgrees(entries: seq<Entry>)
    requires forall e | e in entries :: IsRenderable(e)
    ensures AgreesWithScan(LastWins(entries), RenderLines(entries))
  {
    if entries != [] {
      var front, last := entries[..|entries| - 1], entries[|entries| - 1];
      RenderedAgrees(front);
      assert last in entries;
      RenderedLineFields(last);
      OneMoreLine(LastWins(front), RenderLines(front), RenderLine(last));
      assert RenderLines(entries) == RenderLines(front) + [RenderLine(last)];
    }
  }

  /** A file determines its index: two maps that agree with the same lines are the same map. */
  lemma ScanDeterminesIndex(a: map<string, string>, b: map<string, string>, lines: seq<string>)
    requires AgreesWithScan(a, lines) && AgreesWithScan(b, lines)
    ensures a == b
  {
    forall token | token in a ensures token in b && a[token] == b[token] {
      var i := LastNamingExists(lines, token);
    }
  }

  /** A file written from a list of entries loads as the map that gives each token its last entry's service. */
  lemma RenderedFileLoads(entries: seq<Entry>)
    requires entries != [] && forall e | e in entries :: IsRenderable(e)
    ensures HasEntry(Lines(Render(entries)))
    ensures forall index :: AgreesWithScan(index, Lines(Render(entries))) <==> index == LastWins(entries)
  {
    RenderedLines(entries);
    RenderedAgrees(entries);
    assert entries[0] in entries;
    RenderedLineFields(entries[0]);
    assert IsEntry(RenderLines(entries)[0]);
    forall index | AgreesWithScan(index, RenderLines(entries)) ensures index == LastWins(entries) {
      ScanDeterminesIndex(index, LastWins(entries), RenderLines(entries));
    }
  }
}
