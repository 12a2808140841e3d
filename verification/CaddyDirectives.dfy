/** A site block of a Caddyfile, as far as the renderer writes one: directives of one line, or with a block of
    lines, and what they tell the server about a request. */
module CaddyDirectives {
  import opened Text
  import opened Optional
  import opened Braces

  // ---------------------------------------------------------------------------------------------
  // Directives and the lines they stand on
  // ---------------------------------------------------------------------------------------------

  /** `body` are the lines of the block without their first two tabs. */
  datatype Directive =
    | Simple(text: string)
    | Block(text: string, body: seq<string>)

  function Inner(body: seq<string>): seq<string> {
    seq(|body|, i requires 0 <= i < |body| => "\t\t" + body[i])
  }

  function Lines(d: Directive): seq<string> {
    match d
    case Simple(text) => ["\t" + text]
    case Block(text, body) => ["\t" + text + "{"] + Inner(body) + ["\t}"]
  }

  function AllLines(ds: seq<Directive>): seq<string> {
    if ds == [] then [] else AllLines(ds[..|ds| - 1]) + Lines(ds[|ds| - 1])
  }

  /** The line opens a block. */
  predicate OpensBlock(line: string) {
    line != "" && line[|line| - 1] == '{'
  }

  function Untab(line: string, n: nat): string {
    if n <= |line| then line[n..] else ""
  }

  /** The number of lines before the one that closes the block. */
  function BodyLength(lines: seq<string>): (n: nat)
    ensures n <= |lines|
  {
    if lines == [] || lines[0] == "\t}" then 0 else 1 + BodyLength(lines[1..])
  }

  /** Reads the lines of a site. */
  function Read(lines: seq<string>): seq<Directive>
    decreases |lines|
  {
    if lines == [] then []
    else
      var text := Untab(lines[0], 1);
      if OpensBlock(text) then
        var n := BodyLength(lines[1..]);
        var body := seq(n, i requires 0 <= i < n => Untab(lines[1..][i], 2));
        [Block(text[..|text| - 1], body)] + Read(if n + 2 <= |lines| then lines[n + 2..] else [])
      else
        [Simple(text)] + Read(lines[1..])
  }

  /** The directives of a text of whole lines. */
  function Directives(text: string): seq<Directive> {
    var lines := Split(text, '\n');
    Read(lines[..|lines| - 1])
  }

  predicate OneLine(s: string) { '\n' !in s }

  predicate Tidy(d: Directive) {
    match d
    case Simple(text) => OneLine(text) && !OpensBlock(text)
    case Block(text, body) => OneLine(text) && forall i | 0 <= i < |body| :: OneLine(body[i])
  }

  predicate AllTidy(ds: seq<Directive>) {
    forall i | 0 <= i < |ds| :: Tidy(ds[i])
  }

  lemma {:induction false} BodyEnds(body: seq<string>, rest: seq<string>)
    ensures BodyLength(Inner(body) + ["\t}"] + rest) == |body|
  {
    var lines := Inner(body) + ["\t}"] + rest;
    if body != [] {
      assert lines[0] == "\t\t" + body[0] && lines[0][1] == '\t' && "\t}"[1] == '}';
      assert lines[1..] == Inner(body[1..]) + ["\t}"] + rest;
      BodyEnds(body[1..], rest);
    }
  }

  lemma ReadSimple(text: string, rest: seq<string>)
    requires !OpensBlock(text)
    ensures Read(["\t" + text] + rest) == [Simple(text)] + Read(rest)
  {
    var lines := ["\t" + text] + rest;
    assert Untab(lines[0], 1) == text && lines[1..] == rest;
  }

  lemma ReadOpened(line: string, rest: seq<string>)
    requires OpensBlock(Untab(line, 1))
    ensures var n, text := BodyLength(rest), Untab(line, 1);
            Read([line] + rest) ==
            [Block(text[..|text| - 1], seq(n, i requires 0 <= i < n => Untab(rest[i], 2)))] +
            Read(if n + 1 <= |rest| then rest[n + 1..] else [])
  {
    var lines, n, text := [line] + rest, BodyLength(rest), Untab(line, 1);
    assert lines[1..] == rest;
    var body := seq(n, i requires 0 <= i < n => Untab(rest[i], 2));
    assert body == seq(n, i requires 0 <= i < n => Untab(lines[1..][i], 2));
    assert n + 2 <= |lines| ==> lines[n + 2..] == rest[n + 1..];
  }

  lemma BodyRead(body: seq<string>, rest: seq<string>)
    ensures var lines := Inner(body) + ["\t}"] + rest;
            && lines[|body| + 1..] == rest
            && seq(|body|, i requires 0 <= i < |body| => Untab(lines[i], 2)) == body
  {
    var lines := Inner(body) + ["\t}"] + rest;
    forall i | 0 <= i < |body| ensures Untab(lines[i], 2) == body[i] {
      assert lines[i] == "\t\t" + body[i];
    }
  }

  lemma ReadOne(d: Directive, rest: seq<string>)
    requires Tidy(d)
    ensures Read(Lines(d) + rest) == [d] + Read(rest)
  {
    hide Read, BodyLength;
    match d
    case Simple(text) =>
      ReadSimple(text, rest);
    case Block(text, body) =>
      var line, more := "\t" + text + "{", Inner(body) + ["\t}"] + rest;
      assert Untab(line, 1) == text + "{" && (text + "{")[..|text|] == text;
      BodyEnds(body, rest);
      BodyRead(body, rest);
      ReadOpened(line, more);
      assert Lines(d) + rest == [line] + more;
  }

  lemma AllLinesSnoc(ds: seq<Directive>, d: Directive)
    ensures AllLines(ds + [d]) == AllLines(ds) + Lines(d)
  {
    assert (ds + [d])[..|ds|] == ds;
  }

  lemma {:induction false} ReadMore(ds: seq<Directive>, rest: seq<string>)
    requires AllTidy(ds)
    ensures Read(AllLines(ds) + rest) == ds + Read(rest)
    decreases |ds|
  {
    hide Lines, Read, Tidy;
    if ds == [] {
      assert AllLines(ds) + rest == rest && ds + Read(rest) == Read(rest);
    } else {
      var front, d := ds[..|ds| - 1], ds[|ds| - 1];
      assert ds == front + [d];
      ReadMore(front, Lines(d) + rest);
      ReadOne(d, rest);
      AllLinesSnoc(front, d);
      hide AllLines;
      assert AllLines(ds) + rest == AllLines(front) + (Lines(d) + rest);
      assert front + ([d] + Read(rest)) == ds + Read(rest);
    }
  }

  lemma LinesWhole(d: Directive)
    requires Tidy(d)
    ensures forall x | x in Lines(d) :: OneLine(x)
  {
  }

  lemma {:induction false} AllLinesWhole(ds: seq<Directive>)
    requires AllTidy(ds)
    ensures forall x | x in AllLines(ds) :: OneLine(x)
    decreases |ds|
  {
    if ds != [] {
      AllLinesWhole(ds[..|ds| - 1]);
      LinesWhole(ds[|ds| - 1]);
    }
  }

  lemma {:induction false} SplitUnlines(lines: seq<string>)
    requires forall x | x in lines :: OneLine(x)
    ensures Split(Unlines(lines), '\n') == lines + [""]
  {
    if lines != [] {
      SplitUnlines(lines[1..]);
      assert lines[0] in lines && forall x | x in lines[1..] :: x in lines;
      assert lines[0] + "\n" + Unlines(lines[1..]) == lines[0] + ['\n'] + Unlines(lines[1..]);
      SplitAtSep(lines[0], Unlines(lines[1..]), '\n');
      assert [lines[0]] + (lines[1..] + [""]) == lines + [""];
    }
  }

  /** What is written is read back. */
  lemma ReadsBack(ds: seq<Directive>)
    requires AllTidy(ds)
    ensures Directives(Unlines(AllLines(ds))) == ds
  {
    var lines := AllLines(ds);
    AllLinesWhole(ds);
    SplitUnlines(lines);
    assert (lines + [""])[..|lines|] == lines;
    ReadMore(ds, []);
    assert lines + [] == lines && ds + [] == ds;
  }

  lemma {:induction false} AllLinesConcat(a: seq<Directive>, b: seq<Directive>)
    ensures AllLines(a + b) == AllLines(a) + AllLines(b)
    decreases |b|
  {
    assert AllLines([]) == [];
    hide AllLines, Lines;
    if b == [] {
      assert a + b == a;
    } else {
      var front, d := b[..|b| - 1], b[|b| - 1];
      assert b == front + [d] && a + b == (a + front) + [d];
      AllLinesConcat(a, front);
      AllLinesSnoc(a + front, d);
      AllLinesSnoc(front, d);
      assert AllLines(a) + AllLines(front) + Lines(d) == AllLines(a) + (AllLines(front) + Lines(d));
    }
  }

  // ---------------------------------------------------------------------------------------------
  // Words
  // ---------------------------------------------------------------------------------------------

  function Word(s: string): string { s[..IndexOf(s, ' ')] }

  function Rest(s: string): string { Untab(s, IndexOf(s, ' ') + 1) }

  lemma {:induction false} IndexAt(w: string, r: string)
    requires ' ' !in w
    ensures IndexOf(w + " " + r, ' ') == |w| && IndexOf(w, ' ') == |w|
  {
    var s := w + " " + r;
    if w != "" {
      assert s[1..] == w[1..] + " " + r;
      IndexAt(w[1..], r);
    }
  }

  lemma WordRest(w: string, r: string)
    requires ' ' !in w
    ensures Word(w + " " + r) == w && Rest(w + " " + r) == r
    ensures Word(w) == w && Rest(w) == ""
  {
    IndexAt(w, r);
    assert (w + " " + r)[|w| + 1..] == r;
  }

  // ---------------------------------------------------------------------------------------------
  // What directives tell the server about a request
  // ---------------------------------------------------------------------------------------------

  /** A request: the address ranges it comes from, the path patterns it falls under, and its method. */
  datatype Request = Request(comesFrom: string -> bool, fallsUnder: string -> bool, verb: string)

  /** A matcher, without its name. */
  predicate Matches(m: string, q: Request)
    decreases |m|
  {
    if Word(m) == "not" then |Rest(m)| < |m| && !Matches(Rest(m), q)
    else if Word(m) == "remote_ip" then q.comesFrom(Rest(m))
    else if Word(m) == "path" then q.fallsUnder(Rest(m))
    else Word(m) == "method" && q.verb == Rest(m)
  }

  /** The matcher of this name, as the directives define it. */
  function Bound(ds: seq<Directive>, name: string): Option<string> {
    if ds == [] then None
    else
      var d := ds[|ds| - 1];
      if d.Simple? && Word(d.text) == name then Some(Rest(d.text)) else Bound(ds[..|ds| - 1], name)
  }

  predicate Holds(ds: seq<Directive>, name: string, q: Request) {
    Bound(ds, name).Some? && Matches(Bound(ds, name).value, q)
  }

  /** Directive `d` behind `ds` aborts the request. */
  predicate AbortsAt(ds: seq<Directive>, d: Directive, q: Request) {
    d.Simple? && Word(d.text) == "abort" && (Rest(d.text) == "" || Holds(ds, Rest(d.text), q))
  }

  predicate Aborts(ds: seq<Directive>, q: Request) {
    ds != [] && (Aborts(ds[..|ds| - 1], q) || AbortsAt(ds[..|ds| - 1], ds[|ds| - 1], q))
  }

  predicate AnswersAt(ds: seq<Directive>, d: Directive, q: Request, status: string) {
    && d.Simple? && Word(d.text) == "respond"
    && Rest(Rest(d.text)) == status && Holds(ds, Word(Rest(d.text)), q)
  }

  /** A `respond` directive answers the request with this status. */
  predicate Answers(ds: seq<Directive>, q: Request, status: string) {
    ds != [] && (Answers(ds[..|ds| - 1], q, status) || AnswersAt(ds[..|ds| - 1], ds[|ds| - 1], q, status))
  }

  /** The addresses between the keyword of a proxy block and its brace. */
  function Upstreams(text: string): seq<string> { Split(Rest(text), ' ') }

  predicate ProxiesAt(ds: seq<Directive>, d: Directive, q: Request, address: string) {
    && Word(d.text) == "reverse_proxy"
    && if d.Simple? then Rest(Rest(d.text)) == address && Holds(ds, Word(Rest(d.text)), q)
       else address != "" && address in Upstreams(d.text)
  }

  /** A `reverse_proxy` directive sends the request to this address. */
  predicate Proxies(ds: seq<Directive>, q: Request, address: string) {
    ds != [] && (Proxies(ds[..|ds| - 1], q, address) || ProxiesAt(ds[..|ds| - 1], ds[|ds| - 1], q, address))
  }

  /** What stands behind a keyword on its own lines, in order. */
  function Args(ds: seq<Directive>, keyword: string): seq<string> {
    if ds == [] then []
    else
      var d := ds[|ds| - 1];
      Args(ds[..|ds| - 1], keyword) + if d.Simple? && Word(d.text) == keyword then [Rest(d.text)] else []
  }

  /** The lines of the blocks that are opened by this text. */
  function Bodies(ds: seq<Directive>, text: string): seq<string> {
    if ds == [] then []
    else
      var d := ds[|ds| - 1];
      Bodies(ds[..|ds| - 1], text) + if d.Block? && d.text == text then d.body else []
  }

  // ---------------------------------------------------------------------------------------------
  // Directives that do not bear on a question
  // ---------------------------------------------------------------------------------------------

  /** None of the directives has one of these keywords. */
  predicate Lacks(ds: seq<Directive>, keywords: set<string>) {
    forall i | 0 <= i < |ds| :: Word(ds[i].text) !in keywords
  }

  lemma {:induction false} AbortsSame(a: seq<Directive>, b: seq<Directive>, q: Request)
    requires Lacks(b, {"abort"})
    ensures Aborts(a + b, q) <==> Aborts(a, q)
    decreases |b|
  {
    if b == [] {
      assert a + b == a;
    } else {
      assert (a + b)[..|a + b| - 1] == a + b[..|b| - 1];
      AbortsSame(a, b[..|b| - 1], q);
    }
  }

  lemma {:induction false} AnswersSame(a: seq<Directive>, b: seq<Directive>, q: Request, status: string)
    requires Lacks(b, {"respond"})
    ensures Answers(a + b, q, status) <==> Answers(a, q, status)
    decreases |b|
  {
    if b == [] {
      assert a + b == a;
    } else {
      assert (a + b)[..|a + b| - 1] == a + b[..|b| - 1];
      AnswersSame(a, b[..|b| - 1], q, status);
    }
  }

  lemma {:induction false} ProxiesSame(a: seq<Directive>, b: seq<Directive>, q: Request, address: string)
    requires Lacks(b, {"reverse_proxy"})
    ensures Proxies(a + b, q, address) <==> Proxies(a, q, address)
    decreases |b|
  {
    if b == [] {
      assert a + b == a;
    } else {
      assert (a + b)[..|a + b| - 1] == a + b[..|b| - 1];
      ProxiesSame(a, b[..|b| - 1], q, address);
    }
  }

  lemma {:induction false} ArgsConcat(a: seq<Directive>, b: seq<Directive>, keyword: string)
    ensures Args(a + b, keyword) == Args(a, keyword) + Args(b, keyword)
    decreases |b|
  {
    if b == [] {
      assert a + b == a;
    } else {
      assert (a + b)[..|a + b| - 1] == a + b[..|b| - 1];
      ArgsConcat(a, b[..|b| - 1], keyword);
    }
  }

  lemma {:induction false} ArgsNone(ds: seq<Directive>, keyword: string)
    requires Lacks(ds, {keyword})
    ensures Args(ds, keyword) == []
    decreases |ds|
  {
    if ds != [] { ArgsNone(ds[..|ds| - 1], keyword); }
  }

  lemma {:induction false} BodiesConcat(a: seq<Directive>, b: seq<Directive>, text: string)
    ensures Bodies(a + b, text) == Bodies(a, text) + Bodies(b, text)
    decreases |b|
  {
    if b == [] {
      assert a + b == a;
    } else {
      assert (a + b)[..|a + b| - 1] == a + b[..|b| - 1];
      BodiesConcat(a, b[..|b| - 1], text);
    }
  }

  lemma {:induction false} BodiesNone(ds: seq<Directive>, text: string)
    requires Lacks(ds, {Word(text)})
    ensures Bodies(ds, text) == []
    decreases |ds|
  {
    if ds != [] { BodiesNone(ds[..|ds| - 1], text); }
  }
}
