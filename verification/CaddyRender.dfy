/** internal/caddy/renderer.go: the Caddyfile, written piece by piece into one string builder. */
module CaddyRender {
  import opened Text
  import opened Optional
  import opened Braces
  import opened Sorting
  import opened CaddyValidate
  import D = CaddyDirectives
  import Routes

  // ---------------------------------------------------------------------------------------------
  // The string builder
  // ---------------------------------------------------------------------------------------------

  function Fmt(parts: seq<string>): string {
    if parts == [] then "" else parts[0] + Fmt(parts[1..])
  }

  ghost predicate AllPlain(parts: seq<string>) {
    forall i | 0 <= i < |parts| :: Plain(parts[i])
  }

  /** The parts start a line of code. */
  predicate Word(parts: seq<string>) {
    |parts| > 0 && parts[0] != "" && !IsSpace(parts[0][0]) && parts[0][0] != '#'
  }

  function Tabs(n: nat): string { Repeat('\t', n) }

  lemma {:induction false} FmtPlain(parts: seq<string>)
    requires AllPlain(parts)
    ensures Plain(Fmt(parts))
  {
    if parts != [] {
      FmtPlain(parts[1..]);
      PlainConcat(parts[0], Fmt(parts[1..]));
    }
  }

  lemma TabsPlain(n: nat)
    ensures Plain(Tabs(n))
  {
  }

  lemma {:induction false} TabsHead(n: nat, head: string)
    requires head == "" || (!IsSpace(head[0]) && head[0] != '#')
    ensures Heads(Tabs(n) + head)
  {
    if n == 0 {
      assert Tabs(0) + head == head;
    } else {
      TabsHead(n - 1, head);
      assert (Tabs(n) + head)[1..] == Tabs(n - 1) + head;
    }
  }

  /** Whole lines were appended that open `k` blocks on balance. */
  ghost predicate Adds(t0: string, t1: string, k: int) {
    t0 <= t1 && Opens(t1[|t0|..], k)
  }

  lemma AddsNone(t: string)
    ensures Adds(t, t, 0)
  {
    assert t[|t|..] == "";
  }

  lemma AddsMore(t0: string, t1: string, s: string, j: int, k: int)
    requires Adds(t0, t1, j) && Run(State(j, Start), s) == State(k, Start) && Stays(State(j, Start), s, 0)
    ensures Adds(t0, t1 + s, k)
  {
    OpensConcat(t1[|t0|..], s, j, k);
    assert (t1 + s)[|t0|..] == t1[|t0|..] + s;
  }

  /** The text is the lines of exactly these directives. */
  ghost predicate IsText(text: string, ds: seq<D.Directive>) {
    text == Unlines(D.AllLines(ds)) && D.AllTidy(ds)
  }

  class Builder {
    var text: string
    ghost var base: string               // the text before the directives
    ghost var said: seq<D.Directive>     // those written so far
    ghost var head: string               // the one that is open, and the lines in it
    ghost var body: seq<string>

    constructor ()
      ensures text == ""
    {
      text, base, said, head, body := "", "", [], "", [];
    }

    method WriteString(s: string)
      modifies `text
      ensures text == old(text) + s
    {
      text := text + s;
    }

    /** A line without braces. */
    method Line(indent: nat, parts: seq<string>, ghost t0: string, ghost k: nat)
      requires Adds(t0, text, k) && AllPlain(parts)
      modifies `text
      ensures text == old(text) + Tabs(indent) + Fmt(parts) + "\n" && Adds(t0, text, k)
    {
      ghost var v := Tabs(indent) + Fmt(parts);
      TabsPlain(indent);
      FmtPlain(parts);
      PlainConcat(Tabs(indent), Fmt(parts));
      PlainLine(k, v);
      StaysLower(State(k, Start), v + "\n", k, 0);
      AddsMore(t0, text, v + "\n", k, k);
      WriteString(Tabs(indent) + Fmt(parts) + "\n");
    }

    /** A line that opens a block. */
    method Open(indent: nat, parts: seq<string>, ghost t0: string, ghost k: nat)
      requires Adds(t0, text, k) && AllPlain(parts) && (parts == [] || Word(parts))
      modifies `text
      ensures text == old(text) + Tabs(indent) + Fmt(parts) + "{\n" && Adds(t0, text, k + 1)
    {
      ghost var v := Tabs(indent) + Fmt(parts);
      TabsPlain(indent);
      FmtPlain(parts);
      PlainConcat(Tabs(indent), Fmt(parts));
      TabsHead(indent, Fmt(parts));
      OpenLine(k, v);
      StaysLower(State(k, Start), v + "{\n", k, 0);
      AddsMore(t0, text, v + "{\n", k, k + 1);
      WriteString(Tabs(indent) + Fmt(parts) + "{\n");
    }

    method Close(indent: nat, ghost t0: string, ghost k: nat)
      requires Adds(t0, text, k) && k > 0
      modifies `text
      ensures text == old(text) + Tabs(indent) + "}\n" && Adds(t0, text, k - 1)
    {
      TabsPlain(indent);
      TabsHead(indent, "");
      assert Tabs(indent) + "" == Tabs(indent);
      CloseLine(k, Tabs(indent));
      StaysLower(State(k, Start), Tabs(indent) + "}\n", k - 1, 0);
      AddsMore(t0, text, Tabs(indent) + "}\n", k, k - 1);
      WriteString(Tabs(indent) + "}\n");
    }

    /** A line with one Caddy placeholder. */
    method Placeholder(indent: nat, before: seq<string>, name: string, behind: seq<string>,
        ghost t0: string, ghost k: nat)
      requires Adds(t0, text, k) && AllPlain(before) && Plain(name) && AllPlain(behind)
      modifies `text
      ensures text == old(text) + (Tabs(indent) + (Fmt(before) + "{" + name + "}" + Fmt(behind)) + "\n")
      ensures Adds(t0, text, k)
    {
      ghost var v := Tabs(indent) + Fmt(before);
      TabsPlain(indent);
      FmtPlain(before);
      FmtPlain(behind);
      PlainConcat(Tabs(indent), Fmt(before));
      PlaceholderLine(k, v, name, Fmt(behind));
      ghost var line := v + "{" + name + "}" + Fmt(behind) + "\n";
      HolderWhole(Tabs(indent), Fmt(before), name, Fmt(behind));
      hide *;
      StaysLower(State(k, Start), line, k, 0);
      AddsMore(t0, text, line, k, k);
      WriteString(Tabs(indent) + (Fmt(before) + "{" + name + "}" + Fmt(behind)) + "\n");
    }

    /** The text behind `base` is exactly the directives `said`, and whole blocks. */
    ghost predicate Says()
      reads this
    {
      Adds(base, text, 0) && text == base + Unlines(D.AllLines(said)) && D.AllTidy(said)
    }

    /** One more directive is open, with `k` blocks. */
    ghost predicate Saying(k: nat)
      reads this
    {
      && Adds(base, text, k) && D.AllTidy(said) && '\n' !in head && (forall i | 0 <= i < |body| :: '\n' !in body[i])
      && text == base + Unlines(D.AllLines(said) + (["\t" + head + "{"] + D.Inner(body)))
    }

    ghost method Begin()
      modifies this
      ensures text == old(text) && base == text && said == [] && Says()
    {
      base, said := text, [];
      AddsNone(text);
      assert text == base + Unlines(D.AllLines(said));
    }

    /** A directive on a line of its own. */
    method Say(v: string)
      requires Says() && Plain(v)
      modifies `text, `said
      ensures Says() && said == old(said) + [D.Simple(v)]
    {
      ghost var t := text;
      PlainNotOpen(v);
      SaySimple(base, said, v);
      AllPlainOne(v);
      FmtOne(v);
      OneTab();
      LineTail(t, Tabs(1), v);
      hide Adds, Plain, Unlines, D.AllLines, Fmt, Tabs, AllPlain, D.AllTidy, D.OpensBlock;
      Line(1, [v], base, 0);
      said := said + [D.Simple(v)];
    }

    method SayHolder(before: string, name: string, behind: string)
      requires Says() && Plain(before) && Plain(name) && Plain(behind)
      modifies `text, `said
      ensures Says() && said == old(said) + [D.Simple(before + "{" + name + "}" + behind)]
    {
      ghost var t, v := text, before + "{" + name + "}" + behind;
      HolderText(before, name, behind);
      SaySimple(base, said, v);
      AllPlainOne(before);
      AllPlainOne(behind);
      FmtOne(before);
      FmtOne(behind);
      OneTab();
      hide Adds, Plain, Unlines, D.AllLines, Fmt, Tabs, AllPlain, D.AllTidy, D.OpensBlock;
      Placeholder(1, [before], name, [behind], base, 0);
      said := said + [D.Simple(v)];
    }

    /** A directive with a block. */
    method OpenUp(v: string)
      requires Says() && Plain(v) && CodeStart(v)
      modifies `text, `head, `body
      ensures Saying(1) && head == v && body == []
    {
      ghost var t := text;
      PlainNotOpen(v);
      SayOpened(base, said, v);
      AllPlainOne(v);
      WordOne(v);
      FmtOne(v);
      OneTab();
      OpenTail(t, Tabs(1), v);
      hide Adds, Plain, Unlines, D.AllLines, Fmt, Tabs, AllPlain, D.AllTidy, D.OpensBlock, D.Inner, Word, CodeStart;
      Open(1, [v], base, 0);
      head, body := v, [];
    }

    /** A line in the block, indented by `n` tabs more than the block itself demands. */
    method Within(n: nat, v: string, ghost k: nat)
      requires Saying(k) && Plain(v)
      modifies `text, `body
      ensures Saying(k) && body == old(body) + [Tabs(n) + v]
    {
      ghost var t := text;
      PlainInside(n, v);
      SayInside(base, said, head, body, Tabs(n) + v);
      AllPlainOne(v);
      FmtOne(v);
      TwoTabs(n, v);
      LineTail(t, Tabs(n + 2), v);
      hide Adds, Plain, Unlines, D.AllLines, D.Inner, Fmt, Tabs, AllPlain, D.AllTidy;
      Line(n + 2, [v], base, k);
      body := body + [Tabs(n) + v];
    }

    method WithinHolder(before: string, name: string, behind: string, ghost k: nat)
      requires Saying(k) && Plain(before) && Plain(name) && Plain(behind)
      modifies `text, `body
      ensures Saying(k) && body == old(body) + [before + "{" + name + "}" + behind]
    {
      ghost var t, v := text, before + "{" + name + "}" + behind;
      HolderText(before, name, behind);
      SayInside(base, said, head, body, v);
      AllPlainOne(before);
      AllPlainOne(behind);
      FmtOne(before);
      FmtOne(behind);
      TwoTabs(0, v);
      NoTabs(v);
      hide Adds, Plain, Unlines, D.AllLines, D.Inner, Fmt, Tabs, AllPlain, D.AllTidy, D.OpensBlock;
      Placeholder(2, [before], name, [behind], base, k);
      body := body + [v];
    }

    method WithinOpen(v: string, ghost k: nat)
      requires Saying(k) && Plain(v) && CodeStart(v)
      modifies `text, `body
      ensures Saying(k + 1) && body == old(body) + [v + "{"]
    {
      ghost var t := text;
      PlainNotOpen(v);
      SayInside(base, said, head, body, v + "{");
      AllPlainOne(v);
      WordOne(v);
      FmtOne(v);
      TwoTabs(0, v + "{");
      NoTabs(v + "{");
      OpenTail(t, Tabs(2), v);
      assert Tabs(2) + (v + "{") == Tabs(2) + v + "{";
      hide Adds, Plain, Unlines, D.AllLines, D.Inner, Fmt, Tabs, AllPlain, D.AllTidy, D.OpensBlock, Word, CodeStart;
      Open(2, [v], base, k);
      body := body + [v + "{"];
    }

    method WithinClose(ghost k: nat)
      requires Saying(k) && k > 0
      modifies `text, `body
      ensures Saying(k - 1) && body == old(body) + ["}"]
    {
      ghost var t := text;
      SayInside(base, said, head, body, "}");
      TwoTabs(0, "}");
      NoTabs("}");
      InnerTail(t);
      hide Adds, Plain, Unlines, D.AllLines, D.Inner, Fmt, Tabs, AllPlain, D.AllTidy;
      Close(2, base, k);
      body := body + ["}"];
    }

    /** The text of the directives written since the beginning. */
    ghost method Told() returns (piece: string)
      requires Says()
      ensures text == base + piece && Opens(piece, 0) && IsText(piece, said)
    {
      piece := text[|base|..];
      assert piece == Unlines(D.AllLines(said));
    }

    /** The end of the open directive. */
    method CloseUp()
      requires Saying(1)
      modifies `text, `said
      ensures Says() && said == old(said) + [D.Block(head, body)]
    {
      ghost var t := text;
      SayClosed(base, said, head, body);
      CloseTail(t);
      hide Adds, Unlines, D.AllLines, D.Inner, Tabs, D.AllTidy, D.Lines;
      Close(1, base, 1);
      said := said + [D.Block(head, body)];
    }
  }

  lemma CloseTail(t: string)
    ensures t + Tabs(1) + "}\n" == t + "\t}" + "\n"
  {
    assert Tabs(1) + "}" == "\t}";
  }

  lemma InnerTail(t: string)
    ensures t + Tabs(2) + "}\n" == t + (Tabs(2) + "}") + "\n"
  {
  }

  lemma LineTail(t: string, tabs: string, v: string)
    ensures t + tabs + v + "\n" == t + (tabs + v) + "\n"
  {
  }

  lemma HolderWhole(tabs: string, a: string, name: string, b: string)
    ensures tabs + a + "{" + name + "}" + b + "\n" == tabs + (a + "{" + name + "}" + b) + "\n"
  {
    var v := a + "{" + name + "}" + b;
    assert tabs + a + "{" + name + "}" + b == tabs + v;
  }

  lemma OneTab()
    ensures Tabs(1) == "\t"
  {
  }

  lemma TwoTabs(n: nat, v: string)
    ensures Tabs(n + 2) + v == "\t\t" + (Tabs(n) + v)
  {
  }

  lemma NoTabs(v: string)
    ensures Tabs(0) + v == v
  {
  }

  lemma AllPlainOne(v: string)
    requires Plain(v)
    ensures AllPlain([v])
  {
  }

  /** The text starts a line of code. */
  predicate CodeStart(v: string) { v != "" && !IsSpace(v[0]) && v[0] != '#' }

  lemma WordOne(v: string)
    requires CodeStart(v)
    ensures Word([v])
  {
  }

  lemma CodeStartConcat(a: string, b: string)
    requires CodeStart(a)
    ensures CodeStart(a + b)
  {
  }

  lemma PlainInside(n: nat, v: string)
    requires Plain(v)
    ensures '\n' !in Tabs(n) + v
  {
    TabsPlain(n);
    PlainConcat(Tabs(n), v);
    PlainMembers(Tabs(n) + v);
  }

  lemma OpenTail(t: string, tabs: string, v: string)
    ensures t + tabs + v + "{\n" == t + (tabs + v + "{") + "\n"
  {
  }

  lemma HolderText(a: string, name: string, b: string)
    requires Plain(a) && Plain(name) && Plain(b)
    ensures var v := a + "{" + name + "}" + b; '\n' !in v && !D.OpensBlock(v)
  {
    PlainMembers(a);
    PlainMembers(name);
    PlainMembers(b);
    if b != "" { assert b[|b| - 1] in b; }
  }

  lemma PlainNotOpen(v: string)
    requires Plain(v)
    ensures !D.OpensBlock(v) && '\n' !in v
  {
    PlainMembers(v);
    if v != "" { assert v[|v| - 1] in v; }
  }

  lemma SaySimple(base: string, said: seq<D.Directive>, v: string)
    requires D.AllTidy(said) && '\n' !in v && !D.OpensBlock(v)
    ensures D.AllTidy(said + [D.Simple(v)])
    ensures base + Unlines(D.AllLines(said + [D.Simple(v)])) == base + Unlines(D.AllLines(said)) + ("\t" + v) + "\n"
  {
    D.AllLinesSnoc(said, D.Simple(v));
    hide D.AllLines, Unlines;
    UnlinesAppend(D.AllLines(said), "\t" + v);
    var lines := Unlines(D.AllLines(said));
    assert base + (lines + ("\t" + v) + "\n") == base + lines + ("\t" + v) + "\n";
  }

  lemma SayOpened(base: string, said: seq<D.Directive>, v: string)
    ensures base + Unlines(D.AllLines(said) + (["\t" + v + "{"] + D.Inner([]))) ==
            base + Unlines(D.AllLines(said)) + ("\t" + v + "{") + "\n"
  {
    hide D.AllLines, Unlines;
    UnlinesAppend(D.AllLines(said), "\t" + v + "{");
    assert ["\t" + v + "{"] + D.Inner([]) == ["\t" + v + "{"];
    assert base + (Unlines(D.AllLines(said)) + ("\t" + v + "{") + "\n") ==
           base + Unlines(D.AllLines(said)) + ("\t" + v + "{") + "\n";
  }

  lemma SayInside(base: string, said: seq<D.Directive>, head: string, body: seq<string>, v: string)
    ensures base + Unlines(D.AllLines(said) + (["\t" + head + "{"] + D.Inner(body + [v]))) ==
            base + Unlines(D.AllLines(said) + (["\t" + head + "{"] + D.Inner(body))) + ("\t\t" + v) + "\n"
  {
    assert D.Inner(body + [v]) == D.Inner(body) + ["\t\t" + v];
    hide D.AllLines, Unlines, D.Inner;
    var lines := D.AllLines(said) + (["\t" + head + "{"] + D.Inner(body));
    UnlinesAppend(lines, "\t\t" + v);
    assert D.AllLines(said) + (["\t" + head + "{"] + D.Inner(body + [v])) == lines + ["\t\t" + v];
    assert base + (Unlines(lines) + ("\t\t" + v) + "\n") == base + Unlines(lines) + ("\t\t" + v) + "\n";
  }

  lemma SayClosed(base: string, said: seq<D.Directive>, head: string, body: seq<string>)
    requires D.AllTidy(said) && '\n' !in head && forall i | 0 <= i < |body| :: '\n' !in body[i]
    ensures D.AllTidy(said + [D.Block(head, body)])
    ensures base + Unlines(D.AllLines(said + [D.Block(head, body)])) ==
            base + Unlines(D.AllLines(said) + (["\t" + head + "{"] + D.Inner(body))) + "\t}" + "\n"
  {
    D.AllLinesSnoc(said, D.Block(head, body));
    hide D.AllLines, Unlines, D.Inner;
    var lines := D.AllLines(said) + (["\t" + head + "{"] + D.Inner(body));
    UnlinesAppend(lines, "\t}");
    assert D.AllLines(said) + (["\t" + head + "{"] + D.Inner(body) + ["\t}"]) == lines + ["\t}"];
    assert base + (Unlines(lines) + "\t}" + "\n") == base + Unlines(lines) + "\t}" + "\n";
  }

  lemma FmtOne(a: string)
    ensures Fmt([a]) == a
  {
    assert [a][1..] == [];
  }

  // ---------------------------------------------------------------------------------------------
  // What is rendered
  // ---------------------------------------------------------------------------------------------

  datatype Header = Header(operation: string, name: string, value: string, order: int)

  datatype Rule = Rule(ruleType: string, ipRange: string, order: int)

  datatype Auth = Auth(username: string, hash: string)

  datatype ExtraDomain = ExtraDomain(name: string, order: int)

  /** `config` is the provider's JSON object; None when it does not parse. */
  datatype DnsProvider = DnsProvider(provider: string, config: Option<map<string, string>>)

  /** Flags that may be null in the database are options. */
  datatype Host = Host(
    domain: string, domains: seq<ExtraDomain>, hostType: string,
    enabled: Option<bool>, tlsEnabled: Option<bool>, websocket: Option<bool>,
    redirectURL: string, redirectCode: int,
    certPath: string, keyPath: string, tlsMode: string, dnsProvider: Option<nat>,
    compression: Option<bool>, corsEnabled: Option<bool>, corsOrigins: string, corsMethods: string, corsHeaders: string,
    securityHeaders: Option<bool>, errorPagePath: string,
    customDirectives: string, fullCaddyBlock: string,
    rootPath: string, directoryBrowse: Option<bool>, phpFastCGI: string, indexFiles: string,
    upstreams: seq<Routes.Upstream>, routes: seq<Routes.Route>,
    customHeaders: seq<Header>, accessRules: seq<Rule>, basicAuths: seq<Auth>)

  /** What ValidateUpstream and ValidateIPRange reject first. */
  predicate SafeToken(v: string) {
    v != "" && !HasAny(v, " \t\n\r{}\"'`;#$\\")
  }

  /** Every embedded field passes its validator. The user's own block was accepted for some list of domains:
      a later claim may take names away from the host without looking at the block. */
  ghost predicate Validated(h: Host) {
    && ValidDomain(h.domain)
    && (forall d | d in h.domains && TrimSpace(d.name) != "" :: ValidDomain(TrimSpace(d.name)))
    && CaddyValue(h.redirectURL) && CaddyValue(h.certPath) && CaddyValue(h.keyPath)
    && CaddyValue(h.corsOrigins) && CaddyValue(h.corsMethods) && CaddyValue(h.corsHeaders)
    && CaddyValue(h.errorPagePath) && CaddyValue(h.rootPath) && CaddyValue(h.phpFastCGI) && CaddyValue(h.indexFiles)
    && (forall u | u in h.upstreams :: SafeToken(u.address))
    && (forall r | r in h.routes :: CaddyValue(r.path))
    && (forall x | x in h.customHeaders :: CaddyValue(x.name) && CaddyValue(x.value))
    && (forall r | r in h.accessRules :: SafeToken(r.ipRange))
    && (forall a | a in h.basicAuths :: CaddyValue(a.username) && CaddyValue(a.hash))
    && DirectivesVerdict(h.customDirectives, Accepted)
    && exists domains :: Acceptable(domains, h.fullCaddyBlock)
  }

  lemma SafeTokenPlain(v: string)
    requires SafeToken(v)
    ensures Plain(v)
  {
    forall c | c in v ensures c !in " \t\n\r{}\"'`;#$\\" {
      var i :| 0 <= i < |v| && v[i] == c;
    }
    assert '\n' in " \t\n\r{}\"'`;#$\\" && '{' in " \t\n\r{}\"'`;#$\\" && '}' in " \t\n\r{}\"'`;#$\\";
  }

  /** The braces of a value that stands in a line of code match, read from left to right. */
  ghost predicate Matches(v: string) {
    Run(State(0, Code), v).depth == 0 && Stays(State(0, Code), v, 0)
  }

  lemma {:induction false} StaysToEnd(s: State, v: string)
    requires Stays(s, v, 0)
    ensures Run(s, v).depth >= 0
    decreases |v|
  {
    if v != "" { StaysToEnd(Step(s, v[0]), v[1..]); }
  }

  /** Whatever value ends a line of code, validated or not: the line is whole exactly if the value matches. */
  lemma ValueLineIff(head: string, v: string)
    requires Run(BEGIN, head) == State(0, Code) && Stays(BEGIN, head, 0)
    ensures Neutral(head + v + "\n") <==> Matches(v)
  {
    Append(BEGIN, head + v, "\n", 0);
    Append(BEGIN, head, v, 0);
    OneStep(Run(State(0, Code), v), '\n', 0);
    if Stays(State(0, Code), v, 0) { StaysToEnd(State(0, Code), v); }
  }

  lemma Cons(s: State, c: char, text: string, m: int)
    ensures Run(s, [c] + text) == Run(Step(s, c), text)
    ensures Stays(s, [c] + text, m) <==> s.depth >= m && Stays(Step(s, c), text, m)
  {
    assert ([c] + text)[1..] == text;
  }

  /** An indented line of code, up to a point where its value comes. */
  lemma CodeHead(word: string)
    requires Plain(word) && word != "" && !IsSpace(word[0]) && word[0] != '#'
    ensures Run(BEGIN, "\t" + word) == State(0, Code) && Stays(BEGIN, "\t" + word, 0)
  {
    var rest := word[1..];
    PlainRun(State(0, Code), rest);
    hide Run, Stays;
    Cons(BEGIN, '\t', word, 0);
    Cons(BEGIN, word[0], rest, 0);
    assert [word[0]] + rest == word;
  }

  lemma RouteWord(id: nat)
    ensures var word := "reverse_proxy @path_" + Decimal(id) + " ";
            Plain(word) && word != "" && !IsSpace(word[0]) && word[0] != '#'
  {
    assert Plain("reverse_proxy @path_") && Plain(" ");
    DecimalPlain(id);
    PlainConcat("reverse_proxy @path_", Decimal(id));
    PlainConcat("reverse_proxy @path_" + Decimal(id), " ");
  }

  /** The proxy line of a route, for every upstream address. */
  lemma AddressLineIff(id: nat, address: string)
    ensures Neutral("\t" + ("reverse_proxy @path_" + Decimal(id) + " ") + address + "\n") <==> Matches(address)
  {
    hide *;
    RouteWord(id);
    CodeHead("reverse_proxy @path_" + Decimal(id) + " ");
    ValueLineIff("\t" + ("reverse_proxy @path_" + Decimal(id) + " "), address);
  }

  /**
   * The line that opens the proxy block of a host, for every list of addresses joined by blanks. It opens one
   * block exactly if the braces of the addresses match; behind a line break and a comment sign its own brace
   * is not seen, and the addresses have to open the block.
   */
  lemma AddressesOpenIff(joined: string)
    ensures Opens("\t" + "reverse_proxy " + joined + " {\n", 1) <==>
              var end := Run(State(0, Code), joined);
              Stays(State(0, Code), joined, 0) && end.depth == if end.mode == Comment then 1 else 0
  {
    hide Run, Stays, Plain;
    ProxyWordsPlain();
    CodeHead("reverse_proxy ");
    var end := Run(State(0, Code), joined);
    OpenEnd(end);
    Append(BEGIN, "\t" + "reverse_proxy " + joined, " {\n", 0);
    Append(BEGIN, "\t" + "reverse_proxy ", joined, 0);
    if Stays(State(0, Code), joined, 0) { StaysToEnd(State(0, Code), joined); }
  }

  lemma OpenEnd(s: State)
    ensures Run(s, " {\n") == State(s.depth + if s.mode == Comment then 0 else 1, Start)
    ensures s.depth >= 0 ==> Stays(s, " {\n", 0)
  {
    hide Run, Stays;
    OneStep(Step(Step(s, ' '), '{'), '\n', 0);
    Cons(s, ' ', "{\n", 0);
    Cons(Step(s, ' '), '{', "\n", 0);
    assert [' '] + "{\n" == " {\n" && ['{'] + "\n" == "{\n";
  }

  /** Create accepts this address unchecked, and its line closes a block that it did not open. */
  lemma UnmatchedAddress(id: nat)
    ensures !SafeToken("a:80}") && !Neutral("\t" + ("reverse_proxy @path_" + Decimal(id) + " ") + "a:80}" + "\n")
  {
    AddressLineIff(id, "a:80}");
    hide Neutral;
    assert "a:80}"[4] == '}' && '}' in " \t\n\r{}\"'`;#$\\";
    PlainRun(State(0, Code), "a:80");
    Append(State(0, Code), "a:80", "}", 0);
    assert "a:80}" == "a:80" + "}";
    assert "}"[1..] == "";
  }

  predicate SafeDnsValue(v: string) {
    !HasAny(v, "\n\r{}\"\\;#")
  }

  lemma SafeDnsPlain(v: string)
    requires SafeDnsValue(v)
    ensures Plain(v)
  {
    forall c | c in v ensures c !in "\n\r{}\"\\;#" {
      var i :| 0 <= i < |v| && v[i] == c;
    }
    assert '\n' in "\n\r{}\"\\;#" && '{' in "\n\r{}\"\\;#" && '}' in "\n\r{}\"\\;#";
  }

  predicate On(flag: Option<bool>) { flag.Some? && flag.value }

  predicate Off(flag: Option<bool>) { flag.Some? && !flag.value }

  function Decimal(n: nat): string {
    (if n < 10 then "" else Decimal(n / 10)) + [('0' as int + n % 10) as char]
  }

  lemma {:induction false} DecimalPlain(n: nat)
    ensures Plain(Decimal(n))
  {
    if n >= 10 { DecimalPlain(n / 10); }
    PlainConcat(if n < 10 then "" else Decimal(n / 10), [('0' as int + n % 10) as char]);
  }

  // ---------------------------------------------------------------------------------------------
  // The pieces of a host block; each is whole lines that close what they open
  // ---------------------------------------------------------------------------------------------

  function Permanence(code: int): string { if code == 302 then "temporary" else "permanent" }

  function RedirectDirs(h: Host): seq<D.Directive> {
    [D.Simple("redir " + h.redirectURL + "{uri}" + (" " + Permanence(h.redirectCode)))]
  }

  method RenderRedirect(b: Builder, h: Host)
    requires b.Says() && CaddyValue(h.redirectURL)
    modifies b
    ensures b.Says() && b.base == old(b.base) && b.said == old(b.said) + RedirectDirs(h)
  {
    CaddyValuePlain(h.redirectURL);
    var scheme := "permanent";
    if h.redirectCode == 302 {
      scheme := "temporary";
    }
    assert Plain("redir ") && Plain(" ") && Plain("uri") && Plain(scheme);
    PlainConcat("redir ", h.redirectURL);
    PlainConcat(" ", scheme);
    RedirText("redir " + h.redirectURL, " " + scheme);
    hide Builder.Says, CaddyValue, Plain;
    b.SayHolder("redir " + h.redirectURL, "uri", " " + scheme);
  }

  lemma RedirText(a: string, b: string)
    ensures a + "{" + "uri" + "}" + b == a + "{uri}" + b
  {
    assert a + "{" + "uri" + "}" == a + "{uri}";
  }

  const ENCODE: seq<D.Directive> := [D.Simple("encode gzip zstd")]

  method RenderCompression(b: Builder)
    requires b.Says()
    modifies b
    ensures b.Says() && b.base == old(b.base) && b.said == old(b.said) + ENCODE
  {
    assert Plain("encode gzip zstd");
    hide Builder.Says, Plain;
    b.Say("encode gzip zstd");
  }

  function RuleOrder(r: Rule): int { r.order }

  function RuleDirs(r: Rule): seq<D.Directive> {
    if r.ruleType == "allow" then [D.Simple("@blocked not remote_ip " + r.ipRange), D.Simple("abort @blocked")]
    else if r.ruleType == "deny" then [D.Simple("@denied remote_ip " + r.ipRange), D.Simple("abort @denied")]
    else []
  }

  function AccessDirs(rules: seq<Rule>): seq<D.Directive> {
    if rules == [] then [] else AccessDirs(rules[..|rules| - 1]) + RuleDirs(rules[|rules| - 1])
  }

  lemma RuleWordsPlain()
    ensures Plain("@blocked not remote_ip ") && Plain("abort @blocked")
    ensures Plain("@denied remote_ip ") && Plain("abort @denied")
  {
  }

  method RenderAccessRules(b: Builder, rules: seq<Rule>) returns (ghost sorted: seq<Rule>)
    requires b.Says() && forall r | r in rules :: SafeToken(r.ipRange)
    modifies b
    ensures b.Says() && b.base == old(b.base) && b.said == old(b.said) + AccessDirs(sorted)
    ensures Ascends(sorted, RuleOrder) && multiset(sorted) == multiset(rules)
  {
    var byOrder := SortBy(rules, RuleOrder);
    sorted := byOrder;
    SameMembers(byOrder, rules);
    hide Builder.Says, SafeToken, AccessDirs;
    RenderEachRule(b, byOrder);
  }

  method RenderEachRule(b: Builder, rules: seq<Rule>)
    requires b.Says() && forall r | r in rules :: SafeToken(r.ipRange)
    modifies b
    ensures b.Says() && b.base == old(b.base) && b.said == old(b.said) + AccessDirs(rules)
  {
    hide Builder.Says, SafeToken, Plain, RuleDirs;
    for i := 0 to |rules|
      invariant b.Says() && b.base == old(b.base) && b.said == old(b.said) + AccessDirs(rules[..i])
    {
      assert rules[i] in rules && rules[..i + 1][..i] == rules[..i];
      SafeTokenPlain(rules[i].ipRange);
      RenderRule(b, rules[i]);
    }
    assert rules[..|rules|] == rules;
  }

  method RenderRule(b: Builder, rule: Rule)
    requires b.Says() && Plain(rule.ipRange)
    modifies b
    ensures b.Says() && b.base == old(b.base) && b.said == old(b.said) + RuleDirs(rule)
  {
    RuleWordsPlain();
    PlainConcat("@blocked not remote_ip ", rule.ipRange);
    PlainConcat("@denied remote_ip ", rule.ipRange);
    hide Builder.Says, Plain;
    if rule.ruleType == "allow" {
      b.Say("@blocked not remote_ip " + rule.ipRange);
      b.Say("abort @blocked");
    } else if rule.ruleType == "deny" {
      b.Say("@denied remote_ip " + rule.ipRange);
      b.Say("abort @denied");
    }
  }

  function AuthLine(a: Auth): string { a.username + (" " + a.hash) }

  function AuthLines(auths: seq<Auth>): seq<string> {
    seq(|auths|, i requires 0 <= i < |auths| => AuthLine(auths[i]))
  }

  function AuthDirs(auths: seq<Auth>): seq<D.Directive> { [D.Block("basicauth ", AuthLines(auths))] }

  method RenderBasicAuth(b: Builder, auths: seq<Auth>)
    requires b.Says() && forall a | a in auths :: CaddyValue(a.username) && CaddyValue(a.hash)
    modifies b
    ensures b.Says() && b.base == old(b.base) && b.said == old(b.said) + AuthDirs(auths)
  {
    assert Plain("basicauth ") && Plain(" ") && CodeStart("basicauth ");
    hide Builder.Says, Builder.Saying, CaddyValue, Plain, CodeStart, Tabs;
    ghost var said := b.said;
    b.OpenUp("basicauth ");
    for i := 0 to |auths|
      invariant b.Saying(1) && b.base == old(b.base) && b.said == said && b.head == "basicauth "
      invariant b.body == AuthLines(auths[..i])
    {
      assert auths[i] in auths;
      CaddyValuePlain(auths[i].username);
      CaddyValuePlain(auths[i].hash);
      PlainConcat(" ", auths[i].hash);
      PlainConcat(auths[i].username, " " + auths[i].hash);
      NoTabs(AuthLine(auths[i]));
      b.Within(0, auths[i].username + (" " + auths[i].hash), 1);
      assert AuthLines(auths[..i + 1]) == AuthLines(auths[..i]) + [AuthLine(auths[i])];
    }
    assert auths[..|auths|] == auths;
    b.CloseUp();
  }

  /** A response header with a quoted value, inside a header block. */
  function HeaderLine(name: string, value: string): string { name + (" \"" + (value + "\"")) }

  lemma HeaderPlain(name: string, value: string)
    requires Plain(name) && Plain(value)
    ensures Plain(HeaderLine(name, value))
  {
    assert Plain(" \"") && Plain("\"");
    PlainConcat(value, "\"");
    PlainConcat(" \"", value + "\"");
    PlainConcat(name, " \"" + (value + "\""));
  }

  method WriteHeader(b: Builder, name: string, value: string)
    requires b.Saying(1) && Plain(name) && Plain(value)
    modifies b`text, b`body
    ensures b.Saying(1) && b.body == old(b.body) + [HeaderLine(name, value)]
  {
    HeaderPlain(name, value);
    NoTabs(HeaderLine(name, value));
    hide Builder.Saying, Plain, Tabs;
    b.Within(0, name + (" \"" + (value + "\"")), 1);
  }

  lemma CorsPlain()
    ensures Plain("Access-Control-Allow-Origin") && Plain("Access-Control-Allow-Methods")
    ensures Plain("Access-Control-Allow-Headers") && Plain("Access-Control-Max-Age") && Plain("86400")
  {
  }

  lemma CorsLinesPlain()
    ensures Plain("@cors_preflight method OPTIONS") && Plain("header @cors_preflight ")
    ensures Plain("respond @cors_preflight 204") && Plain("header ")
    ensures CodeStart("header @cors_preflight ") && CodeStart("header ")
  {
  }

  lemma CorsDefaultsPlain()
    ensures Plain("*") && Plain("GET, POST, PUT, DELETE, OPTIONS") && Plain("Content-Type, Authorization")
  {
  }

  function Origins(h: Host): string { if h.corsOrigins == "" then "*" else h.corsOrigins }

  function Methods(h: Host): string {
    if h.corsMethods == "" then "GET, POST, PUT, DELETE, OPTIONS" else h.corsMethods
  }

  function AllowedHeaders(h: Host): string {
    if h.corsHeaders == "" then "Content-Type, Authorization" else h.corsHeaders
  }

  function Preflight(origins: string, methods: string, headers: string): seq<string> {
    [HeaderLine("Access-Control-Allow-Origin", origins), HeaderLine("Access-Control-Allow-Methods", methods),
     HeaderLine("Access-Control-Allow-Headers", headers), HeaderLine("Access-Control-Max-Age", "86400")]
  }

  function ReplyDirs(origins: string): seq<D.Directive> {
    [D.Simple("respond @cors_preflight 204"), D.Simple("header " + HeaderLine("Access-Control-Allow-Origin", origins))]
  }

  function CorsDirs(h: Host): seq<D.Directive> {
    [D.Simple("@cors_preflight method OPTIONS"),
     D.Block("header @cors_preflight ", Preflight(Origins(h), Methods(h), AllowedHeaders(h)))] + ReplyDirs(Origins(h))
  }

  method RenderCors(b: Builder, h: Host)
    requires b.Says() && CaddyValue(h.corsOrigins) && CaddyValue(h.corsMethods) && CaddyValue(h.corsHeaders)
    modifies b
    ensures b.Says() && b.base == old(b.base) && b.said == old(b.said) + CorsDirs(h)
  {
    CorsLinesPlain();
    CorsPlain();
    CorsDefaultsPlain();
    CaddyValuePlain(h.corsOrigins);
    CaddyValuePlain(h.corsMethods);
    CaddyValuePlain(h.corsHeaders);
    var origins := if h.corsOrigins == "" then "*" else h.corsOrigins;
    var methods := if h.corsMethods == "" then "GET, POST, PUT, DELETE, OPTIONS" else h.corsMethods;
    var headers := if h.corsHeaders == "" then "Content-Type, Authorization" else h.corsHeaders;
    ghost var said := b.said;
    CorsPieces(said, h);
    hide *;
    b.Say("@cors_preflight method OPTIONS");
    b.OpenUp("header @cors_preflight ");
    RenderPreflight(b, origins, methods, headers);
    b.CloseUp();
    RenderCorsResponse(b, origins);
  }

  lemma CorsPieces(said: seq<D.Directive>, h: Host)
    ensures said + [D.Simple("@cors_preflight method OPTIONS")] +
            [D.Block("header @cors_preflight ", Preflight(Origins(h), Methods(h), AllowedHeaders(h)))] +
            ReplyDirs(Origins(h)) == said + CorsDirs(h)
  {
  }

  method RenderPreflight(b: Builder, origins: string, methods: string, headers: string)
    requires b.Saying(1) && b.body == [] && Plain(origins) && Plain(methods) && Plain(headers)
    modifies b`text, b`body
    ensures b.Saying(1) && b.body == Preflight(origins, methods, headers)
  {
    CorsPlain();
    hide Builder.Saying, Plain, HeaderLine;
    WriteHeader(b, "Access-Control-Allow-Origin", origins);
    WriteHeader(b, "Access-Control-Allow-Methods", methods);
    WriteHeader(b, "Access-Control-Allow-Headers", headers);
    WriteHeader(b, "Access-Control-Max-Age", "86400");
  }

  method RenderCorsResponse(b: Builder, origins: string)
    requires b.Says() && Plain(origins)
    modifies b`text, b`said
    ensures b.Says() && b.said == old(b.said) + ReplyDirs(origins)
  {
    CorsPlain();
    CorsLinesPlain();
    HeaderPlain("Access-Control-Allow-Origin", origins);
    PlainConcat("header ", HeaderLine("Access-Control-Allow-Origin", origins));
    hide Builder.Says, Plain, HeaderLine;
    b.Say("respond @cors_preflight 204");
    b.Say("header " + HeaderLine("Access-Control-Allow-Origin", origins));
  }

  const HSTS := "max-age=31536000; " + "includeSubDomains; preload"

  const PERMISSIONS := "camera=(), microphone=(), " + "geolocation=()"

  lemma SecurityNamesPlain()
    ensures Plain("Strict-Transport-Security") && Plain("X-Content-Type-Options") && Plain("X-Frame-Options")
    ensures Plain("Referrer-Policy") && Plain("X-XSS-Protection") && Plain("Permissions-Policy")
  {
  }

  lemma SecurityValuesPlain()
    ensures Plain(HSTS) && Plain(PERMISSIONS)
  {
    PlainConcat("max-age=31536000; ", "includeSubDomains; preload");
    PlainConcat("camera=(), microphone=(), ", "geolocation=()");
  }

  lemma SecurityWordsPlain()
    ensures Plain("nosniff") && Plain("DENY") && Plain("strict-origin-when-cross-origin") && Plain("1; mode=block")
  {
  }

  function SecurityLines(): seq<string> {
    [HeaderLine("Strict-Transport-Security", HSTS), HeaderLine("X-Content-Type-Options", "nosniff"),
     HeaderLine("X-Frame-Options", "DENY"), HeaderLine("Referrer-Policy", "strict-origin-when-cross-origin"),
     HeaderLine("X-XSS-Protection", "1; mode=block"), HeaderLine("Permissions-Policy", PERMISSIONS)]
  }

  function SecurityDirs(): seq<D.Directive> { [D.Block("header ", SecurityLines())] }

  method RenderSecurityHeaders(b: Builder)
    requires b.Says()
    modifies b
    ensures b.Says() && b.base == old(b.base) && b.said == old(b.said) + SecurityDirs()
  {
    SecurityNamesPlain();
    SecurityValuesPlain();
    SecurityWordsPlain();
    CorsLinesPlain();
    hide Builder.Says, Builder.Saying, Plain, HeaderLine, HSTS, PERMISSIONS, CodeStart;
    b.OpenUp("header ");
    WriteHeader(b, "Strict-Transport-Security", HSTS);
    WriteHeader(b, "X-Content-Type-Options", "nosniff");
    WriteHeader(b, "X-Frame-Options", "DENY");
    WriteHeader(b, "Referrer-Policy", "strict-origin-when-cross-origin");
    WriteHeader(b, "X-XSS-Protection", "1; mode=block");
    WriteHeader(b, "Permissions-Policy", PERMISSIONS);
    assert b.body == SecurityLines();
    b.CloseUp();
  }

  lemma ErrorWordsPlain()
    ensures Plain("@") && Plain(" expression ") && Plain("err.status_code") && Plain(" == ") && Plain("handle @")
    ensures Plain(" ") && Plain("root * ") && Plain("rewrite * /") && Plain(".html") && Plain("file_server")
    ensures Plain("handle_errors ") && CodeStart("handle_errors ") && CodeStart("handle @")
  {
  }

  /** The page of one status: its own file below the root of the error pages. */
  function ErrorLines(code: string, path: string): seq<string> {
    ["@" + (code + " expression ") + "{err.status_code}" + (" == " + code), "handle @" + (code + " ") + "{",
     "\t" + ("root * " + path), "\t" + ("rewrite * /" + (code + ".html")), "\tfile_server", "}"]
  }

  function ErrorDirs(path: string): seq<D.Directive> {
    [D.Block("handle_errors ", ErrorLines(Decimal(404), path) + ErrorLines(Decimal(502), path) +
                               ErrorLines(Decimal(503), path))]
  }

  method RenderErrorPages(b: Builder, path: string)
    requires b.Says() && CaddyValue(path)
    modifies b
    ensures b.Says() && b.base == old(b.base) && b.said == old(b.said) + ErrorDirs(path)
  {
    CaddyValuePlain(path);
    ErrorWordsPlain();
    hide Builder.Says, Builder.Saying, CaddyValue, Plain, CodeStart, Decimal, ErrorLines;
    b.OpenUp("handle_errors ");
    var codes := [404, 502, 503];
    ghost var lines: seq<string> := [];
    for i := 0 to 3
      invariant b.Saying(1) && b.base == old(b.base) && b.said == old(b.said) && b.head == "handle_errors "
      invariant b.body == lines
      invariant lines == if i == 0 then [] else if i == 1 then ErrorLines(Decimal(404), path)
                         else if i == 2 then ErrorLines(Decimal(404), path) + ErrorLines(Decimal(502), path)
                         else ErrorLines(Decimal(404), path) + ErrorLines(Decimal(502), path) +
                              ErrorLines(Decimal(503), path)
    {
      RenderErrorPage(b, Decimal(codes[i]), path);
      lines := lines + ErrorLines(Decimal(codes[i]), path);
    }
    b.CloseUp();
  }

  method RenderErrorPage(b: Builder, code: string, path: string)
    requires b.Saying(1) && Plain(path) && exists n :: code == Decimal(n)
    modifies b`text, b`body
    ensures b.Saying(1) && b.body == old(b.body) + ErrorLines(code, path)
  {
    ghost var n :| code == Decimal(n);
    DecimalPlain(n);
    ErrorWordsPlain();
    PlainConcat(code, " expression ");
    PlainConcat("@", code + " expression ");
    PlainConcat(" == ", code);
    PlainConcat(code, " ");
    PlainConcat("handle @", code + " ");
    CodeStartConcat("handle @", code + " ");
    PlainConcat("root * ", path);
    PlainConcat(code, ".html");
    PlainConcat("rewrite * /", code + ".html");
    ErrorText(code);
    ErrorSaid(b.body, code, path);
    hide *;
    b.WithinHolder("@" + (code + " expression "), "err.status_code", " == " + code, 1);
    b.WithinOpen("handle @" + (code + " "), 1);
    b.Within(1, "root * " + path, 2);
    b.Within(1, "rewrite * /" + (code + ".html"), 2);
    b.Within(1, "file_server", 2);
    b.WithinClose(2);
  }

  lemma ErrorSaid(body: seq<string>, code: string, path: string)
    ensures body + ["@" + (code + " expression ") + "{err.status_code}" + (" == " + code)] +
            ["handle @" + (code + " ") + "{"] + ["\t" + ("root * " + path)] +
            ["\t" + ("rewrite * /" + (code + ".html"))] + ["\tfile_server"] + ["}"] == body + ErrorLines(code, path)
  {
  }

  lemma ErrorText(code: string)
    ensures "@" + (code + " expression ") + "{" + "err.status_code" + "}" + (" == " + code) ==
            "@" + (code + " expression ") + "{err.status_code}" + (" == " + code)
    ensures Tabs(1) == "\t" && Tabs(1) + "file_server" == "\tfile_server"
  {
    var a := "@" + (code + " expression ");
    assert a + "{" + "err.status_code" + "}" == a + "{err.status_code}";
  }

  function StaticDirs(h: Host): seq<D.Directive> {
    [D.Simple("root * " + h.rootPath)] +
    (if h.indexFiles == "" then [] else [D.Simple("try_files " + "{path}" + (" " + h.indexFiles))]) +
    [D.Simple(if On(h.directoryBrowse) then "file_server browse" else "file_server")]
  }

  lemma SiteWordsPlain()
    ensures Plain("root * ") && Plain("try_files ") && Plain("path") && Plain(" ") && Plain("file_server browse")
    ensures Plain("file_server") && Plain("php_fastcgi ") && Plain("localhost:9000")
  {
  }

  method RenderStaticHost(b: Builder, h: Host)
    requires b.Says() && CaddyValue(h.rootPath) && CaddyValue(h.indexFiles)
    modifies b
    ensures b.Says() && b.base == old(b.base) && b.said == old(b.said) + StaticDirs(h)
  {
    SiteWordsPlain();
    CaddyValuePlain(h.rootPath);
    CaddyValuePlain(h.indexFiles);
    PlainConcat("root * ", h.rootPath);
    PlainConcat(" ", h.indexFiles);
    TryFiles(" " + h.indexFiles);
    hide Builder.Says, CaddyValue, Plain;
    b.Say("root * " + h.rootPath);
    if h.indexFiles != "" {
      b.SayHolder("try_files ", "path", " " + h.indexFiles);
    }
    if On(h.directoryBrowse) {
      b.Say("file_server browse");
    } else {
      b.Say("file_server");
    }
  }

  lemma TryFiles(files: string)
    ensures "try_files " + "{" + "path" + "}" + files == "try_files " + "{path}" + files
  {
  }

  function PHPDirs(h: Host): seq<D.Directive> {
    [D.Simple("root * " + h.rootPath),
     D.Simple("php_fastcgi " + if h.phpFastCGI == "" then "localhost:9000" else h.phpFastCGI),
     D.Simple("file_server")]
  }

  lemma PHPSaid(said: seq<D.Directive>, h: Host)
    ensures said + [D.Simple("root * " + h.rootPath)] +
            [D.Simple("php_fastcgi " + if h.phpFastCGI == "" then "localhost:9000" else h.phpFastCGI)] +
            [D.Simple("file_server")] == said + PHPDirs(h)
  {
  }

  method RenderPHPHost(b: Builder, h: Host)
    requires b.Says() && CaddyValue(h.rootPath) && CaddyValue(h.phpFastCGI)
    modifies b
    ensures b.Says() && b.base == old(b.base) && b.said == old(b.said) + PHPDirs(h)
  {
    SiteWordsPlain();
    CaddyValuePlain(h.rootPath);
    CaddyValuePlain(h.phpFastCGI);
    var fastcgi := if h.phpFastCGI == "" then "localhost:9000" else h.phpFastCGI;
    PlainConcat("root * ", h.rootPath);
    PlainConcat("php_fastcgi ", fastcgi);
    PHPSaid(b.said, h);
    hide *;
    b.Say("root * " + h.rootPath);
    b.Say("php_fastcgi " + fastcgi);
    b.Say("file_server");
  }

  function UpstreamOrder(u: Routes.Upstream): int { u.order }

  predicate Public(u: Routes.Upstream) {
    HasPrefix(u.address, "http://") || HasPrefix(u.address, "https://")
  }

  function Addresses(upstreams: seq<Routes.Upstream>): seq<string> {
    seq(|upstreams|, i requires 0 <= i < |upstreams| => upstreams[i].address)
  }

  method JoinAddresses(upstreams: seq<Routes.Upstream>) returns (joined: string, isPublicURL: bool)
    requires forall u | u in upstreams :: SafeToken(u.address)
    ensures joined == Join(Addresses(upstreams), ' ') && Plain(joined)
    ensures isPublicURL <==> exists u :: u in upstreams && Public(u)
  {
    hide SafeToken, Public;
    var addrs: seq<string> := [];
    isPublicURL := false;
    for i := 0 to |upstreams|
      invariant addrs == Addresses(upstreams[..i]) && forall x | x in addrs :: Plain(x)
      invariant isPublicURL <==> exists j :: 0 <= j < i && Public(upstreams[j])
    {
      assert upstreams[i] in upstreams;
      SafeTokenPlain(upstreams[i].address);
      addrs := addrs + [upstreams[i].address];
      if Public(upstreams[i]) {
        isPublicURL := true;
      }
    }
    assert upstreams[..|upstreams|] == upstreams;
    JoinPlain(addrs, ' ');
    joined := Join(addrs, ' ');
  }

  lemma ProxyWordsPlain()
    ensures Plain("reverse_proxy ") && Plain(" ") && Plain("lb_policy round_robin") && Plain("header_up Host ")
    ensures Plain("upstream_hostport") && Plain("header_up X-Real-IP ") && Plain("remote_host")
  {
  }

  ghost function ProxyDirs(upstreams: seq<Routes.Upstream>): seq<D.Directive> {
    [D.Block("reverse_proxy " + (Join(Addresses(upstreams), ' ') + " "),
             (if |upstreams| > 1 then ["lb_policy round_robin"] else []) +
             (if exists u :: u in upstreams && Public(u) then ["header_up Host {upstream_hostport}"] else []) +
             ["header_up X-Real-IP {remote_host}"])]
  }

  lemma ProxyText()
    ensures "header_up Host " + "{" + "upstream_hostport" + "}" + "" == "header_up Host {upstream_hostport}"
    ensures "header_up X-Real-IP " + "{" + "remote_host" + "}" + "" == "header_up X-Real-IP {remote_host}"
    ensures Tabs(0) + "lb_policy round_robin" == "lb_policy round_robin" && Plain("")
    ensures CodeStart("reverse_proxy ")
  {
  }

  method RenderReverseProxy(b: Builder, upstreams: seq<Routes.Upstream>, websocket: bool)
    requires b.Says() && forall u | u in upstreams :: SafeToken(u.address)
    modifies b
    ensures b.Says() && b.base == old(b.base) && b.said == old(b.said) + ProxyDirs(upstreams)
  {
    ProxyWordsPlain();
    ProxyText();
    var addresses, isPublicURL := JoinAddresses(upstreams);
    PlainConcat(addresses, " ");
    PlainConcat("reverse_proxy ", addresses + " ");
    CodeStartConcat("reverse_proxy ", addresses + " ");
    ghost var lines := (if |upstreams| > 1 then ["lb_policy round_robin"] else []) +
                       (if isPublicURL then ["header_up Host {upstream_hostport}"] else []) +
                       ["header_up X-Real-IP {remote_host}"];
    assert ProxyDirs(upstreams) == [D.Block("reverse_proxy " + (addresses + " "), lines)];
    hide *;
    b.OpenUp("reverse_proxy " + (addresses + " "));
    if |upstreams| > 1 {
      b.Within(0, "lb_policy round_robin", 1);
    }
    if isPublicURL {
      b.WithinHolder("header_up Host ", "upstream_hostport", "", 1);
    }
    b.WithinHolder("header_up X-Real-IP ", "remote_host", "", 1);
    assert b.body == lines;
    b.CloseUp();
  }

  /** The line for a matcher or a proxy directive. */
  function LineFor(d: Routes.Directive): D.Directive {
    match d
    case Matcher(id, path) => D.Simple("@path_" + (Decimal(id) + (" path " + path)))
    case Proxy(id, address) => D.Simple("reverse_proxy @path_" + (Decimal(id) + (" " + address)))
  }

  function LinesFor(ds: seq<Routes.Directive>): (lines: seq<D.Directive>)
    ensures |lines| == |ds|
  {
    seq(|ds|, i requires 0 <= i < |ds| => LineFor(ds[i]))
  }

  method RenderRoutes(b: Builder, h: Host) returns (ghost sorted: seq<Routes.Route>)
    requires b.Says() && (forall r | r in h.routes :: CaddyValue(r.path))
    requires forall u | u in h.upstreams :: SafeToken(u.address)
    modifies b
    ensures b.Says() && b.base == old(b.base)
    ensures b.said == old(b.said) + LinesFor(Routes.Lines(h.upstreams, sorted))
    ensures Ascends(sorted, Routes.OrderOf) && multiset(sorted) == multiset(h.routes)
  {
    var routes := SortBy(h.routes, Routes.OrderOf);
    sorted := routes;
    SameMembers(routes, h.routes);
    var upstreams := Routes.MapUpstreams(h.upstreams);
    hide Builder.Says, CaddyValue, SafeToken, LinesFor, Routes.Lines, Routes.Last;
    RenderEachRoute(b, h.upstreams, routes, upstreams);
  }

  method RenderEachRoute(b: Builder, ghost ups: seq<Routes.Upstream>, routes: seq<Routes.Route>,
      upstreams: map<nat, Routes.Upstream>)
    requires b.Says() && (forall r | r in routes :: CaddyValue(r.path)) && forall u | u in ups :: SafeToken(u.address)
    requires forall id :: id in upstreams <==> Routes.Last(ups, id).Some?
    requires forall id | id in upstreams :: upstreams[id] == ups[Routes.Last(ups, id).value]
    modifies b
    ensures b.Says() && b.base == old(b.base) && b.said == old(b.said) + LinesFor(Routes.Lines(ups, routes))
  {
    ghost var said, base := b.said, b.base;
    SpokenNone(said, ups, routes);
    SpokenAll(said, ups, routes);
    hide *;
    for i := 0 to |routes|
      invariant b.Says() && b.base == base && b.said == Spoken(said, ups, routes, i)
    {
      var route := routes[i];
      assert route in routes;
      CaddyValuePlain(route.path);
      var address := FindAddress(ups, route, upstreams);
      RenderRoute(b, ups, route, address);
      SpokenNext(said, ups, routes, i);
    }
  }

  function Spoken(said: seq<D.Directive>, ups: seq<Routes.Upstream>, routes: seq<Routes.Route>, i: nat)
    : seq<D.Directive>
    requires i <= |routes|
  {
    said + LinesFor(Routes.Lines(ups, routes[..i]))
  }

  lemma SpokenNone(said: seq<D.Directive>, ups: seq<Routes.Upstream>, routes: seq<Routes.Route>)
    ensures Spoken(said, ups, routes, 0) == said
  {
    assert routes[..0] == [] && LinesFor([]) == [];
  }

  lemma SpokenAll(said: seq<D.Directive>, ups: seq<Routes.Upstream>, routes: seq<Routes.Route>)
    ensures Spoken(said, ups, routes, |routes|) == said + LinesFor(Routes.Lines(ups, routes))
  {
    assert routes[..|routes|] == routes;
  }

  lemma SpokenNext(said: seq<D.Directive>, ups: seq<Routes.Upstream>, routes: seq<Routes.Route>, i: nat)
    requires i < |routes|
    ensures Spoken(said, ups, routes, i + 1) ==
            Spoken(said, ups, routes, i) + LinesFor(Routes.RouteLines(ups, routes[i]))
  {
    LinesNext(ups, routes, i);
    hide LinesFor, Routes.Lines, Routes.RouteLines;
  }

  method FindAddress(ghost ups: seq<Routes.Upstream>, route: Routes.Route, upstreams: map<nat, Routes.Upstream>)
    returns (address: Option<string>)
    requires forall u | u in ups :: SafeToken(u.address)
    requires forall id :: id in upstreams <==> Routes.Last(ups, id).Some?
    requires forall id | id in upstreams :: upstreams[id] == ups[Routes.Last(ups, id).value]
    ensures address == Routes.Resolve(ups, route.upstream) && (address.Some? ==> Plain(address.value))
  {
    hide SafeToken, Plain;
    address := None;
    if route.upstream.Some? && route.upstream.value in upstreams {
      var upstream := upstreams[route.upstream.value];
      assert upstream in ups;
      SafeTokenPlain(upstream.address);
      address := Some(upstream.address);
    }
  }

  lemma LinesNext(ups: seq<Routes.Upstream>, routes: seq<Routes.Route>, i: nat)
    requires i < |routes|
    ensures LinesFor(Routes.Lines(ups, routes[..i + 1])) ==
            LinesFor(Routes.Lines(ups, routes[..i])) + LinesFor(Routes.RouteLines(ups, routes[i]))
  {
    assert routes[..i + 1][..i] == routes[..i];
    LinesConcat(Routes.Lines(ups, routes[..i]), Routes.RouteLines(ups, routes[i]));
  }

  lemma LinesConcat(a: seq<Routes.Directive>, b: seq<Routes.Directive>)
    ensures LinesFor(a + b) == LinesFor(a) + LinesFor(b)
  {
  }

  lemma RouteWordsPlain()
    ensures Plain("@path_") && Plain(" path ") && Plain("reverse_proxy @path_") && Plain(" ")
  {
  }

  method RenderRoute(b: Builder, ghost ups: seq<Routes.Upstream>, route: Routes.Route, address: Option<string>)
    requires b.Says() && Plain(route.path) && (address.Some? ==> Plain(address.value))
    requires address == Routes.Resolve(ups, route.upstream)
    modifies b
    ensures b.Says() && b.base == old(b.base) && b.said == old(b.said) + LinesFor(Routes.RouteLines(ups, route))
  {
    RouteWordsPlain();
    DecimalPlain(route.id);
    var name := Decimal(route.id);
    PlainConcat(" path ", route.path);
    PlainConcat(name, " path " + route.path);
    PlainConcat("@path_", name + (" path " + route.path));
    if address.Some? {
      PlainConcat(" ", address.value);
      PlainConcat(name, " " + address.value);
      PlainConcat("reverse_proxy @path_", name + (" " + address.value));
    }
    RouteText(ups, route);
    hide Builder.Says, Plain, Decimal, LinesFor, Routes.RouteLines;
    b.Say("@path_" + (name + (" path " + route.path)));
    if address.Some? {
      b.Say("reverse_proxy @path_" + (name + (" " + address.value)));
    }
  }

  lemma RouteText(ups: seq<Routes.Upstream>, route: Routes.Route)
    ensures
      var name, address := Decimal(route.id), Routes.Resolve(ups, route.upstream);
      LinesFor(Routes.RouteLines(ups, route)) ==
        [D.Simple("@path_" + (name + (" path " + route.path)))] +
        if address.Some? then [D.Simple("reverse_proxy @path_" + (name + (" " + address.value)))] else []
  {
    hide Decimal, Routes.Resolve;
  }

  function HeaderOrder(x: Header): int { x.order }

  function CustomLine(x: Header): seq<string> {
    if x.operation == "set" then [HeaderLine(x.name, x.value)]
    else if x.operation == "add" then ["+" + HeaderLine(x.name, x.value)]
    else if x.operation == "delete" then ["-" + x.name]
    else []
  }

  function CustomLines(headers: seq<Header>): seq<string> {
    if headers == [] then [] else CustomLines(headers[..|headers| - 1]) + CustomLine(headers[|headers| - 1])
  }

  function HeaderDirs(headers: seq<Header>): seq<D.Directive> {
    if headers == [] then [] else [D.Block("header ", CustomLines(headers))]
  }

  method RenderResponseHeaders(b: Builder, headers: seq<Header>) returns (ghost sorted: seq<Header>)
    requires b.Says() && forall x | x in headers :: CaddyValue(x.name) && CaddyValue(x.value)
    modifies b
    ensures b.Says() && b.base == old(b.base) && b.said == old(b.said) + HeaderDirs(sorted)
    ensures Ascends(sorted, HeaderOrder) && multiset(sorted) == multiset(headers)
  {
    if |headers| == 0 {
      sorted := headers;
      return;
    }
    var byOrder := SortBy(headers, HeaderOrder);
    sorted := byOrder;
    SameMembers(byOrder, headers);
    CorsLinesPlain();
    hide Builder.Says, Builder.Saying, CaddyValue, Plain, CodeStart, CustomLine;
    b.OpenUp("header ");
    for i := 0 to |byOrder|
      invariant b.Saying(1) && b.base == old(b.base) && b.said == old(b.said) && b.head == "header "
      invariant b.body == CustomLines(byOrder[..i])
    {
      var x := byOrder[i];
      assert x in byOrder && byOrder[..i + 1][..i] == byOrder[..i];
      CaddyValuePlain(x.name);
      CaddyValuePlain(x.value);
      RenderHeader(b, x);
    }
    assert byOrder[..|byOrder|] == byOrder;
    b.CloseUp();
  }

  method RenderHeader(b: Builder, x: Header)
    requires b.Saying(1) && Plain(x.name) && Plain(x.value)
    modifies b`text, b`body
    ensures b.Saying(1) && b.body == old(b.body) + CustomLine(x)
  {
    assert Plain("+") && Plain("-");
    HeaderPlain(x.name, x.value);
    PlainConcat("+", HeaderLine(x.name, x.value));
    PlainConcat("-", x.name);
    NoTabs("+" + HeaderLine(x.name, x.value));
    NoTabs("-" + x.name);
    hide Builder.Saying, Plain, Tabs, HeaderLine;
    if x.operation == "set" {
      WriteHeader(b, x.name, x.value);
    } else if x.operation == "add" {
      b.Within(0, "+" + HeaderLine(x.name, x.value), 1);
    } else if x.operation == "delete" {
      b.Within(0, "-" + x.name, 1);
    }
  }

  method RenderProxyHost(b: Builder, h: Host) returns (ghost main: seq<D.Directive>, ghost headers: seq<Header>)
    requires b.Says() && (forall r | r in h.routes :: CaddyValue(r.path))
    requires forall u | u in h.upstreams :: SafeToken(u.address)
    requires forall x | x in h.customHeaders :: CaddyValue(x.name) && CaddyValue(x.value)
    modifies b
    ensures b.Says() && b.base == old(b.base) && b.said == old(b.said) + main + HeaderDirs(headers)
    ensures IsProxy(h, main) && Ascends(headers, HeaderOrder) && multiset(headers) == multiset(h.customHeaders)
  {
    ghost var said := b.said;
    main := RenderTargets(b, h);
    hide Builder.Says, CaddyValue, SafeToken, IsProxy, HeaderDirs;
    headers := RenderResponseHeaders(b, h.customHeaders);
  }

  method RenderTargets(b: Builder, h: Host) returns (ghost main: seq<D.Directive>)
    requires b.Says() && (forall r | r in h.routes :: CaddyValue(r.path))
    requires forall u | u in h.upstreams :: SafeToken(u.address)
    modifies b
    ensures b.Says() && b.base == old(b.base) && b.said == old(b.said) + main && IsProxy(h, main)
  {
    var upstreams := SortBy(h.upstreams, UpstreamOrder);
    SameMembers(upstreams, h.upstreams);
    ghost var said := b.said;
    main := [];
    assert said + [] == said;
    hide Builder.Says, CaddyValue, SafeToken, LinesFor, ProxyDirs, Routes.Lines, Ascends, IsProxy;
    if |h.routes| > 0 {
      ghost var sorted := RenderRoutes(b, h);
      main := LinesFor(Routes.Lines(h.upstreams, sorted));
      RoutesAreProxy(h, sorted);
    } else if |upstreams| > 0 {
      RenderReverseProxy(b, upstreams, On(h.websocket));
      main := ProxyDirs(upstreams);
      PoolIsProxy(h, upstreams);
    } else {
      NoneIsProxy(h);
    }
  }

  /** The proxy directives of a host: its routes by sort order, or all its upstreams by sort order. */
  ghost predicate IsProxy(h: Host, main: seq<D.Directive>) {
    if h.routes != [] then
      exists sorted :: Ascends(sorted, Routes.OrderOf) && multiset(sorted) == multiset(h.routes)
                       && main == LinesFor(Routes.Lines(h.upstreams, sorted))
    else if h.upstreams != [] then
      exists sorted :: Ascends(sorted, UpstreamOrder) && multiset(sorted) == multiset(h.upstreams)
                       && main == ProxyDirs(sorted)
    else main == []
  }

  lemma RoutesAreProxy(h: Host, sorted: seq<Routes.Route>)
    requires h.routes != [] && Ascends(sorted, Routes.OrderOf) && multiset(sorted) == multiset(h.routes)
    ensures IsProxy(h, LinesFor(Routes.Lines(h.upstreams, sorted)))
  {
  }

  lemma PoolIsProxy(h: Host, sorted: seq<Routes.Upstream>)
    requires h.routes == [] && h.upstreams != []
    requires Ascends(sorted, UpstreamOrder) && multiset(sorted) == multiset(h.upstreams)
    ensures IsProxy(h, ProxyDirs(sorted))
  {
  }

  lemma NoneIsProxy(h: Host)
    requires h.routes == [] && h.upstreams == []
    ensures IsProxy(h, [])
  {
  }

  function Get(config: map<string, string>, key: string): string {
    if key in config then config[key] else ""
  }

  function SettingLine(s: (string, string)): string { "\t" + (s.0 + (" " + s.1)) }

  function SettingLines(settings: seq<(string, string)>): seq<string> {
    seq(|settings|, i requires 0 <= i < |settings| => SettingLine(settings[i]))
  }

  function DnsBlock(provider: string, settings: seq<(string, string)>): seq<D.Directive> {
    [D.Block("tls ", ["dns " + (provider + " ") + "{"] + SettingLines(settings) + ["}"])]
  }

  /** A `dns` block with the given settings inside a `tls` block. */
  method RenderDnsBlock(b: Builder, provider: string, settings: seq<(string, string)>)
    requires b.Says() && Plain(provider) && forall s | s in settings :: Plain(s.0) && Plain(s.1)
    modifies b
    ensures b.Says() && b.base == old(b.base) && b.said == old(b.said) + DnsBlock(provider, settings)
  {
    DnsWordsPlain();
    PlainConcat(provider, " ");
    PlainConcat("dns ", provider + " ");
    CodeStartConcat("dns ", provider + " ");
    ghost var lines := SettingLines(settings);
    assert DnsBlock(provider, settings) == [D.Block("tls ", ["dns " + (provider + " ") + "{"] + lines + ["}"])];
    hide Builder.Says, Builder.Saying, Plain, CodeStart, SettingLines, DnsBlock;
    b.OpenUp("tls ");
    b.WithinOpen("dns " + (provider + " "), 1);
    RenderSettings(b, settings);
    b.WithinClose(2);
    assert b.body == ["dns " + (provider + " ") + "{"] + lines + ["}"];
    b.CloseUp();
  }

  method RenderSettings(b: Builder, settings: seq<(string, string)>)
    requires b.Saying(2) && forall s | s in settings :: Plain(s.0) && Plain(s.1)
    modifies b`text, b`body
    ensures b.Saying(2) && b.body == old(b.body) + SettingLines(settings)
  {
    OneTab();
    DnsWordsPlain();
    hide Builder.Saying, Plain, Tabs;
    for i := 0 to |settings|
      invariant b.Saying(2) && b.body == old(b.body) + SettingLines(settings[..i])
    {
      assert settings[i] in settings;
      PlainConcat(" ", settings[i].1);
      PlainConcat(settings[i].0, " " + settings[i].1);
      b.Within(1, settings[i].0 + (" " + settings[i].1), 2);
      assert SettingLines(settings[..i + 1]) == SettingLines(settings[..i]) + [SettingLine(settings[i])];
    }
    assert settings[..|settings|] == settings;
  }

  lemma DnsWordsPlain()
    ensures Plain("tls ") && Plain("dns cloudflare ") && Plain("alidns") && Plain("tencentcloud") && Plain("route53")
    ensures Plain("access_key_id") && Plain("access_key_secret") && Plain("secret_id") && Plain("secret_key")
    ensures Plain("region") && Plain("us-east-1") && Plain("secret_access_key") && Plain("dns ") && Plain(" ")
    ensures CodeStart("tls ") && CodeStart("dns ")
  {
  }

  /** A credential that may be written. */
  predicate Usable(v: string) { v != "" && SafeDnsValue(v) }

  function KeyPair(config: map<string, string>, first: string, second: string): seq<(string, string)> {
    [(first, Get(config, first)), (second, Get(config, second))]
  }

  function Region(config: map<string, string>): string {
    if Get(config, "region") == "" then "us-east-1" else Get(config, "region")
  }

  function PairDirs(provider: string, config: map<string, string>, first: string, second: string): seq<D.Directive> {
    if Usable(Get(config, first)) && Usable(Get(config, second)) then DnsBlock(provider, KeyPair(config, first, second))
    else []
  }

  function Route53Dirs(config: map<string, string>): seq<D.Directive> {
    if Usable(Get(config, "access_key_id")) && Usable(Get(config, "secret_access_key")) &&
       SafeDnsValue(Region(config)) then
      DnsBlock("route53", [("region", Region(config))] + KeyPair(config, "access_key_id", "secret_access_key"))
    else []
  }

  function CloudflareDirs(config: map<string, string>): seq<D.Directive> {
    if Usable(Get(config, "api_token")) then [D.Block("tls ", ["dns cloudflare " + Get(config, "api_token")])] else []
  }

  function DnsDirs(p: DnsProvider): seq<D.Directive> {
    if p.config.None? then []
    else
      var config := p.config.value;
      if p.provider == "cloudflare" then CloudflareDirs(config)
      else if p.provider == "alidns" then PairDirs("alidns", config, "access_key_id", "access_key_secret")
      else if p.provider == "tencentcloud" then PairDirs("tencentcloud", config, "secret_id", "secret_key")
      else if p.provider == "route53" then Route53Dirs(config)
      else []
  }

  /** The credentials are checked here, whatever the database holds. */
  method RenderDnsTLS(b: Builder, p: DnsProvider)
    requires b.Says()
    modifies b
    ensures b.Says() && b.base == old(b.base) && b.said == old(b.said) + DnsDirs(p)
  {
    DnsWordsPlain();
    hide Builder.Says, SafeDnsValue, Plain, DnsBlock;
    if p.config.None? {
      return;
    }
    var config := p.config.value;
    if p.provider == "cloudflare" {
      RenderCloudflare(b, config);
    } else if p.provider == "alidns" {
      var ak, sk := Get(config, "access_key_id"), Get(config, "access_key_secret");
      if ak == "" || sk == "" || !SafeDnsValue(ak) || !SafeDnsValue(sk) { return; }
      SafeDnsPlain(ak);
      SafeDnsPlain(sk);
      RenderDnsBlock(b, "alidns", [("access_key_id", ak), ("access_key_secret", sk)]);
    } else if p.provider == "tencentcloud" {
      var sid, sk := Get(config, "secret_id"), Get(config, "secret_key");
      if sid == "" || sk == "" || !SafeDnsValue(sid) || !SafeDnsValue(sk) { return; }
      SafeDnsPlain(sid);
      SafeDnsPlain(sk);
      RenderDnsBlock(b, "tencentcloud", [("secret_id", sid), ("secret_key", sk)]);
    } else if p.provider == "route53" {
      RenderRoute53(b, config);
    }
  }

  method RenderCloudflare(b: Builder, config: map<string, string>)
    requires b.Says()
    modifies b
    ensures b.Says() && b.base == old(b.base) && b.said == old(b.said) + CloudflareDirs(config)
  {
    var token := Get(config, "api_token");
    if token == "" || !SafeDnsValue(token) { return; }
    DnsWordsPlain();
    SafeDnsPlain(token);
    PlainConcat("dns cloudflare ", token);
    NoTabs("dns cloudflare " + token);
    assert CloudflareDirs(config) == [D.Block("tls ", ["dns cloudflare " + token])];
    hide Builder.Says, Builder.Saying, CloudflareDirs, Plain, Tabs, CodeStart;
    b.OpenUp("tls ");
    b.Within(0, "dns cloudflare " + token, 1);
    assert b.body == ["dns cloudflare " + token];
    b.CloseUp();
  }

  method RenderRoute53(b: Builder, config: map<string, string>)
    requires b.Says()
    modifies b
    ensures b.Says() && b.base == old(b.base) && b.said == old(b.said) + Route53Dirs(config)
  {
    hide Builder.Says, SafeDnsValue, Plain, DnsBlock;
    DnsWordsPlain();
    var region, ak, sk := Get(config, "region"), Get(config, "access_key_id"), Get(config, "secret_access_key");
    if ak == "" || sk == "" || !SafeDnsValue(ak) || !SafeDnsValue(sk) { return; }
    if region == "" {
      region := "us-east-1";
    }
    if !SafeDnsValue(region) { return; }
    SafeDnsPlain(region);
    SafeDnsPlain(ak);
    SafeDnsPlain(sk);
    assert [("region", region)] + KeyPair(config, "access_key_id", "secret_access_key") ==
           [("region", region), ("access_key_id", ak), ("secret_access_key", sk)];
    RenderDnsBlock(b, "route53", [("region", region), ("access_key_id", ak), ("secret_access_key", sk)]);
  }

  function TlsDirs(h: Host, tlsMode: string, providers: map<nat, DnsProvider>): seq<D.Directive> {
    if tlsMode == "custom" then
      if h.certPath != "" && h.keyPath != "" then [D.Simple("tls " + (h.certPath + (" " + h.keyPath)))] else []
    else if (tlsMode == "dns" || tlsMode == "wildcard") && h.dnsProvider.Some? && h.dnsProvider.value in providers then
      DnsDirs(providers[h.dnsProvider.value])
    else []
  }

  method RenderTLS(b: Builder, h: Host, tlsMode: string, providers: map<nat, DnsProvider>)
    requires b.Says() && CaddyValue(h.certPath) && CaddyValue(h.keyPath)
    modifies b
    ensures b.Says() && b.base == old(b.base) && b.said == old(b.said) + TlsDirs(h, tlsMode, providers)
  {
    DnsWordsPlain();
    CaddyValuePlain(h.certPath);
    CaddyValuePlain(h.keyPath);
    PlainConcat(" ", h.keyPath);
    PlainConcat(h.certPath, " " + h.keyPath);
    PlainConcat("tls ", h.certPath + (" " + h.keyPath));
    hide Builder.Says, CaddyValue, Plain, DnsDirs;
    if tlsMode == "custom" {
      if h.certPath != "" && h.keyPath != "" {
        b.Say("tls " + (h.certPath + (" " + h.keyPath)));
      }
    } else if tlsMode == "dns" || tlsMode == "wildcard" {
      if h.dnsProvider.Some? && h.dnsProvider.value in providers {
        RenderDnsTLS(b, providers[h.dnsProvider.value]);
      }
    }
  }

  // ---------------------------------------------------------------------------------------------
  // Custom directives
  // ---------------------------------------------------------------------------------------------

  /** The user's lines, each indented by one tab. */
  function Indented(lines: seq<string>): string {
    if lines == [] then "" else "\t" + lines[0] + "\n" + Indented(lines[1..])
  }

  /** A tab in front of a line changes nothing. */
  lemma {:induction false} IndentedRun(lines: seq<string>, d: int)
    ensures Run(State(d, Start), Indented(lines)) == Run(State(d, Start), Unlines(lines))
    ensures Stays(State(d, Start), Indented(lines), 0) <==> Stays(State(d, Start), Unlines(lines), 0)
  {
    if lines != [] {
      var s, line, rest := State(d, Start), lines[0] + "\n", lines[1..];
      assert Indented(lines) == "\t" + (line + Indented(rest));
      OneStep(s, '\t', 0);
      Append(s, "\t", line + Indented(rest), 0);
      Append(s, line, Indented(rest), 0);
      Append(s, line, Unlines(rest), 0);
      Append(s, lines[0], "\n", 0);
      OneStep(Run(s, lines[0]), '\n', 0);
      IndentedRun(rest, Run(s, line).depth);
      StaysStart(s, line + Indented(rest), 0);
    }
  }

  lemma StaysStart(s: State, text: string, m: int)
    ensures Stays(s, text, m) ==> s.depth >= m
  {
  }

  /** Accepted directives are whole blocks, trimmed and indented as well. */
  lemma DirectivesNeutral(directives: string)
    requires DirectivesVerdict(directives, Accepted)
    ensures Opens(Indented(Split(TrimSpace(directives), '\n')), 0)
  {
    TrimNeutral(directives);
    UnlinesSplit(TrimSpace(directives));
    IndentedRun(Split(TrimSpace(directives), '\n'), 0);
  }

  lemma {:induction false} IndentedAppend(lines: seq<string>, line: string)
    ensures Indented(lines + [line]) == Indented(lines) + "\t" + line + "\n"
  {
    if lines == [] {
      assert [line][1..] == [];
    } else {
      assert (lines + [line])[1..] == lines[1..] + [line];
      IndentedAppend(lines[1..], line);
    }
  }

  /** The text of the splice. */
  function CustomText(directives: string): string {
    if directives == "" then "" else Indented(Split(TrimSpace(directives), '\n'))
  }

  method RenderCustomDirectives(b: Builder, directives: string)
    requires DirectivesVerdict(directives, Accepted)
    modifies b
    ensures b.text == old(b.text) + CustomText(directives) && Adds(old(b.text), b.text, 0)
  {
    ghost var t0 := b.text;
    AddsNone(t0);
    if directives != "" {
      var lines := Split(TrimSpace(directives), '\n');
      for i := 0 to |lines|
        invariant b.text == t0 + Indented(lines[..i])
      {
        IndentedAppend(lines[..i], lines[i]);
        assert lines[..i + 1] == lines[..i] + [lines[i]];
        b.WriteString("\t" + lines[i] + "\n");
      }
      assert lines[..|lines|] == lines;
      DirectivesNeutral(directives);
      assert b.text[|t0|..] == Indented(lines);
    }
  }
}
