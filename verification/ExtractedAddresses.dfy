/** internal/caddy/validate.go: exactly which addresses are granted to a header, and exactly which addresses
    the scan of a rendered file finds. */
module ExtractedAddresses {
  import opened Text
  import opened Words
  import opened Optional
  import opened Braces
  import opened CaddyValidate
  import opened CaddyRender
  import opened Caddyfile
  import opened SiteAddresses

  // ---------------------------------------------------------------------------------------------
  // Domains as addresses
  // ---------------------------------------------------------------------------------------------

  lemma {:induction false} NoLast(s: string, c: char)
    requires c !in s
    ensures LastIndexOf(s, c) == -1
  {
    if s != "" { NoLast(s[..|s| - 1], c); }
  }

  lemma {:induction false} LastOf(a: string, b: string, c: char)
    requires c !in b
    ensures LastIndexOf(a + [c] + b, c) == |a|
    decreases |b|
  {
    var s := a + [c] + b;
    if b != "" {
      assert s[|s| - 1] == b[|b| - 1];
      assert s[..|s| - 1] == a + [c] + b[..|b| - 1];
      LastOf(a, b[..|b| - 1], c);
    }
  }

  lemma PortApart(h: string, p: string)
    requires p != "" && Digits(p)
    ensures SplitDomainPort(h + ":" + p) == HostPort(h, p, true)
  {
    var d := h + ":" + p;
    assert ':' !in p;
    LastOf(h, p, ':');
    assert d == h + [':'] + p && d[..|h|] == h && d[|h| + 1..] == p;
  }

  lemma NoPort(h: string)
    requires ':' !in h
    ensures SplitDomainPort(h) == HostPort(h, "", false)
  {
    NoLast(h, ':');
  }

  lemma {:induction false} NameChars(labels: seq<string>)
    requires forall l | l in labels :: Label(l)
    ensures ':' !in Join(labels, '.') && '*' !in Join(labels, '.')
  {
    if |labels| > 1 {
      LabelChars(labels[0]);
      NameChars(labels[1..]);
    } else if |labels| == 1 {
      LabelChars(labels[0]);
    }
  }

  lemma LabelChars(l: string)
    requires Label(l)
    ensures ':' !in l && '*' !in l
  {
  }

  lemma OfLabels(name: string)
    requires Labels(name)
    ensures ':' !in name && '*' !in name && name != "" && DomainChars(name)
  {
    JoinSplit(name, '.');
    NameChars(Split(name, '.'));
    LabelsChars(name);
    assert name == "" ==> Split(name, '.') == [""] && !Label("");
  }

  lemma Harmless(d: string)
    requires DomainChars(d)
    ensures !HasAny(d, " \t\n\r{}\"'`;#$\\")
  {
    forall i | 0 <= i < |d| ensures d[i] !in " \t\n\r{}\"'`;#$\\" {
      assert DomainChar(d[i]);
      HarmlessChar(d[i]);
    }
  }

  lemma NoWildcard(name: string, rest: string)
    requires name != "" && '*' !in name
    ensures TrimPrefix(name + rest, "*.") == name + rest
  {
    assert name[0] in name && (name + rest)[0] == name[0] && "*."[0] == '*';
  }

  /** Labels with dots between them are a valid domain exactly if they are not too long. */
  lemma NameValidIff(name: string)
    requires Labels(name)
    ensures ValidDomain(name) <==> |name| <= 253
  {
    OfLabels(name);
    Harmless(name);
    NoWildcard(name, "");
    assert name + "" == name;
    NoPort(name);
    NoLast(name, ':');
    hide Labels, DomainChars, HasAny, TrimPrefix, LastIndexOf, SplitDomainPort;
  }

  lemma PortShape(name: string, port: string)
    requires Labels(name) && port != "" && Digits(port)
    ensures DomainShape(name + ":" + port) <==> |port| <= 5
  {
    var d := name + ":" + port;
    OfLabels(name);
    NoWildcard(name, ":" + port);
    assert d == name + (":" + port) == name + [':'] + port;
    LastOf(name, port, ':') by { assert ':' !in port; }
    assert d[..|name|] == name && d[|name| + 1..] == port;
    hide Labels, DomainChars, TrimPrefix, LastIndexOf, Digits;
  }

  lemma PortHarmless(name: string, port: string)
    requires Labels(name) && Digits(port)
    ensures !HasAny(name + ":" + port, " \t\n\r{}\"'`;#$\\")
  {
    var d := name + ":" + port;
    OfLabels(name);
    assert d[..|name|] == name && d[|name| + 1..] == port && d[|name|] == ':';
    hide Labels, HasAny, Digits;
    PortChars(d, |name|);
    Harmless(d);
  }

  /** With a port behind them, exactly if that is a number from 1 to 65535 of at most five digits. */
  lemma PortValidIff(name: string, port: string)
    requires Labels(name) && port != "" && Digits(port)
    ensures ValidDomain(name + ":" + port) <==>
              |name| <= 253 && |name| + |port| <= 254 && |port| <= 5 && 1 <= Number(port) <= 65535
  {
    PortShape(name, port);
    PortHarmless(name, port);
    PortApart(name, port);
    hide Labels, HasAny, SplitDomainPort, DomainShape, Digits, Number;
  }

  lemma NormalizedParts(d: string)
    requires ValidDomain(d)
    ensures var n := NormalizeAddress(d);
            n.Some? && n.value.exact == Lower(d) && n.value.host == Lower(SplitDomainPort(d).host)
            && n.value.hasPort == SplitDomainPort(d).hasPort
  {
    hide *;
    NormalizeDomain("", d);
    assert "" + d == d;
    LowerParts(d);
    PartsOf(d);
  }

  lemma PartsOf(d: string)
    ensures var n := NormalizeAddress(d);
            n.Some? ==> n.value.host == SplitDomainPort(n.value.exact).host
                        && n.value.hasPort == SplitDomainPort(n.value.exact).hasPort
  {
  }

  lemma DomainWord(d: string)
    requires ValidDomain(d)
    ensures OneWord(d) && TrimSpace(d) == d
  {
    ValidNotEmpty(d);
    ValidDomainPlain(d);
    CharsSolid(d);
    assert d[0] in d && DomainChar(d[0]);
    NoNull(d);
    PlainMembers(d);
    hide ValidDomain, DomainChars, Plain;
    SolidTrimmed(d);
    BlankEnd(d);
  }

  lemma NoNull(d: string)
    requires DomainChars(d)
    ensures '\0' !in d
  {
    forall i | 0 <= i < |d| ensures d[i] != '\0' { assert DomainChar(d[i]); }
  }

  lemma BlankEnd(d: string)
    requires Solid(d) && d != ""
    ensures TrimSpace(d + " ") == d
  {
    assert Blank(" ");
    TrimRightConcat(d, " ");
    assert (d + " ")[0] == d[0];
  }

  /** The domain, read as an address, is `a`. */
  ghost predicate ReadsAs(d: string, a: string) {
    var n := NormalizeAddress(Lower(TrimSpace(d)));
    TrimSpace(d) != "" && n.Some? && n.value.exact == a
  }

  ghost predicate ListsAddress(domains: seq<string>, a: string) {
    exists d :: d in domains && ReadsAs(d, a)
  }

  lemma GrantsMeans(d: string, a: Address)
    ensures var n := NormalizeAddress(Lower(TrimSpace(d)));
            Grants(d, a) <==> TrimSpace(d) != "" && n.Some? &&
                              (n.value.exact == a.exact || (a.hasPort && !n.value.hasPort && n.value.host == a.host))
  {
    assert |Lower(TrimSpace(d))| == |TrimSpace(d)|;
  }

  lemma ReadsMeans(d: string, a: string)
    ensures var n := NormalizeAddress(Lower(TrimSpace(d)));
            ReadsAs(d, a) <==> TrimSpace(d) != "" && n.Some? && n.value.exact == a
  {
  }

  lemma LowerNoColon(h: string)
    requires ':' !in h
    ensures ':' !in Lower(h)
  {
    forall i | 0 <= i < |h| ensures Lower(h)[i] != ':' { assert h[i] in h; }
  }

  lemma GrantsReads(d: string, h: string, p: string, a: Address)
    requires ':' !in h && a == Address(Lower(h + ":" + p), Lower(h), true)
    ensures Grants(d, a) <==> ReadsAs(d, Lower(h)) || ReadsAs(d, Lower(h + ":" + p))
  {
    hide *;
    var n := NormalizeAddress(Lower(TrimSpace(d)));
    PartsOf(Lower(TrimSpace(d)));
    LowerNoColon(h);
    NoPort(Lower(h));
    HostAlone(n);
    GrantsMeans(d, a);
    ReadsMeans(d, Lower(h));
    ReadsMeans(d, Lower(h + ":" + p));
  }

  lemma HostAlone(n: Option<Address>)
    ensures n.Some? && !SplitDomainPort(n.value.exact).hasPort ==> SplitDomainPort(n.value.exact).host == n.value.exact
  {
  }

  /** A header for one port of a name is accepted exactly when the host lists that name, without a port or
      with that very port. */
  lemma AnyPortGranted(domains: seq<string>, h: string, p: string)
    requires ValidDomain(h + ":" + p) && ':' !in h && p != "" && Digits(p)
    ensures HeaderOk(domains, h + ":" + p + " {") <==>
              ListsAddress(domains, Lower(h)) || ListsAddress(domains, Lower(h + ":" + p))
  {
    var d := h + ":" + p;
    DomainWord(d);
    NormalizedParts(d);
    PortApart(h, p);
    SmallHeader(domains, d);
    var a := NormalizeAddress(d).value;
    assert a == Address(Lower(d), Lower(h), true);
    hide ValidDomain, HeaderOk, NormalizeAddress, ReadsAs, Grants, Lower, SplitDomainPort, Plain;
    assert d != "" by { hide *; NotEmpty(h, p); }
    assert Granted(domains, d) <==> GrantedBy(domains, a);
    forall x ensures Grants(x, a) <==> ReadsAs(x, Lower(h)) || ReadsAs(x, Lower(d)) {
      GrantsReads(x, h, p, a);
    }
  }

  lemma NotEmpty(h: string, p: string)
    ensures h + ":" + p != ""
  {
  }

  // ---------------------------------------------------------------------------------------------
  // Lines and what they hold
  // ---------------------------------------------------------------------------------------------

  ghost predicate FindsAmong(lines: seq<string>, a: string) {
    exists line, w :: line in lines && FindsOn(line, w, a)
  }

  lemma AmongConcat(p: seq<string>, q: seq<string>, a: string)
    ensures FindsAmong(p + q, a) <==> FindsAmong(p, a) || FindsAmong(q, a)
  {
    hide FindsOn;
    if line, w :| line in p && FindsOn(line, w, a) { assert line in p + q; }
    if line, w :| line in q && FindsOn(line, w, a) { assert line in p + q; }
  }

  lemma AmongOne(line: string, a: string)
    ensures FindsAmong([line], a) <==> exists w :: FindsOn(line, w, a)
  {
    hide FindsOn;
    if w :| FindsOn(line, w, a) { assert line in [line]; }
  }

  lemma AmongNone(lines: seq<string>, a: string)
    requires forall line | line in lines :: HeaderWords(line) == []
    ensures !FindsAmong(lines, a)
  {
    hide HeaderWords, NormalizeAddress, Lower;
  }

  lemma EmptyLine()
    ensures HeaderWords("") == []
  {
  }

  /** The scan of two texts, the first one of whole lines, finds what it finds in each of them. */
  lemma FindsConcat(x: string, s: string, a: string)
    requires EndsLine(x)
    ensures Finds(x + s, a) <==> Finds(x, a) || Finds(s, a)
  {
    var y := x[..|x| - 1];
    assert x == y + "\n";
    SplitConcat(y, s);
    SplitConcat(y, "");
    assert x == y + "\n" + "" && x + s == y + "\n" + s;
    EmptyLine();
    assert Split("", '\n') == [""];
    hide Split, FindsOn;
    AmongNone([""], a);
    AmongConcat(Split(y, '\n'), Split(s, '\n'), a);
    AmongConcat(Split(y, '\n'), [""], a);
    AmongText(x, a);
    AmongText(s, a);
    AmongText(x + s, a);
  }

  lemma AmongText(s: string, a: string)
    ensures Finds(s, a) <==> FindsAmong(Split(s, '\n'), a)
  {
    hide FindsOn, Split;
  }

  ghost predicate FindsInBlock(blocks: seq<Block>, n: int, a: string) {
    0 <= n < |blocks| && Finds(BlockText(blocks[n]), a)
  }

  lemma {:induction false} FileFinds(preamble: string, blocks: seq<Block>, a: string)
    requires EndsLine(preamble)
    ensures Finds(FileText(preamble, blocks), a) <==> Finds(preamble, a) || exists n :: FindsInBlock(blocks, n, a)
  {
    hide BlockText, Finds, EndsLine;
    if blocks != [] {
      var m := |blocks| - 1;
      FileFinds(preamble, blocks[..m], a);
      FileEnds(preamble, blocks[..m]);
      FindsConcat(FileText(preamble, blocks[..m]), BlockText(blocks[m]), a);
      if n :| FindsInBlock(blocks[..m], n, a) { assert FindsInBlock(blocks, n, a); }
      if n :| FindsInBlock(blocks, n, a) { assert n < m ==> FindsInBlock(blocks[..m], n, a); }
      assert Finds(BlockText(blocks[m]), a) ==> FindsInBlock(blocks, m, a);
    }
  }

  /** The first line of a block, and what follows it. */
  function HeaderLine(block: Block): string {
    match block
    case Override(text) => Split(text, '\n')[0]
    case Generated(addresses, _, _, _) => Head(addresses) + "{"
  }

  function BodyText(block: Block): string {
    match block
    case Override(text) => Unlines(Split(text, '\n')[1..]) + "\n"
    case Generated(_, before, custom, after) => before + custom + after + "}\n\n"
  }

  lemma OverrideCut(text: string)
    ensures var lines := Split(text, '\n');
            text + "\n\n" == lines[0] + ['\n'] + (Unlines(lines[1..]) + "\n") && '\n' !in lines[0]
  {
    var lines := Split(text, '\n');
    UnlinesSplit(text);
    assert lines[0] in lines;
    assert Unlines(lines) == lines[0] + "\n" + Unlines(lines[1..]);
    hide Split, Unlines;
    assert text + "\n\n" == (text + "\n") + "\n";
  }

  lemma GeneratedCut(head: string, body: string)
    ensures head + "{\n" + body + "}\n\n" == (head + "{") + ['\n'] + (body + "}\n\n")
  {
  }

  lemma BlockCut(h: Host, block: Block)
    requires Validated(h) && IsBlock(h, block)
    ensures BlockText(block) == HeaderLine(block) + ['\n'] + BodyText(block) && '\n' !in HeaderLine(block)
  {
    if block.Override? {
      OverrideCut(block.text);
    } else {
      HeadOneLine(h, block);
      GeneratedCut(Head(block.addresses), block.before + block.custom + block.after);
    }
    hide Validated, IsBlock, Split, Unlines, Head;
  }

  lemma BlockFinds(h: Host, block: Block, a: string)
    requires Validated(h) && IsBlock(h, block)
    ensures Finds(BlockText(block), a) <==> (exists w :: FindsOn(HeaderLine(block), w, a)) || Finds(BodyText(block), a)
  {
    BlockCut(h, block);
    hide *;
    SplitAtSep(HeaderLine(block), BodyText(block), '\n');
    AmongText(BlockText(block), a);
    AmongText(BodyText(block), a);
    AmongConcat([HeaderLine(block)], Split(BodyText(block), '\n'), a);
    AmongOne(HeaderLine(block), a);
  }

  // ---------------------------------------------------------------------------------------------
  // The header line of a generated block
  // ---------------------------------------------------------------------------------------------

  lemma HeaderWordsAre(addresses: seq<string>)
    requires |addresses| > 0
    requires forall a | a in addresses :: TrimSpace(a) == a && Solid(a) && a != "" && ',' !in a && Plain(a) && '#' !in a
    ensures HeaderWords(Head(addresses) + "{") == addresses
  {
    var joined := Join(addresses, ' ');
    var line := Head(addresses) + "{";
    assert addresses[0] in addresses;
    FieldsJoined(addresses);
    JoinStarts(addresses);
    assert Trimmed(line) && TrimSpace(line) == line;
    assert line[..|line| - 1] == joined + " ";
    JoinWithout(addresses, ' ', ',');
    assert Blank(" ");
    FieldsBlankRight("", joined, " ");
    FieldsTrim(joined + " ");
    NoCommas(joined + " ");
  }

  lemma DomainFrom(h: Host, domains: seq<string>, i: nat)
    requires Lists(h, domains) && i < |domains|
    ensures Key(domains[i]) == Key(h.domain)
            || exists d :: d in h.domains && TrimSpace(d.name) != "" && Key(domains[i]) == Key(d.name)
  {
    hide Key, TrimSpace, BySortOrder, Listed;
    if i > 0 {
      assert domains[i] != "" && Named(h.domains, domains[i]);
      var d :| d in h.domains && TrimSpace(d.name) == domains[i];
      KeyTrimmed(d.name);
    }
  }

  lemma GeneratedOnly(h: Host, block: Block, w: string, a: string)
    requires Validated(h) && IsBlock(h, block) && block.Generated? && FindsOn(Head(block.addresses) + "{", w, a)
    ensures Promises(h, block, a)
  {
    var domains :| Lists(h, domains) && block.addresses == Prefixed(Scheme(h), domains);
    DomainsPlain(h, domains);
    var prefix := Scheme(h);
    assert |domains| > 0;
    hide Validated, IsBlock, Lists, Promises, ValidDomain, Plain, Solid, NormalizeAddress, HeaderWords, Key, Lower;
    forall x | x in block.addresses
      ensures TrimSpace(x) == x && Solid(x) && x != "" && ',' !in x && Plain(x) && '#' !in x
    {
      var i :| 0 <= i < |block.addresses| && block.addresses[i] == x;
      assert domains[i] in domains;
      AddressFacts(prefix, domains[i]);
    }
    HeaderWordsAre(block.addresses);
    var k :| 0 <= k < |block.addresses| && block.addresses[k] == w;
    assert domains[k] in domains && w == prefix + domains[k];
    NormalizeDomain(prefix, domains[k]);
    DomainTrimmed(domains[k]);
    DomainFrom(h, domains, k);
    PromiseFrom(h, block, a);
  }

  lemma PromiseFrom(h: Host, block: Block, a: string)
    requires block.Generated?
    requires a == Key(h.domain) || exists d :: d in h.domains && TrimSpace(d.name) != "" && a == Key(d.name)
    ensures Promises(h, block, a)
  {
    hide Key, TrimSpace;
  }

  // ---------------------------------------------------------------------------------------------
  // The header line of the user's own block
  // ---------------------------------------------------------------------------------------------

  function TrimAll(raws: seq<string>): seq<string> {
    seq(|raws|, i requires 0 <= i < |raws| => TrimSpace(raws[i]))
  }

  lemma {:induction false} WordEnds(word: string, b: string, s: string)
    requires word != "" && b != "" && Blank(b)
    ensures FieldsFrom(word, b + s) == [word] + Fields(s)
  {
    assert b[0] in b && (b + s)[1..] == b[1..] + s && forall c | c in b[1..] :: c in b;
    FieldsBlankLeft(b[1..], s);
  }

  lemma FieldsFirst(raw: string, s: string)
    requires TrimSpace(raw) != "" && Solid(TrimSpace(raw))
    ensures Fields(raw + [' '] + s) == [TrimSpace(raw)] + Fields(s)
  {
    var t := TrimSpace(raw);
    var l, r := TrimParts(raw);
    var b := r + " ";
    assert Blank(b);
    assert raw + [' '] + s == l + (t + (b + s));
    FieldsBlankLeft(l, t + (b + s));
    SolidFirst("", t, b + s);
    assert "" + t == t;
    WordEnds(t, b, s);
  }

  lemma FieldsSingle(raw: string)
    requires TrimSpace(raw) != "" && Solid(TrimSpace(raw))
    ensures Fields(raw) == [TrimSpace(raw)]
  {
    var t := TrimSpace(raw);
    FieldsTrim(raw);
    SolidFirst("", t, "");
    assert t + "" == t && "" + t == t;
  }

  lemma {:induction false} FieldsRaws(raws: seq<string>)
    requires forall raw | raw in raws :: TrimSpace(raw) != "" && Solid(TrimSpace(raw))
    ensures Fields(Join(raws, ' ')) == TrimAll(raws)
  {
    if |raws| == 1 {
      assert raws[0] in raws;
      FieldsSingle(raws[0]);
    } else if |raws| > 1 {
      assert raws[0] in raws && forall raw | raw in raws[1..] :: raw in raws;
      FieldsRaws(raws[1..]);
      FieldsFirst(raws[0], Join(raws[1..], ' '));
      assert TrimAll(raws) == [TrimSpace(raws[0])] + TrimAll(raws[1..]);
    }
  }

  lemma GrantedSolid(domains: seq<string>, raw: string)
    requires Granted(domains, raw)
    ensures TrimSpace(raw) != "" && Solid(TrimSpace(raw))
    ensures var n := NormalizeAddress(TrimSpace(raw));
            n.Some? && IsAddress(raw, n.value.exact) && Lower(n.value.exact) == n.value.exact
  {
    var e := NormalizeAddress(TrimSpace(raw)).value.exact;
    assert IsAddress(raw, e);
    AddressSolid(raw, e);
  }

  lemma HeaderTrimmed(domains: seq<string>, line: string)
    requires HeaderOk(domains, TrimSpace(line)) && '\n' !in line
    ensures HasSuffix(TrimSpace(line), "{") && HeaderWords(line) == TrimAll(HeaderAddresses(TrimSpace(line)))
  {
    HeaderCounts(domains, line);
    var f := TrimSpace(line);
    var raws := HeaderAddresses(f);
    forall raw | raw in raws ensures TrimSpace(raw) != "" && Solid(TrimSpace(raw)) {
      GrantedSolid(domains, raw);
    }
    RawsJoined(f);
    FieldsRaws(raws);
    hide TrimSpace, Solid, Fields, HeaderOk, CommasToSpaces, Join, TrimAll;
  }

  lemma RawPromise(domains: seq<string>, raw: string, a: string)
    requires Granted(domains, raw) && FindsAddress(TrimSpace(raw), a)
    ensures IsAddress(raw, a)
  {
    GrantedSolid(domains, raw);
  }

  lemma FoundWord(line: string, w: string, a: string)
    requires FindsOn(line, w, a)
    ensures w in HeaderWords(line) && FindsAddress(w, a)
  {
  }

  lemma HeaderRaw(domains: seq<string>, line: string, w: string) returns (raw: string)
    requires HeaderOk(domains, TrimSpace(line)) && '\n' !in line && w in HeaderWords(line)
    ensures HasSuffix(TrimSpace(line), "{") && raw in HeaderAddresses(TrimSpace(line))
    ensures TrimSpace(raw) == w && Granted(domains, raw)
  {
    HeaderTrimmed(domains, line);
    hide Granted, TrimSpace, HeaderWords, HeaderAddresses;
    var raws := HeaderAddresses(TrimSpace(line));
    var i :| 0 <= i < |raws| && TrimAll(raws)[i] == w;
    raw := raws[i];
    assert raw in raws;
  }

  lemma PromiseHeader(h: Host, block: Block, raw: string, a: string)
    requires block.Override? && HasSuffix(TrimSpace(HeaderLine(block)), "{")
    requires raw in HeaderAddresses(TrimSpace(HeaderLine(block))) && IsAddress(raw, a)
    ensures Promises(h, block, a)
  {
    hide IsAddress, HeaderAddresses, TrimSpace, Split;
  }

  lemma HeaderInText(block: Block)
    requires block.Override?
    ensures '\n' !in HeaderLine(block) && HeaderLine(block) == Split(block.text, '\n')[0]
  {
    assert HeaderLine(block) in Split(block.text, '\n');
  }

  lemma OverrideOnly(h: Host, block: Block, w: string, a: string)
    requires Validated(h) && IsBlock(h, block) && block.Override? && FindsOn(HeaderLine(block), w, a)
    ensures Promises(h, block, a)
  {
    hide *;
    HeaderInText(block);
    FoundWord(HeaderLine(block), w, a);
    var domains := OverrideHeader(h, block);
    var raw := HeaderRaw(domains, HeaderLine(block), w);
    RawPromise(domains, raw, a);
    PromiseHeader(h, block, raw, a);
  }

  /** The header line of a block finds exactly what the block promises: every name of the host for a generated
      one, exactly the addresses that the header itself lists for an overriding one. */
  lemma HeaderExact(h: Host, block: Block, a: string)
    requires Validated(h) && IsBlock(h, block)
    ensures (exists w :: FindsOn(HeaderLine(block), w, a)) <==> Promises(h, block, a)
  {
    hide Validated, IsBlock, FindsOn, Promises;
    if Promises(h, block, a) {
      if block.Generated? {
        var w := GeneratedFound(h, block, a);
        assert FindsOn(HeaderLine(block), w, a);
      } else {
        var w := OverrideFound(h, block, a);
        assert FindsOn(HeaderLine(block), w, a);
      }
    }
    if w :| FindsOn(HeaderLine(block), w, a) {
      if block.Generated? {
        GeneratedOnly(h, block, w, a);
      } else {
        OverrideOnly(h, block, w, a);
      }
    }
  }

  // ---------------------------------------------------------------------------------------------
  // The preamble
  // ---------------------------------------------------------------------------------------------

  lemma BraceLast(t: string)
    ensures HasSuffix(t, "{") ==> t != "" && t[|t| - 1] == '{'
  {
    if HasSuffix(t, "{") { assert t[|t| - 1..][0] == '{'; }
  }

  lemma NotHeader(line: string)
    requires line != "" && !IsSpace(line[|line| - 1]) && line[|line| - 1] != '{'
    ensures HeaderWords(line) == []
  {
    var l, r := TrimParts(line);
    var t := TrimSpace(line);
    TrailingSpace(line, l + t, r);
    assert line == l + t + r && r == "" && line == l + t;
    BraceLast(t);
    assert t != "" ==> t[|t| - 1] == line[|line| - 1];
  }

  lemma CommentLine(line: string)
    requires line != "" && line[0] == '#'
    ensures HeaderWords(line) == []
  {
    assert TrimLeft(line) == line;
    var r := TrimRightParts(line);
    assert TrimSpace(line) == "" || TrimSpace(line)[0] == line[0];
  }

  lemma BareBrace()
    ensures HeaderWords("{") == []
  {
    assert TrimSpace("{") == "{";
  }

  lemma FieldsCommasTrim(s: string)
    ensures Fields(CommasToSpaces(TrimSpace(s))) == Fields(CommasToSpaces(s))
  {
    var t := TrimSpace(s);
    var l, r := TrimParts(s);
    BlankNoComma(l);
    BlankNoComma(r);
    CommasConcat(l + t, r);
    CommasConcat(l, t);
    hide TrimSpace, CommasToSpaces, Fields;
    assert l + CommasToSpaces(t) + r == l + (CommasToSpaces(t) + r);
    FieldsBlankLeft(l, CommasToSpaces(t) + r);
    FieldsBlankAfter(CommasToSpaces(t), r);
  }

  lemma FieldsBlankAfter(s: string, r: string)
    requires Blank(r)
    ensures Fields(s + r) == Fields(s)
  {
    FieldsBlankRight("", s, r);
  }

  lemma BlankNoComma(v: string)
    requires Blank(v)
    ensures CommasToSpaces(v) == v
  {
    forall i | 0 <= i < |v| ensures v[i] != ',' { assert v[i] in v; }
  }

  /** A line of the file that opens a block. */
  lemma OpenWords(indent: nat, v: string)
    requires v != "" && !IsSpace(v[0]) && v[0] != '#'
    ensures HeaderWords(Tabs(indent) + v + "{") == Fields(CommasToSpaces(v))
  {
    var f := v + "{";
    assert Tabs(indent) + v + "{" == Tabs(indent) + f;
    TabsTrimmed(indent, f);
    assert f[|f| - 1..] == "{" && f[..|f| - 1] == v;
    FieldsCommasTrim(v);
  }

  lemma {:induction false} TabsTrimmed(n: nat, f: string)
    requires f != "" && !IsSpace(f[0]) && !IsSpace(f[|f| - 1])
    ensures TrimSpace(Tabs(n) + f) == f
    decreases n
  {
    var s := Tabs(n) + f;
    if n > 0 {
      assert s[0] == '\t' && s[1..] == Tabs(n - 1) + f;
      TabsTrimmed(n - 1, f);
    } else {
      assert s == f;
    }
  }

  lemma TextLine(indent: nat, part: string)
    requires part != "" && !IsSpace(part[|part| - 1]) && part[|part| - 1] != '{'
    ensures HeaderWords(LineOf(indent, [part])) == []
  {
    assert [part][1..] == [] && Fmt([part]) == part + "" == part;
    var line := LineOf(indent, [part]);
    assert line == Tabs(indent) + part && line[|line| - 1] == part[|part| - 1];
    NotHeader(line);
  }

  lemma CloseLineWords(indent: nat)
    ensures HeaderWords(CloseOf(indent)) == []
  {
    NotHeader(CloseOf(indent));
  }

  lemma BannerNone(now: string, a: string)
    ensures !FindsAmong(BannerLines(now), a)
  {
    var lines := BannerLines(now);
    forall line | line in lines ensures HeaderWords(line) == [] {
      BannerLine(now, line);
    }
    hide HeaderWords, BannerLines;
    AmongNone(lines, a);
  }

  lemma BannerLine(now: string, line: string)
    requires line in BannerLines(now)
    ensures HeaderWords(line) == []
  {
    assert Tabs(0) == "";
    assert Fmt([]) == "";
    EmptyLine();
    assert "" + "" == "";
    if line != LineOf(0, []) {
      assert line == Fmt(RULE) || line == Fmt(["# Auto-generated by Pdai"])
        || line == Fmt(["# DO NOT EDIT MANUALLY \U{2014} ", "changes will be overwritten"])
        || line == Fmt(["# Generated at: ", now]);
      hide HeaderWords;
      assert line[0] == '#';
      CommentLine(line);
    }
  }

  lemma SixNone(l0: string, l1: string, l2: string, l3: string, l4: string, l5: string, a: string)
    requires HeaderWords(l0) == [] && HeaderWords(l1) == [] && HeaderWords(l2) == []
    requires HeaderWords(l3) == [] && HeaderWords(l4) == [] && HeaderWords(l5) == []
    ensures !FindsAmong([l0, l1, l2, l3, l4, l5], a)
  {
    hide HeaderWords;
    AmongNone([l0, l1, l2, l3, l4, l5], a);
  }

  lemma TailNone(a: string)
    ensures !FindsAmong(OptionTail(), a)
  {
    assert "roll_keep 5"[10] == '5' && |"roll_keep 5"| == 11;
    assert "level INFO"[9] == 'O' && |"level INFO"| == 10;
    assert !IsSpace('5') && !IsSpace('O');
    hide HeaderWords, LineOf, CloseOf, IsSpace, FindsAmong;
    EmptyLine();
    ZeroLine();
    TextLine(3, "roll_keep 5");
    TextLine(2, "level INFO");
    CloseLineWords(0);
    CloseLineWords(1);
    CloseLineWords(2);
    SixNone(LineOf(3, ["roll_keep 5"]), CloseOf(2), LineOf(2, ["level INFO"]), CloseOf(1), CloseOf(0), LineOf(0, []),
      a);
  }

  lemma ZeroLine()
    ensures LineOf(0, []) == ""
  {
    assert Tabs(0) == "";
  }

  /** One word of letters. */
  predicate LetterWord(w: string) {
    1 <= |w| <= 20 && forall i | 0 <= i < |w| :: 'a' <= w[i] <= 'z'
  }

  lemma LetterLabel(w: string)
    requires LetterWord(w)
    ensures Label(w) && '.' !in w && ':' !in w && Lower(w) == w && Solid(w) && ',' !in w
    ensures !HasAny(w, " \t\n\r{}\"'`;#$\\")
  {
    forall i | 0 <= i < |w| ensures w[i] !in " \t\n\r{}\"'`;#$\\" && DomainChar(w[i]) {
      HarmlessChar(w[i]);
    }
  }

  lemma LetterName(w: string)
    requires LetterWord(w)
    ensures ValidDomain(w)
  {
    LetterLabel(w);
    NoPort(w);
    NoLast(w, ':');
    SplitNoSep(w, '.');
    assert w[0] != '*' && "*."[0] == '*';
    assert TrimPrefix(w, "*.") == w;
  }

  lemma WordFound(w: string, a: string)
    requires LetterWord(w)
    ensures FindsAddress(w, a) <==> a == w
  {
    LetterName(w);
    LetterLabel(w);
    NormalizedParts(w);
    hide NormalizeAddress, ValidDomain;
    assert Lower(Lower(w)) == w;
  }

  lemma FindsOnWords(line: string, words: seq<string>, a: string)
    requires HeaderWords(line) == words
    ensures (exists w :: FindsOn(line, w, a)) <==> exists w :: w in words && FindsAddress(w, a)
  {
    hide HeaderWords, NormalizeAddress, Lower;
    if w :| w in words && FindsAddress(w, a) { assert FindsOn(line, w, a); }
    if w :| FindsOn(line, w, a) { assert w in words && FindsAddress(w, a); }
  }

  lemma LogWords()
    ensures HeaderWords(OpenOf(1, ["log "])) == ["log"] && LetterWord("log")
  {
    var v := "log ";
    assert Fmt(["log "]) == v + "" == v;
    OpenWords(1, v);
    assert Solid("log") && "log" + [' '] + "" == v;
    SpaceApart("log", "");
    assert CommasToSpaces(v) == v && Fields("") == [];
    hide HeaderWords, Fields, CommasToSpaces;
    assert OpenOf(1, ["log "]) == Tabs(1) + v + "{";
  }

  lemma OutputWords(logDir: string)
    ensures HeaderWords(OpenOf(2, ["output file ", logDir, "/caddy.log "]))
         == ["output", "file"] + Fields(CommasToSpaces(logDir + "/caddy.log"))
    ensures LetterWord("output") && LetterWord("file")
  {
    var x := logDir + "/caddy.log";
    var v := "output file " + x + " ";
    OutputText(logDir);
    assert v[0] == 'o';
    OpenWords(2, v);
    var y := CommasToSpaces(x);
    CommasConcat("output file " + x, " ");
    CommasConcat("output file ", x);
    assert CommasToSpaces(" ") == " " && CommasToSpaces("output file ") == "output file ";
    assert "output file " + y == "output" + [' '] + ("file" + [' '] + y);
    assert Solid("output") && Solid("file");
    hide HeaderWords, Fields, CommasToSpaces, Solid;
    SpaceApart("output", "file" + [' '] + y);
    SpaceApart("file", y);
    FieldsBlankAfter("output file " + y, " ");
    assert ["output"] + (["file"] + Fields(y)) == ["output", "file"] + Fields(y);
  }

  lemma OutputText(logDir: string)
    ensures OpenOf(2, ["output file ", logDir, "/caddy.log "])
         == Tabs(2) + ("output file " + (logDir + "/caddy.log") + " ") + "{"
  {
    var parts := ["output file ", logDir, "/caddy.log "];
    var log := "/caddy.log ";
    assert parts[1..] == [logDir, log] && [logDir, log][1..] == [log] && [log][1..] == [];
    assert Fmt([log]) == log + "" && Fmt([logDir, log]) == logDir + Fmt([log]);
    assert Fmt(parts) == "output file " + Fmt([logDir, log]);
    assert "output file " + (logDir + ("/caddy.log " + "")) == "output file " + (logDir + "/caddy.log") + " ";
  }

  /** The log directory itself is read as an address. */
  ghost predicate DirFinds(logDir: string, a: string) {
    exists w :: w in Fields(CommasToSpaces(logDir + "/caddy.log")) && FindsAddress(w, a)
  }

  ghost predicate OptionFinds(logDir: string, a: string) {
    a == "log" || a == "output" || a == "file" || DirFinds(logDir, a)
  }

  lemma OutputFinds(logDir: string, a: string)
    ensures (exists w :: FindsOn(OpenOf(2, ["output file ", logDir, "/caddy.log "]), w, a)) <==>
              a == "output" || a == "file" || DirFinds(logDir, a)
  {
    var line := OpenOf(2, ["output file ", logDir, "/caddy.log "]);
    var more := Fields(CommasToSpaces(logDir + "/caddy.log"));
    OutputWords(logDir);
    FindsOnWords(line, ["output", "file"] + more, a);
    WordFound("output", a);
    WordFound("file", a);
    hide OpenOf, HeaderWords, Fields, CommasToSpaces, FindsAddress, FindsOn;
    var words := ["output", "file"] + more;
    assert words[0] == "output" && words[1] == "file";
    assert forall w :: w in words <==> w == "output" || w == "file" || w in more;
  }

  lemma QuietOptions()
    ensures HeaderWords(OpenOf(0, [])) == [] && HeaderWords(LineOf(1, ["admin localhost:2019"])) == []
    ensures HeaderWords(LineOf(3, ["roll_size 100MiB"])) == []
  {
    assert OpenOf(0, []) == "{" by { assert Tabs(0) == ""; }
    assert "admin localhost:2019"[19] == '9' && |"admin localhost:2019"| == 20;
    assert "roll_size 100MiB"[15] == 'B' && |"roll_size 100MiB"| == 16;
    assert !IsSpace('9') && !IsSpace('B');
    hide HeaderWords, LineOf, OpenOf, IsSpace;
    BareBrace();
    TextLine(1, "admin localhost:2019");
    TextLine(3, "roll_size 100MiB");
  }

  lemma LogFinds(a: string)
    ensures (exists w :: FindsOn(OpenOf(1, ["log "]), w, a)) <==> a == "log"
  {
    hide HeaderWords, OpenOf, FindsOn, FindsAddress, LetterWord;
    LogWords();
    FindsOnWords(OpenOf(1, ["log "]), ["log"], a);
    WordFound("log", a);
    assert "log" in ["log"];
  }

  lemma FiveLines(l0: string, l1: string, l2: string, l3: string, l4: string, a: string)
    requires HeaderWords(l0) == [] && HeaderWords(l1) == [] && HeaderWords(l4) == []
    ensures FindsAmong([l0, l1, l2, l3, l4], a) <==> (exists w :: FindsOn(l2, w, a)) || exists w :: FindsOn(l3, w, a)
  {
    hide HeaderWords, FindsOn;
    AmongNone([l0, l1], a);
    AmongNone([l4], a);
    AmongOne(l2, a);
    AmongOne(l3, a);
    AmongConcat([l0, l1], [l2], a);
    AmongConcat([l0, l1] + [l2], [l3], a);
    AmongConcat([l0, l1] + [l2] + [l3], [l4], a);
    hide FindsAmong;
    assert [l0, l1, l2, l3, l4] == [l0, l1] + [l2] + [l3] + [l4];
  }

  lemma HeadFinds(logDir: string, a: string)
    ensures FindsAmong(OptionHead(logDir), a) <==> OptionFinds(logDir, a)
  {
    hide OpenOf, LineOf, HeaderWords, FindsOn, FindsAmong, DirFinds;
    QuietOptions();
    LogFinds(a);
    OutputFinds(logDir, a);
    FiveLines(OpenOf(0, []), LineOf(1, ["admin localhost:2019"]), OpenOf(1, ["log "]),
              OpenOf(2, ["output file ", logDir, "/caddy.log "]), LineOf(3, ["roll_size 100MiB"]), a);
  }

  lemma {:induction false} SplitUnlines(lines: seq<string>)
    requires forall line | line in lines :: '\n' !in line
    ensures Split(Unlines(lines), '\n') == lines + [""]
  {
    if lines == [] {
      assert Unlines(lines) == "";
    } else {
      assert lines[0] in lines && forall line | line in lines[1..] :: line in lines;
      SplitUnlines(lines[1..]);
      SplitAtSep(lines[0], Unlines(lines[1..]), '\n');
      assert Unlines(lines) == lines[0] + ['\n'] + Unlines(lines[1..]);
      assert [lines[0]] + (lines[1..] + [""]) == lines + [""];
    }
  }

  lemma PartsOneLine(indent: nat, parts: seq<string>)
    requires AllPlain(parts)
    ensures '\n' !in LineOf(indent, parts) && '\n' !in OpenOf(indent, parts) && '\n' !in CloseOf(indent)
  {
    FmtPlain(parts);
    TabsPlain(indent);
    PlainMembers(Fmt(parts));
    PlainMembers(Tabs(indent));
  }

  lemma BannerOneLine(now: string)
    requires Plain(now)
    ensures forall line | line in BannerLines(now) :: '\n' !in line
  {
    PreambleWordsPlain();
    hide Plain;
    PartsOneLine(0, RULE);
    PartsOneLine(0, ["# Auto-generated by Pdai"]);
    PartsOneLine(0, ["# DO NOT EDIT MANUALLY \U{2014} ", "changes will be overwritten"]);
    PartsOneLine(0, ["# Generated at: ", now]);
    PartsOneLine(0, []);
    hide LineOf;
  }

  lemma OptionOneLine(logDir: string)
    requires Plain(logDir)
    ensures forall line | line in OptionHead(logDir) + OptionTail() :: '\n' !in line
  {
    LogWordsPlain();
    hide Plain;
    PartsOneLine(0, []);
    PartsOneLine(1, ["admin localhost:2019"]);
    PartsOneLine(1, ["log "]);
    PartsOneLine(2, ["output file ", logDir, "/caddy.log "]);
    PartsOneLine(3, ["roll_size 100MiB"]);
    PartsOneLine(3, ["roll_keep 5"]);
    PartsOneLine(2, ["level INFO"]);
    hide LineOf, OpenOf, CloseOf;
  }

  /** The preamble makes the scan find exactly "log", "output" and "file", and the log directory if that reads
      as an address. */
  lemma PreambleFinds(logDir: string, now: string, a: string)
    requires Plain(logDir) && Plain(now)
    ensures Finds(Unlines(PreambleLines(logDir, now)), a) <==> OptionFinds(logDir, a)
  {
    var lines := PreambleLines(logDir, now);
    BannerOneLine(now);
    OptionOneLine(logDir);
    BannerNone(now, a);
    HeadFinds(logDir, a);
    TailNone(a);
    EmptyLine();
    hide BannerLines, OptionHead, OptionTail, HeaderWords, FindsOn, Unlines, Split, OptionFinds, Plain;
    assert lines == BannerLines(now) + OptionHead(logDir) + OptionTail();
    assert forall line | line in lines :: line in BannerLines(now) || line in OptionHead(logDir) + OptionTail();
    SplitUnlines(lines);
    AmongText(Unlines(lines), a);
    AmongConcat(lines, [""], a);
    AmongNone([""], a);
    AmongConcat(BannerLines(now) + OptionHead(logDir), OptionTail(), a);
    AmongConcat(BannerLines(now), OptionHead(logDir), a);
    hide FindsAmong;
  }

  // ---------------------------------------------------------------------------------------------
  // The whole file
  // ---------------------------------------------------------------------------------------------

  /** The block of host `n` promises the address, or a line inside that block is taken for a header. */
  ghost predicate FoundIn(hosts: seq<Host>, blocks: seq<Block>, n: int, a: string)
    requires |blocks| == |hosts|
  {
    0 <= n < |blocks| && (Promises(hosts[n], blocks[n], a) || Finds(BodyText(blocks[n]), a))
  }

  /** The scan of a rendered file finds exactly the addresses that the blocks promise, the words of the
      preamble, and what stands on lines inside a block that end in an opening brace. */
  lemma FoundExactly(hosts: seq<Host>, logDir: string, now: string, blocks: seq<Block>, a: string)
    requires Plain(logDir) && Plain(now) && AreBlocks(hosts, blocks) && forall h | h in hosts :: Validated(h)
    ensures Finds(FileText(Unlines(PreambleLines(logDir, now)), blocks), a) <==>
              OptionFinds(logDir, a) || exists n :: FoundIn(hosts, blocks, n, a)
  {
    hide Plain, Validated, IsBlock, Promises, Finds, OptionFinds, PreambleLines, Unlines, BodyText, BlockText, FileText;
    var preamble := Unlines(PreambleLines(logDir, now));
    PreambleEnds(logDir, now);
    PreambleFinds(logDir, now, a);
    FileFinds(preamble, blocks, a);
    forall n ensures FindsInBlock(blocks, n, a) <==> FoundIn(hosts, blocks, n, a) {
      if 0 <= n < |blocks| {
        assert hosts[n] in hosts && IsBlock(hosts[n], blocks[n]);
        BlockFinds(hosts[n], blocks[n], a);
        HeaderExact(hosts[n], blocks[n], a);
      }
    }
    hide FoundIn, FindsInBlock;
  }

  // ---------------------------------------------------------------------------------------------
  // An overriding block that leaves out a name of its host
  // ---------------------------------------------------------------------------------------------

  lemma LetterLabels(x: string, y: string)
    requires LetterWord(x) && LetterWord(y)
    ensures var d := x + "." + y; DomainShape(d) && ':' !in d
  {
    var d := x + "." + y;
    LetterLabel(x);
    LetterLabel(y);
    assert d == x + ['.'] + y;
    SplitAtSep(x, y, '.');
    SplitNoSep(y, '.');
    assert d[0] == x[0] != '*' && "*."[0] == '*';
    hide LetterWord, Label, Solid, HasAny, Lower;
    assert ':' !in d;
    NoLast(d, ':');
    assert TrimPrefix(d, "*.") == d;
    hide Split;
    assert Split(d, '.') == [x] + [y];
    forall l | l in Split(d, '.') ensures Label(l) {}
  }

  lemma LetterChars(x: string, y: string)
    requires LetterWord(x) && LetterWord(y)
    ensures var d := x + "." + y; DomainChars(d) && Lower(d) == d && 3 <= |d| <= 41
  {
    var d := x + "." + y;
    forall i | 0 <= i < |d| ensures DomainChar(d[i]) && LowerChar(d[i]) == d[i] {}
  }

  lemma LetterDomain(x: string, y: string)
    requires LetterWord(x) && LetterWord(y)
    ensures ValidDomain(x + "." + y) && Lower(x + "." + y) == x + "." + y && ':' !in x + "." + y
  {
    LetterLabels(x, y);
    LetterChars(x, y);
    hide LetterWord, DomainShape, DomainChars, Lower;
    LowerHarmless(x + "." + y);
    NoPort(x + "." + y);
    hide SplitDomainPort, HasAny;
  }

  lemma OwnAddress(d: string)
    requires ValidDomain(d) && Lower(d) == d
    ensures forall a :: IsAddress(d, a) <==> a == d
    ensures NormalizeAddress(Lower(TrimSpace(d))).Some? && TrimSpace(d) != ""
    ensures forall domains: seq<string> | d in domains :: Granted(domains, d)
  {
    DomainWord(d);
    NormalizedParts(d);
    hide ValidDomain, NormalizeAddress, OneWord, Lower;
    forall domains: seq<string> | d in domains ensures Granted(domains, d) {
      GrantsOwn(d);
      assert GrantedBy(domains, NormalizeAddress(d).value);
    }
  }

  lemma GrantsOwn(d: string)
    requires TrimSpace(d) == d && Lower(d) == d && d != "" && NormalizeAddress(d).Some?
    ensures Grants(d, NormalizeAddress(d).value)
  {
  }

  function OwnNames(h: Host): seq<string> {
    [h.domain] + seq(|h.domains|, i requires 0 <= i < |h.domains| => h.domains[i].name)
  }

  /** A block accepted for the host's own names lists only what these names grant; nothing makes it list
      all of them. */
  lemma OwnBlockGranted(h: Host, block: Block, a: string)
    requires IsBlock(h, block) && block.Override? && Acceptable(OwnNames(h), h.fullCaddyBlock)
    requires Promises(h, block, a)
    ensures exists n: Address :: n.exact == a && GrantedBy(OwnNames(h), n)
  {
    hide NormalizeAddress, GrantedBy, OwnNames;
    var f := TrimSpace(Split(block.text, '\n')[0]);
    var raw :| raw in HeaderAddresses(f) && IsAddress(raw, a);
    assert Granted(OwnNames(h), raw);
  }

  /** A host with two names and a block for the first one only. */
  function TwoNames(d: string, e: string): Host {
    Host(d, [ExtraDomain(e, 0)], "proxy", None, None, None, "", 0, "", "", "auto", None, None, None, "", "", "",
         None, "", "", SmallBlock(d), "", None, "", "", [], [], [], [], [])
  }

  lemma BothNames(d: string, e: string)
    requires ValidDomain(d) && ValidDomain(e) && Lower(d) == d && Lower(e) == e
    ensures DomainsOk([d, e]) && Granted([d, e], d)
  {
    hide ValidDomain, NormalizeAddress, Lower, TrimSpace, Granted;
    OwnAddress(d);
    OwnAddress(e);
    assert d in [d, e];
  }

  lemma TwoNamesAccepted(d: string, e: string)
    requires ValidDomain(d) && ValidDomain(e) && Lower(d) == d && Lower(e) == e
    ensures Acceptable([d, e], TwoNames(d, e).fullCaddyBlock)
  {
    hide *;
    BothNames(d, e);
    DomainWord(d);
    SmallAccepted([d, e], d);
    TwoNamesBlock(d, e);
  }

  lemma TwoNamesBlock(d: string, e: string)
    ensures TwoNames(d, e).fullCaddyBlock == SmallBlock(d)
  {
  }

  lemma ValidatedFrom(h: Host, e: string, domains: seq<string>)
    requires h == TwoNames(h.domain, e) && TrimSpace(e) == e
    requires ValidDomain(h.domain) && ValidDomain(e) && Acceptable(domains, h.fullCaddyBlock)
    ensures Validated(h)
  {
    hide ValidDomain, Acceptable, TrimSpace;
    EmptyNeutral();
    assert forall x | x in h.domains :: x.name == e;
  }

  lemma TwoNamesValid(d: string, e: string)
    requires ValidDomain(d) && ValidDomain(e) && Lower(d) == d && Lower(e) == e
    ensures Validated(TwoNames(d, e)) && Acceptable([d, e], TwoNames(d, e).fullCaddyBlock)
  {
    TwoNamesAccepted(d, e);
    DomainWord(e);
    hide ValidDomain, Acceptable, OneWord, Validated;
    ValidatedFrom(TwoNames(d, e), e, [d, e]);
  }

  lemma SmallBody(d: string)
    requires OneWord(d)
    ensures var block := Override(SmallBlock(d));
            HeaderLine(block) == d + " {" && BodyText(block) == "}\n\n" && TrimSpace(SmallBlock(d)) == SmallBlock(d)
    ensures TrimSpace(d + " {") == d + " {" && SmallBlock(d) != ""
  {
    WordParts(d);
    SmallLines(d);
    SmallFilled(d);
    var lines := [d + " {", "}"];
    assert lines[1..] == ["}"] && ["}"][1..] == [];
    assert Unlines(["}"]) == "}" + "\n" + "";
  }

  lemma BodyNone(a: string)
    ensures !Finds("}\n\n", a)
  {
    NotHeader("}");
    EmptyLine();
    LastLines();
    hide *;
    AmongText("}\n\n", a);
    AmongNone(["}", "", ""], a);
  }

  lemma LastLines()
    ensures Split("}\n\n", '\n') == ["}", "", ""]
  {
    assert "}\n\n" == "}" + ['\n'] + ("" + ['\n'] + "");
    SplitAtSep("}", "" + ['\n'] + "", '\n');
    SplitAtSep("", "", '\n');
  }

  lemma SmallPromise(h: Host, d: string, a: string)
    requires ValidDomain(d) && Lower(d) == d
    ensures Promises(h, Override(SmallBlock(d)), a) <==> a == d
  {
    DomainWord(d);
    SmallBody(d);
    SmallAddresses(d);
    OwnAddress(d);
    hide ValidDomain, OneWord, IsAddress, HeaderAddresses, TrimSpace;
    assert d in [d];
  }

  lemma OnlyBlock(d: string, e: string, blocks: seq<Block>)
    requires AreBlocks([TwoNames(d, e)], blocks) && OneWord(d)
    ensures blocks == [Override(SmallBlock(d))]
  {
    SmallBody(d);
    assert IsBlock([TwoNames(d, e)][0], blocks[0]);
    hide OneWord, SmallBlock, Lists, Opens;
  }

  lemma OneFound(h: Host, block: Block, a: string)
    ensures (exists n :: FoundIn([h], [block], n, a)) <==> Promises(h, block, a) || Finds(BodyText(block), a)
  {
    hide Promises, Finds, BodyText;
    assert FoundIn([h], [block], 0, a) <==> Promises(h, block, a) || Finds(BodyText(block), a);
  }

  /** The block is accepted for the host's own two names, and the scan of the file finds the first name, the
      words of the preamble, and nothing else: the second name is missed. */
  lemma OverrideLosesAddress(d: string, e: string, logDir: string, now: string, blocks: seq<Block>, a: string)
    requires ValidDomain(d) && ValidDomain(e) && Lower(d) == d && Lower(e) == e
    requires Plain(logDir) && Plain(now) && AreBlocks([TwoNames(d, e)], blocks)
    ensures Validated(TwoNames(d, e)) && Acceptable([d, e], TwoNames(d, e).fullCaddyBlock)
    ensures Finds(FileText(Unlines(PreambleLines(logDir, now)), blocks), a) <==> OptionFinds(logDir, a) || a == d
  {
    hide *;
    var h := TwoNames(d, e);
    TwoNamesValid(d, e);
    DomainWord(d);
    SmallBody(d);
    OnlyBlock(d, e, blocks);
    SmallPromise(h, d, a);
    BodyNone(a);
    OneFound(h, Override(SmallBlock(d)), a);
    FoundExactly([h], logDir, now, blocks, a);
  }

  /** Two sites of letters: "b.com" is a name of the host and is not found. */
  lemma MissedExample(logDir: string, now: string, blocks: seq<Block>)
    requires Plain(logDir) && Plain(now) && !DirFinds(logDir, "b" + "." + "com")
    requires AreBlocks([TwoNames("a" + "." + "com", "b" + "." + "com")], blocks)
    ensures !Finds(FileText(Unlines(PreambleLines(logDir, now)), blocks), "b" + "." + "com")
    ensures Finds(FileText(Unlines(PreambleLines(logDir, now)), blocks), "log")
  {
    hide *;
    var d, e := "a" + "." + "com", "b" + "." + "com";
    Letters();
    LetterDomain("a", "com");
    LetterDomain("b", "com");
    OverrideLosesAddress(d, e, logDir, now, blocks, e);
    OverrideLosesAddress(d, e, logDir, now, blocks, "log");
    SomeOption(logDir, e);
  }

  lemma Letters()
    ensures LetterWord("a") && LetterWord("b") && LetterWord("com") && "a" + "." + "com" != "b" + "." + "com"
  {
    assert ("a" + "." + "com")[0] == 'a' && ("b" + "." + "com")[0] == 'b';
  }

  lemma SomeOption(logDir: string, e: string)
    ensures OptionFinds(logDir, "log")
    ensures e == "b" + "." + "com" ==> (OptionFinds(logDir, e) <==> DirFinds(logDir, e))
  {
    hide DirFinds;
    if e == "b" + "." + "com" {
      assert e[0] == 'b' && "log"[0] == 'l' && "output"[0] == 'o' && "file"[0] == 'f';
    }
  }

  /** An absolute log directory without spaces and commas adds nothing. */
  lemma AbsoluteDirSilent(logDir: string, a: string)
    requires Solid(logDir) && ',' !in logDir && logDir != "" && logDir[0] == '/'
    ensures !DirFinds(logDir, a)
  {
    var x := logDir + "/caddy.log";
    assert Solid("/caddy.log") && ',' !in "/caddy.log";
    assert Solid(x) && ',' !in x && x[0] == '/';
    CommasNone(x);
    SolidFirst("", x, "");
    assert x + "" == x && "" + x == x && Fields(x) == [x];
    SlashNone(x, a);
    hide FindsAddress, Fields, CommasToSpaces;
  }

  lemma SlashNone(x: string, a: string)
    requires Solid(x) && x != "" && x[0] == '/'
    ensures !FindsAddress(x, a)
  {
    SolidTrimmed(x);
    var low := Lower(x);
    assert low[0] == '/';
    assert "http://"[0] == 'h' && "https://"[0] == 'h';
    assert StripScheme(low) == low;
    NoSlashFirst(low);
  }

  lemma NoSlashFirst(d: string)
    ensures ValidDomain(d) ==> d != "" && d[0] != '/'
  {
    if ValidDomain(d) {
      ValidNotEmpty(d);
      assert DomainChar(d[0]);
    }
  }

  /** A second site behind an accepted one, in letters: "a.com {", "} b.com { }". */
  lemma SecondSiteExample()
    ensures var d, e := "a" + "." + "com", "b" + "." + "com";
            Acceptable([d], SmallBlock(d)) && Acceptable([d], SmallBlock(d) + (" " + e + " { }"))
  {
    hide *;
    var d, e := "a" + "." + "com", "b" + "." + "com";
    Letters();
    LetterDomain("a", "com");
    LetterDomain("b", "com");
    DomainWord(d);
    DomainWord(e);
    SingleName(d);
    SmallAccepted([d], d);
    SecondSiteAccepted([d], d, e);
  }

  lemma SingleName(d: string)
    requires ValidDomain(d) && Lower(d) == d
    ensures DomainsOk([d]) && Granted([d], d)
  {
    hide ValidDomain, NormalizeAddress, Lower, TrimSpace, Granted;
    OwnAddress(d);
    assert d in [d];
  }
}
