/** internal/caddy/validate.go: reading the site addresses back from a rendered Caddyfile. */
module SiteAddresses {
  import opened Text
  import opened Words
  import opened Optional
  import opened Braces
  import opened CaddyValidate
  import opened CaddyRender
  import opened Caddyfile

  lemma {:induction false} JoinAt(xs: seq<string>, i: nat) returns (a: string, b: string)
    requires i < |xs|
    ensures Join(xs, ' ') == a + xs[i] + b
    ensures EndsSpace(a) && StartsSpace(b)
  {
    if |xs| == 1 {
      a, b := "", "";
    } else if i == 0 {
      a, b := "", " " + Join(xs[1..], ' ');
      assert a + xs[0] + b == xs[0] + [' '] + Join(xs[1..], ' ');
    } else {
      a, b := JoinAt(xs[1..], i - 1);
      a := xs[0] + " " + a;
      assert xs[0] + [' '] + Join(xs[1..], ' ') == a + xs[i] + b;
    }
  }

  lemma BlankEnds(a: string, l: string)
    requires EndsSpace(a) && Blank(l)
    ensures EndsSpace(a + l)
  {
    if l != "" { assert l[|l| - 1] in l; } else { assert a + l == a; }
  }

  lemma BlankStarts(r: string, b: string)
    requires StartsSpace(b) && Blank(r)
    ensures StartsSpace(r + b)
  {
    if r != "" { assert r[0] in r; } else { assert r + b == b; }
  }

  lemma Regroup(a: string, l: string, w: string, r: string, b: string)
    ensures (a + l) + w + (r + b) == a + (l + w + r) + b
  {
  }

  /** Joined by spaces, every element with one word gives that word back. */
  lemma FieldsJoin(xs: seq<string>, i: nat)
    requires i < |xs| && TrimSpace(xs[i]) != "" && Solid(TrimSpace(xs[i]))
    ensures TrimSpace(xs[i]) in Fields(Join(xs, ' '))
  {
    var w := TrimSpace(xs[i]);
    var a, b := JoinAt(xs, i);
    var l, r := TrimParts(xs[i]);
    hide Join, TrimSpace, Solid;
    BlankEnds(a, l);
    BlankStarts(r, b);
    FieldsFind(a + l, w, r + b);
    Regroup(a, l, w, r, b);
  }

  lemma {:induction false} FieldsBlankLeft(l: string, s: string)
    requires Blank(l)
    ensures Fields(l + s) == Fields(s)
  {
    if l != "" {
      assert l[0] in l && (l + s)[1..] == l[1..] + s && forall c | c in l[1..] :: c in l;
      FieldsBlankLeft(l[1..], s);
      assert [] + Fields(l[1..] + s) == Fields(l[1..] + s);
    } else {
      assert l + s == s;
    }
  }

  lemma {:induction false} FieldsBlank(word: string, r: string)
    requires Blank(r)
    ensures FieldsFrom(word, r) == FieldsFrom(word, "")
    decreases |r|
  {
    if r != "" {
      assert r[0] in r && forall c | c in r[1..] :: c in r;
      FieldsBlank("", r[1..]);
    }
  }

  lemma {:induction false} FieldsBlankRight(word: string, s: string, r: string)
    requires Blank(r)
    ensures FieldsFrom(word, s + r) == FieldsFrom(word, s)
    decreases |s|
  {
    if s == "" {
      assert s + r == r;
      FieldsBlank(word, r);
    } else {
      assert (s + r)[1..] == s[1..] + r;
      FieldsBlankRight("", s[1..], r);
      FieldsBlankRight(word + [s[0]], s[1..], r);
    }
  }

  lemma FieldsTrim(s: string)
    ensures Fields(TrimSpace(s)) == Fields(s)
  {
    var l, r := TrimParts(s);
    FieldsBlankLeft(l, TrimSpace(s) + r);
    FieldsBlankRight("", TrimSpace(s), r);
    assert s == l + (TrimSpace(s) + r);
  }

  // ---------------------------------------------------------------------------------------------
  // ExtractSiteAddresses
  // ---------------------------------------------------------------------------------------------

  /** strings.NewReplacer(",", " ") */
  function CommasToSpaces(s: string): string {
    seq(|s|, i requires 0 <= i < |s| => if s[i] == ',' then ' ' else s[i])
  }

  /** The words in front of the brace of a header line. */
  function HeaderWords(line: string): seq<string> {
    var t := TrimSpace(line);
    if t == "" || t[0] == '#' || t == "{" || !HasSuffix(t, "{") then []
    else Fields(CommasToSpaces(TrimSpace(t[..|t| - 1])))
  }

  /** The scan finds address `a` on some line. */
  ghost predicate Finds(content: string, a: string) {
    exists line, w :: line in Split(content, '\n') && FindsOn(line, w, a)
  }

  ghost predicate FindsOn(line: string, w: string, a: string) {
    w in HeaderWords(line) && NormalizeAddress(w).Some? && Lower(NormalizeAddress(w).value.exact) == a
  }

  ghost predicate FindsBefore(lines: seq<string>, n: nat, a: string)
    requires n <= |lines|
  {
    exists i, w :: 0 <= i < n && FindsOn(lines[i], w, a)
  }

  method ScanHeader(line: string) returns (addrs: set<string>)
    ensures forall a :: a in addrs <==> exists w :: FindsOn(line, w, a)
  {
    hide NormalizeAddress, HeaderWords, Lower;
    addrs := {};
    var words := HeaderWords(line);
    for n := 0 to |words|
      invariant forall a :: a in addrs <==> exists j :: 0 <= j < n && FindsOn(line, words[j], a)
    {
      assert words[n] in words;
      var address := NormalizeAddress(words[n]);
      if address.Some? {
        addrs := addrs + {Lower(address.value.exact)};
        assert FindsOn(line, words[n], Lower(address.value.exact));
      }
    }
    forall a ensures a in addrs <==> exists w :: FindsOn(line, w, a) {
      if w :| FindsOn(line, w, a) {
        var j :| 0 <= j < |words| && words[j] == w;
      }
    }
  }

  method ExtractSiteAddresses(content: string) returns (addrs: set<string>)
    ensures forall a :: a in addrs <==> Finds(content, a)
  {
    hide FindsOn;
    addrs := {};
    var lines := Split(content, '\n');
    for n := 0 to |lines|
      invariant forall a :: a in addrs <==> FindsBefore(lines, n, a)
    {
      var found := ScanHeader(lines[n]);
      forall a ensures a in addrs + found <==> FindsBefore(lines, n + 1, a) {
        OneMoreLine(lines, n, a);
      }
      addrs := addrs + found;
    }
    forall a ensures FindsBefore(lines, |lines|, a) <==> Finds(content, a) {
      AllLines(content, a);
    }
  }

  lemma OneMoreLine(lines: seq<string>, n: nat, a: string)
    requires n < |lines|
    ensures FindsBefore(lines, n + 1, a) <==> FindsBefore(lines, n, a) || exists w :: FindsOn(lines[n], w, a)
  {
    hide FindsOn;
    if i, w :| 0 <= i < n && FindsOn(lines[i], w, a) { assert 0 <= i < n + 1; }
  }

  lemma AllLines(content: string, a: string)
    ensures var lines := Split(content, '\n'); FindsBefore(lines, |lines|, a) <==> Finds(content, a)
  {
    hide FindsOn;
    var lines := Split(content, '\n');
    if line, w :| line in lines && FindsOn(line, w, a) {
      var i :| 0 <= i < |lines| && lines[i] == line;
      assert FindsOn(lines[i], w, a);
    }
    if i, w :| 0 <= i < |lines| && FindsOn(lines[i], w, a) {
      assert lines[i] in lines;
    }
  }

  // ---------------------------------------------------------------------------------------------
  // Valid domains survive lower-casing
  // ---------------------------------------------------------------------------------------------

  /** The characters of a domain. */
  predicate DomainChar(c: char) { Alnum(c) || c == '-' || c == '.' || c == ':' || c == '*' }

  predicate DomainChars(d: string) {
    forall i | 0 <= i < |d| :: DomainChar(d[i])
  }

  lemma DomainCharsConcat(a: string, b: string)
    requires DomainChars(a) && DomainChars(b)
    ensures DomainChars(a + b)
  {
  }

  lemma {:induction false} LabelsChars(s: string)
    requires Labels(s)
    ensures DomainChars(s)
  {
    var labels := Split(s, '.');
    JoinSplit(s, '.');
    forall l | l in labels ensures DomainChars(l) { assert Label(l); }
    JoinChars(labels);
  }

  lemma {:induction false} JoinChars(xs: seq<string>)
    requires forall x | x in xs :: DomainChars(x)
    ensures DomainChars(Join(xs, '.'))
  {
    if |xs| > 1 {
      assert xs[0] in xs && forall x | x in xs[1..] :: x in xs;
      JoinChars(xs[1..]);
      DomainCharsConcat(xs[0], ".");
      DomainCharsConcat(xs[0] + ".", Join(xs[1..], '.'));
    } else if |xs| == 1 {
      assert xs[0] in xs;
    }
  }

  lemma PortChars(body: string, i: nat)
    requires i < |body| && body[i] == ':' && DomainChars(body[..i]) && Digits(body[i + 1..])
    ensures DomainChars(body)
  {
    assert forall j | 0 <= j < i :: body[j] == body[..i][j];
    assert forall j | i < j < |body| :: body[j] == body[i + 1..][j - i - 1];
  }

  lemma ShapeChars(d: string)
    requires DomainShape(d)
    ensures DomainChars(TrimPrefix(d, "*."))
  {
    var body := TrimPrefix(d, "*.");
    var i := LastIndexOf(body, ':');
    if i < 0 {
      LabelsChars(body);
    } else {
      LabelsChars(body[..i]);
      hide Labels;
      PortChars(body, i);
    }
  }

  lemma ValidChars(d: string)
    requires DomainShape(d)
    ensures DomainChars(d)
  {
    ShapeChars(d);
    hide DomainShape;
    if HasPrefix(d, "*.") {
      assert d == "*." + d[2..];
      DomainCharsConcat("*.", d[2..]);
    }
  }

  lemma CharsSolid(d: string)
    requires DomainChars(d)
    ensures Solid(d) && ',' !in d && '/' !in d && '#' !in d
  {
    forall i | 0 <= i < |d| ensures !IsSpace(d[i]) { assert DomainChar(d[i]); }
  }

  lemma LowerConcat(a: string, b: string)
    ensures Lower(a + b) == Lower(a) + Lower(b)
  {
  }

  lemma LowerSame(c: char)
    requires DomainChar(c)
    ensures DomainChar(LowerChar(c)) && (Alnum(c) <==> Alnum(LowerChar(c)))
    ensures !Alnum(c) || '0' <= c <= '9' ==> LowerChar(c) == c
  {
  }

  lemma LowerLabel(l: string)
    requires Label(l)
    ensures Label(Lower(l))
  {
    forall i | 0 <= i < |l| ensures Alnum(Lower(l)[i]) || Lower(l)[i] == '-' {
      assert DomainChar(l[i]);
      LowerSame(l[i]);
    }
    LowerSame(l[0]);
    LowerSame(l[|l| - 1]);
  }

  function Lowered(xs: seq<string>): seq<string> {
    seq(|xs|, i requires 0 <= i < |xs| => Lower(xs[i]))
  }

  lemma {:induction false} JoinLowered(xs: seq<string>)
    ensures Join(Lowered(xs), '.') == Lower(Join(xs, '.'))
  {
    if |xs| > 1 {
      assert Lowered(xs)[1..] == Lowered(xs[1..]);
      JoinLowered(xs[1..]);
      LowerConcat(xs[0] + ".", Join(xs[1..], '.'));
      LowerConcat(xs[0], ".");
      assert Lower(".") == ".";
    }
  }

  lemma LowerKeepsOut(x: string)
    requires '.' !in x
    ensures '.' !in Lower(x)
  {
    forall i | 0 <= i < |x| ensures Lower(x)[i] != '.' { assert x[i] in x; }
  }

  /** Splitting and lower-casing commute. */
  lemma SplitLower(s: string)
    ensures Split(Lower(s), '.') == Lowered(Split(s, '.'))
  {
    var xs := Split(s, '.');
    JoinSplit(s, '.');
    JoinLowered(xs);
    forall y | y in Lowered(xs) ensures '.' !in y {
      var i :| 0 <= i < |xs| && Lower(xs[i]) == y;
      assert xs[i] in xs;
      LowerKeepsOut(xs[i]);
    }
    SplitJoin(Lowered(xs), '.');
  }

  lemma LowerLabels(s: string)
    requires Labels(s)
    ensures Labels(Lower(s))
  {
    var xs := Split(s, '.');
    SplitLower(s);
    forall l | l in Split(Lower(s), '.') ensures Label(l) {
      var i :| 0 <= i < |xs| && Lower(xs[i]) == l;
      assert xs[i] in xs;
      LowerLabel(xs[i]);
    }
  }

  lemma LowerDigits(s: string)
    requires Digits(s)
    ensures Lower(s) == s
  {
  }

  lemma {:induction false} LastIndexLower(s: string, c: char)
    requires c == ':'
    ensures LastIndexOf(Lower(s), c) == LastIndexOf(s, c)
  {
    if s != "" {
      assert Lower(s)[..|s| - 1] == Lower(s[..|s| - 1]);
      LastIndexLower(s[..|s| - 1], c);
    }
  }

  lemma LowerSlices(s: string, i: nat)
    requires i < |s|
    ensures Lower(s)[..i] == Lower(s[..i]) && Lower(s)[i + 1..] == Lower(s[i + 1..])
  {
  }

  lemma LowerShape(d: string)
    requires DomainShape(d) && DomainChars(d)
    ensures DomainShape(Lower(d))
  {
    var body := TrimPrefix(d, "*.");
    assert TrimPrefix(Lower(d), "*.") == Lower(body) by { LowerWildcard(d); }
    var i := LastIndexOf(body, ':');
    LastIndexLower(body, ':');
    if i < 0 {
      LowerLabels(body);
    } else {
      LowerLabels(body[..i]);
      LowerDigits(body[i + 1..]);
      LowerSlices(body, i);
    }
  }

  lemma LowerWildcard(d: string)
    ensures TrimPrefix(Lower(d), "*.") == Lower(TrimPrefix(d, "*."))
  {
    if |d| >= 2 {
      assert Lower(d)[2..] == Lower(d[2..]);
      assert Lower(d)[0] == '*' <==> d[0] == '*';
      assert Lower(d)[1] == '.' <==> d[1] == '.';
      assert "*." <= d <==> d[0] == '*' && d[1] == '.';
      assert "*." <= Lower(d) <==> Lower(d)[0] == '*' && Lower(d)[1] == '.';
    }
  }

  lemma DigitsLower(port: string)
    ensures Digits(Lower(port)) <==> Digits(port)
    ensures Digits(port) ==> Lower(port) == port
  {
    forall i | 0 <= i < |port| ensures '0' <= Lower(port)[i] <= '9' <==> '0' <= port[i] <= '9' {}
  }

  lemma LowerParts(d: string)
    ensures SplitDomainPort(Lower(d)).hasPort == SplitDomainPort(d).hasPort
    ensures SplitDomainPort(Lower(d)).host == Lower(SplitDomainPort(d).host)
    ensures SplitDomainPort(d).hasPort ==> SplitDomainPort(Lower(d)).port == SplitDomainPort(d).port
  {
    LastIndexLower(d, ':');
    var i := LastIndexOf(d, ':');
    if 0 <= i < |d| - 1 {
      LowerSlices(d, i);
      DigitsLower(d[i + 1..]);
      hide Digits, Lower;
    }
  }

  lemma LowerHarmless(d: string)
    requires DomainChars(d)
    ensures !HasAny(Lower(d), " \t\n\r{}\"'`;#$\\")
  {
    forall i | 0 <= i < |d| ensures Lower(d)[i] !in " \t\n\r{}\"'`;#$\\" {
      assert DomainChar(d[i]);
      LowerSame(d[i]);
      HarmlessChar(Lower(d)[i]);
    }
  }

  lemma HarmlessChar(c: char)
    requires DomainChar(c)
    ensures c !in " \t\n\r{}\"'`;#$\\"
  {
  }

  /** Lower-casing a valid domain gives a valid domain. */
  lemma LowerValid(d: string)
    requires ValidDomain(d)
    ensures ValidDomain(Lower(d))
  {
    ValidChars(d);
    LowerShape(d);
    LowerParts(d);
    LowerHarmless(d);
  }

  /** The address under which a domain is found. */
  lemma NormalizeDomain(prefix: string, d: string)
    requires ValidDomain(d) && (prefix == "" || prefix == "http://")
    ensures
      var n := NormalizeAddress(prefix + d);
      n.Some? && n.value.exact == Lower(d) && Lower(n.value.exact) == Lower(d)
    ensures TrimSpace(prefix + d) == prefix + d && Solid(prefix + d) && prefix + d != "" && ',' !in prefix + d
  {
    hide *;
    ValidNotEmpty(d);
    LowerValid(d);
    SolidAddress(prefix, d);
    LowerConcat(prefix, d);
    StripLower(prefix, d);
    LowerTwice(d);
    NormalizesTo(prefix + d, Lower(d));
  }

  lemma ValidNotEmpty(d: string)
    requires ValidDomain(d)
    ensures d != "" && DomainChars(d)
  {
    ValidChars(d);
  }

  lemma LowerTwice(d: string)
    ensures Lower(Lower(d)) == Lower(d)
  {
  }

  lemma NormalizesTo(x: string, e: string)
    requires StripScheme(Lower(TrimSpace(x))) == e && ValidDomain(e)
    ensures NormalizeAddress(x).Some? && NormalizeAddress(x).value.exact == e
  {
  }

  lemma SolidAddress(prefix: string, d: string)
    requires DomainChars(d) && d != "" && (prefix == "" || prefix == "http://")
    ensures TrimSpace(prefix + d) == prefix + d && Solid(prefix + d) && prefix + d != "" && ',' !in prefix + d
  {
    CharsSolid(d);
    var x := prefix + d;
    assert Solid(prefix);
    assert forall i | 0 <= i < |x| :: x[i] == if i < |prefix| then prefix[i] else d[i - |prefix|];
    SolidTrimmed(x);
  }

  lemma SolidTrimmed(x: string)
    requires Solid(x)
    ensures TrimSpace(x) == x
  {
  }

  lemma StripLower(prefix: string, d: string)
    requires DomainChars(d) && (prefix == "" || prefix == "http://")
    ensures Lower(prefix) == prefix && StripScheme(prefix + Lower(d)) == Lower(d)
  {
    var low := Lower(d);
    assert Lower("http://") == "http://";
    if prefix == "" {
      assert "" + low == low;
      NoScheme(d, "http://");
      NoScheme(d, "https://");
    } else {
      assert "http://" <= "http://" + low && ("http://" + low)[7..] == low;
    }
  }

  lemma NoScheme(d: string, s: string)
    requires DomainChars(d) && s != "" && s[|s| - 1] == '/'
    ensures !(s <= Lower(d))
  {
    if |s| <= |d| {
      var i := |s| - 1;
      assert DomainChar(d[i]);
      LowerSame(d[i]);
      assert Lower(d)[i] != '/';
    }
  }

  // ---------------------------------------------------------------------------------------------
  // Every address of every enabled host is found
  // ---------------------------------------------------------------------------------------------

  lemma SplitConcat(x: string, s: string)
    ensures Split(x + "\n" + s, '\n') == Split(x, '\n') + Split(s, '\n')
  {
    var a, b := Split(x, '\n'), Split(s, '\n');
    JoinSplit(x, '\n');
    JoinSplit(s, '\n');
    JoinConcat(a, b, '\n');
    assert forall line | line in a + b :: line in a || line in b;
    SplitJoin(a + b, '\n');
  }

  lemma LineIn(text: string, a: string, line: string, b: string)
    requires text == a + line + "\n" + b && (a == "" || EndsLine(a)) && '\n' !in line
    ensures line in Split(text, '\n')
  {
    SplitAtSep(line, b, '\n');
    if a == "" {
      assert text == line + "\n" + b;
    } else {
      var a' := a[..|a| - 1];
      assert text == a' + "\n" + (line + "\n" + b);
      SplitConcat(a', line + "\n" + b);
    }
  }

  lemma {:induction false} FileEnds(preamble: string, blocks: seq<Block>)
    requires EndsLine(preamble)
    ensures EndsLine(FileText(preamble, blocks))
  {
    if blocks != [] {
      var t := BlockText(blocks[|blocks| - 1]);
      assert EndsLine(t);
    }
  }

  /** The first line of a block is a line of the file. */
  lemma FirstLineIn(text: string, preamble: string, blocks: seq<Block>, n: nat, line: string, rest: string)
    requires text == FileText(preamble, blocks) && EndsLine(preamble) && n < |blocks|
    requires BlockText(blocks[n]) == line + "\n" + rest && '\n' !in line
    ensures line in Split(text, '\n')
  {
    var start := FileText(preamble, blocks[..n]);
    FileEnds(preamble, blocks[..n]);
    FilePrefix(preamble, blocks, n);
    hide FileText, BlockText;
    var tail := AfterLine(text, start, line, rest);
    LineIn(text, start, line, tail);
  }

  lemma AfterLine(text: string, start: string, line: string, rest: string) returns (tail: string)
    requires start + (line + "\n" + rest) <= text
    ensures text == start + line + "\n" + tail
  {
    var head := start + line + "\n";
    assert start + (line + "\n" + rest) == head + rest;
    tail := text[|head|..];
    assert head <= head + rest <= text;
  }

  /** The words of a generated header are its addresses. */
  lemma HeaderWord(addresses: seq<string>, i: nat)
    requires i < |addresses|
    requires forall a | a in addresses :: TrimSpace(a) == a && Solid(a) && a != "" && ',' !in a && Plain(a) && '#' !in a
    ensures addresses[i] in HeaderWords(Head(addresses) + "{")
  {
    var joined := Join(addresses, ' ');
    var line := Head(addresses) + "{";
    assert addresses[i] in addresses && addresses[0] in addresses;
    FieldsJoin(addresses, i);
    JoinStarts(addresses);
    assert Trimmed(line) && TrimSpace(line) == line;
    assert line[..|line| - 1] == joined + " ";
    JoinWithout(addresses, ' ', ',');
    assert Blank(" ");
    FieldsBlankRight("", joined, " ");
    FieldsTrim(joined + " ");
    NoCommas(joined + " ");
  }

  lemma JoinStarts(xs: seq<string>)
    requires |xs| > 0 && xs[0] != ""
    ensures Join(xs, ' ') != "" && Join(xs, ' ')[0] == xs[0][0]
  {
  }

  lemma NoCommas(s: string)
    requires ',' !in s
    ensures CommasToSpaces(TrimSpace(s)) == TrimSpace(s)
  {
    var l, r := TrimParts(s);
    assert forall c | c in TrimSpace(s) :: c in s;
    assert forall i | 0 <= i < |TrimSpace(s)| :: TrimSpace(s)[i] in TrimSpace(s);
  }

  /** What a block promises to list: the host's domains, or the addresses of the user's own header. */
  ghost predicate Promises(h: Host, block: Block, a: string) {
    match block
    case Generated(_, _, _, _) =>
      a == Key(h.domain) || exists d :: d in h.domains && TrimSpace(d.name) != "" && a == Key(d.name)
    case Override(text) =>
      var f := TrimSpace(Split(text, '\n')[0]);
      HasSuffix(f, "{") && exists raw :: raw in HeaderAddresses(f) && IsAddress(raw, a)
  }

  ghost predicate IsAddress(raw: string, a: string) {
    var n := NormalizeAddress(TrimSpace(raw));
    n.Some? && n.value.exact == a
  }

  lemma GeneratedFound(h: Host, block: Block, a: string) returns (w: string)
    requires Validated(h) && IsBlock(h, block) && block.Generated? && Promises(h, block, a)
    ensures FindsOn(Head(block.addresses) + "{", w, a)
  {
    var domains :| Lists(h, domains) && block.addresses == Prefixed(Scheme(h), domains);
    DomainsPlain(h, domains);
    var prefix := Scheme(h);
    var k := PromisedDomain(h, domains, a);
    hide Validated, IsBlock, Lists, Promises, ValidDomain, Plain, Solid, HeaderWords, NormalizeAddress;
    forall x | x in block.addresses
      ensures TrimSpace(x) == x && Solid(x) && x != "" && ',' !in x && Plain(x) && '#' !in x
    {
      var i :| 0 <= i < |block.addresses| && block.addresses[i] == x;
      assert domains[i] in domains;
      AddressFacts(prefix, domains[i]);
    }
    assert domains[k] in domains;
    NormalizeDomain(prefix, domains[k]);
    HeaderWord(block.addresses, k);
    w := prefix + domains[k];
    assert w == block.addresses[k];
    DomainTrimmed(domains[k]);
  }

  lemma AddressFacts(prefix: string, d: string)
    requires ValidDomain(d) && (prefix == "" || prefix == "http://")
    ensures var x := prefix + d; TrimSpace(x) == x && Solid(x) && x != "" && ',' !in x && Plain(x) && '#' !in x
  {
    hide *;
    NormalizeDomain(prefix, d);
    ValidDomainPlain(d);
    PrefixPlain(prefix);
    PlainConcat(prefix, d);
  }

  lemma PrefixPlain(prefix: string)
    requires prefix == "" || prefix == "http://"
    ensures Plain(prefix) && '#' !in prefix
  {
  }

  lemma DomainTrimmed(d: string)
    requires ValidDomain(d)
    ensures Key(d) == Lower(d)
  {
    ValidChars(d);
    CharsSolid(d);
    SolidTrimmed(d);
  }

  lemma PromisedDomain(h: Host, domains: seq<string>, a: string) returns (k: nat)
    requires Lists(h, domains)
    requires a == Key(h.domain) || exists d :: d in h.domains && TrimSpace(d.name) != "" && a == Key(d.name)
    ensures k < |domains| && Key(domains[k]) == a
  {
    hide Key;
    if a == Key(h.domain) {
      k := 0;
    } else {
      var d :| d in h.domains && TrimSpace(d.name) != "" && a == Key(d.name);
      assert Listed(domains, Key(d.name));
      k :| 0 <= k < |domains| && Key(domains[k]) == a;
    }
  }

  lemma {:induction false} CommasJoin(xs: seq<string>)
    requires forall x | x in xs :: ',' !in x
    ensures CommasToSpaces(Join(xs, ',')) == Join(xs, ' ')
  {
    if |xs| == 0 {
    } else if |xs| == 1 {
      CommasNone(xs[0]);
    } else {
      assert forall x | x in xs[1..] :: x in xs;
      CommasJoin(xs[1..]);
      CommasNone(xs[0]);
      CommasConcat(xs[0] + ",", Join(xs[1..], ','));
      CommasConcat(xs[0], ",");
      assert CommasToSpaces(",") == " ";
    }
  }

  lemma CommasNone(x: string)
    requires ',' !in x
    ensures CommasToSpaces(x) == x
  {
    assert forall i | 0 <= i < |x| :: x[i] in x;
  }

  lemma CommasConcat(a: string, b: string)
    ensures CommasToSpaces(a + b) == CommasToSpaces(a) + CommasToSpaces(b)
  {
  }

  lemma AddressParts(raw: string, a: string)
    requires IsAddress(raw, a)
    ensures StripScheme(Lower(TrimSpace(TrimSpace(raw)))) == a && ValidDomain(a)
  {
  }

  lemma SolidScheme(low: string, a: string)
    requires Solid(a) && (low == a || low == "http://" + a || low == "https://" + a)
    ensures Solid(low)
  {
    var n := |low| - |a|;
    assert Solid("http://") && Solid("https://");
    assert n > 0 ==> low[..n] == "http://" || low[..n] == "https://";
    forall i | 0 <= i < |low| ensures !IsSpace(low[i]) {
      if i < n {
        assert low[i] == low[..n][i];
      } else {
        assert low[i] == a[i - n];
      }
    }
  }

  /** An address in a header is one word. */
  lemma AddressSolid(raw: string, a: string)
    requires IsAddress(raw, a)
    ensures TrimSpace(raw) != "" && Solid(TrimSpace(raw)) && FindsAddress(TrimSpace(raw), a)
  {
    hide *;
    var t := TrimSpace(raw);
    KeyOfTrimmed(raw);
    AddressParts(raw, a);
    ValidNotEmpty(a);
    SchemeSplit(Lower(t), a);
    CharsSolid(a);
    SolidScheme(Lower(t), a);
    LowerSolid(t);
    LowerTwice(t);
    LowerSuffix(Lower(t), a);
    FindsIt(t, a);
    LowerEmpty(t);
  }

  lemma LowerEmpty(t: string)
    requires Lower(t) != ""
    ensures t != ""
  {
  }

  lemma FindsIt(w: string, a: string)
    requires StripScheme(Lower(TrimSpace(w))) == a && ValidDomain(a) && Lower(a) == a
    ensures FindsAddress(w, a)
  {
  }

  ghost predicate FindsAddress(w: string, a: string) {
    NormalizeAddress(w).Some? && Lower(NormalizeAddress(w).value.exact) == a
  }

  lemma SchemeSplit(low: string, a: string)
    requires StripScheme(low) == a && a != ""
    ensures low == a || low == "http://" + a || low == "https://" + a
  {
  }

  lemma LowerSolid(t: string)
    requires Solid(Lower(t))
    ensures Solid(t)
  {
    forall i | 0 <= i < |t| ensures !IsSpace(t[i]) { assert !IsSpace(Lower(t)[i]); }
  }

  lemma LowerSuffix(low: string, a: string)
    requires Lower(low) == low && (low == a || low == "http://" + a || low == "https://" + a)
    ensures Lower(a) == a
  {
    var n := |low| - |a|;
    assert forall i | 0 <= i < |a| :: a[i] == low[n + i];
    assert forall i | 0 <= i < |a| :: LowerChar(a[i]) == Lower(low)[n + i];
  }

  lemma OverrideHeader(h: Host, block: Block) returns (domains: seq<string>)
    requires Validated(h) && IsBlock(h, block) && block.Override?
    ensures HeaderOk(domains, TrimSpace(Split(block.text, '\n')[0]))
  {
    domains :| Acceptable(domains, h.fullCaddyBlock);
  }

  lemma OverrideAddresses(h: Host, block: Block, a: string)
    requires block.Override? && Promises(h, block, a)
    ensures var f := TrimSpace(Split(block.text, '\n')[0]);
            HasSuffix(f, "{") && exists raw :: raw in HeaderAddresses(f) && IsAddress(raw, a)
  {
  }

  lemma OverrideFound(h: Host, block: Block, a: string) returns (w: string)
    requires Validated(h) && IsBlock(h, block) && block.Override? && Promises(h, block, a)
    ensures FindsOn(Split(block.text, '\n')[0], w, a)
  {
    hide *;
    var domains := OverrideHeader(h, block);
    OverrideAddresses(h, block, a);
    var line := Split(block.text, '\n')[0];
    assert line in Split(block.text, '\n');
    w := HeaderFound(domains, line, a);
  }

  lemma HeaderFound(domains: seq<string>, line: string, a: string) returns (w: string)
    requires HeaderOk(domains, TrimSpace(line)) && '\n' !in line
    requires exists raw :: raw in HeaderAddresses(TrimSpace(line)) && IsAddress(raw, a)
    ensures FindsOn(line, w, a)
  {
    HeaderCounts(domains, line);
    hide *;
    var raws := HeaderAddresses(TrimSpace(line));
    var i := AddressIndex(raws, a);
    w := TrimSpace(raws[i]);
    AddressSolid(raws[i], a);
    RawsJoined(TrimSpace(line));
    FieldsJoin(raws, i);
    FindsWord(line, w, a, Join(raws, ' '));
  }

  lemma AddressIndex(raws: seq<string>, a: string) returns (i: nat)
    requires exists raw :: raw in raws && IsAddress(raw, a)
    ensures i < |raws| && IsAddress(raws[i], a)
  {
    hide IsAddress;
    var raw :| raw in raws && IsAddress(raw, a);
    i :| 0 <= i < |raws| && raws[i] == raw;
  }

  lemma RawsJoined(f: string)
    requires HasSuffix(f, "{")
    ensures CommasToSpaces(TrimSpace(f[..|f| - 1])) == Join(HeaderAddresses(f), ' ')
  {
    JoinSplit(TrimSpace(f[..|f| - 1]), ',');
    CommasJoin(HeaderAddresses(f));
  }

  lemma HeaderCounts(domains: seq<string>, line: string)
    requires HeaderOk(domains, TrimSpace(line)) && '\n' !in line
    ensures var f := TrimSpace(line); !Skipped(line) && f != "{" && HasSuffix(f, "{")
  {
    HeaderOpens(domains, line);
    HeaderNotBare(domains, TrimSpace(line));
  }

  lemma FindsWord(line: string, w: string, a: string, header: string)
    requires var f := TrimSpace(line);
             !Skipped(line) && f != "{" && HasSuffix(f, "{") && header == CommasToSpaces(TrimSpace(f[..|f| - 1]))
    requires w in Fields(header) && FindsAddress(w, a)
    ensures FindsOn(line, w, a)
  {
  }

  lemma HeaderNotBare(domains: seq<string>, f: string)
    requires HeaderOk(domains, f)
    ensures f != "{"
  {
    assert Split(TrimSpace("{"[..0]), ',') == [""];
    assert "" in HeaderAddresses("{") && !Granted(domains, "");
  }

  lemma FirstLineOf(text: string) returns (rest: string)
    ensures text + "\n\n" == Split(text, '\n')[0] + "\n" + rest && '\n' !in Split(text, '\n')[0]
  {
    var lines := Split(text, '\n');
    UnlinesSplit(text);
    assert lines[0] in lines;
    rest := Unlines(lines[1..]) + "\n";
    assert text + "\n\n" == (text + "\n") + "\n";
    assert (lines[0] + "\n" + Unlines(lines[1..])) + "\n" == lines[0] + "\n" + rest;
  }

  /** The scan of a rendered file finds every address that its blocks promise, overridden or not. */
  lemma AddressesFound(hosts: seq<Host>, text: string, preamble: string, blocks: seq<Block>, n: nat, a: string)
    requires forall h | h in hosts :: Validated(h)
    requires text == FileText(preamble, blocks) && EndsLine(preamble) && AreBlocks(hosts, blocks)
    requires n < |blocks| && Promises(hosts[n], blocks[n], a)
    ensures Finds(text, a)
  {
    hide Validated, Promises, FileText, FindsOn, Split;
    assert hosts[n] in hosts && IsBlock(hosts[n], blocks[n]);
    hide IsBlock;
    var block := blocks[n];
    if block.Generated? {
      var line := Head(block.addresses) + "{";
      var w := GeneratedFound(hosts[n], block, a);
      HeadOneLine(hosts[n], block);
      var rest := GeneratedRest(block);
      FirstLineIn(text, preamble, blocks, n, line, rest);
    } else {
      var w := OverrideFound(hosts[n], block, a);
      var rest := FirstLineOf(block.text);
      FirstLineIn(text, preamble, blocks, n, Split(block.text, '\n')[0], rest);
    }
  }

  lemma GeneratedRest(block: Block) returns (rest: string)
    requires block.Generated?
    ensures BlockText(block) == Head(block.addresses) + "{" + "\n" + rest
  {
    var body := block.before + block.custom + block.after;
    rest := body + "}\n\n";
    assert BlockText(block) == Head(block.addresses) + "{\n" + body + "}\n\n";
    assert Head(block.addresses) + "{\n" == Head(block.addresses) + "{" + "\n";
  }

  lemma HeadOneLine(h: Host, block: Block)
    requires Validated(h) && IsBlock(h, block) && block.Generated?
    ensures '\n' !in Head(block.addresses) + "{"
  {
    HostBlockWell(h, block);
    PlainMembers(Head(block.addresses));
  }
}
