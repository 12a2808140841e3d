/** internal/caddy/renderer.go: host blocks and the whole file, and the depth of braces in it. */
module Caddyfile {
  import opened Text
  import opened Optional
  import opened Braces
  import opened Sorting
  import opened CaddyValidate
  import opened CaddyRender
  import D = CaddyDirectives
  import Routes

  // ---------------------------------------------------------------------------------------------
  // Site addresses of a host
  // ---------------------------------------------------------------------------------------------

  function DomainOrder(d: ExtraDomain): int { d.order }

  /** A row of this name stands no later than any row that reads `k`. */
  ghost predicate ComesFirst(rows: seq<ExtraDomain>, name: string, k: string) {
    exists d :: d in rows && TrimSpace(d.name) == name && NotAfter(rows, d, k)
  }

  ghost predicate NotAfter(rows: seq<ExtraDomain>, d: ExtraDomain, k: string) {
    forall e | e in rows && Key(e.name) == k :: d.order <= e.order
  }

  /** Behind the first one, the domains follow the sort order of their rows. */
  ghost predicate BySortOrder(rows: seq<ExtraDomain>, domains: seq<string>) {
    forall i, j | 1 <= i < j < |domains| :: ComesFirst(rows, domains[i], Key(domains[j]))
  }

  /** The primary domain first, then every other domain once, whatever its case, by sort order. */
  ghost predicate Lists(h: Host, domains: seq<string>) {
    && BySortOrder(h.domains, domains)
    && |domains| > 0 && domains[0] == h.domain
    && (forall i | 1 <= i < |domains| :: domains[i] != "" && Named(h.domains, domains[i]))
    && (forall d | d in h.domains && TrimSpace(d.name) != "" :: Listed(domains, Key(d.name)))
    && (forall i, j | 0 <= i < j < |domains| :: Key(domains[i]) != Key(domains[j]))
  }

  ghost predicate Named(rows: seq<ExtraDomain>, name: string) {
    exists d :: d in rows && TrimSpace(d.name) == name
  }

  ghost predicate Listed(domains: seq<string>, k: string) {
    exists i :: 0 <= i < |domains| && Key(domains[i]) == k
  }

  /** The domains listed from the first `n` rows. */
  ghost predicate ListsUpTo(h: Host, rows: seq<ExtraDomain>, n: nat, domains: seq<string>, seen: set<string>)
    requires n <= |rows|
  {
    && |domains| > 0 && domains[0] == h.domain
    && (forall i | 1 <= i < |domains| :: domains[i] != "" && Named(rows, domains[i]))
    && (forall m | 0 <= m < n && TrimSpace(rows[m].name) != "" :: Key(rows[m].name) in seen)
    && (forall k :: k in seen <==> Listed(domains, k))
    && (forall i, j | 0 <= i < j < |domains| :: Key(domains[i]) != Key(domains[j]))
  }

  lemma KeyTrimmed(s: string)
    ensures Key(TrimSpace(s)) == Key(s)
  {
    TrimSpaceTrimmed(s);
  }

  lemma ListOne(h: Host, rows: seq<ExtraDomain>, n: nat, domains: seq<string>, seen: set<string>)
    requires n < |rows| && ListsUpTo(h, rows, n, domains, seen)
    requires TrimSpace(rows[n].name) != "" && Key(rows[n].name) !in seen
    ensures ListsUpTo(h, rows, n + 1, domains + [TrimSpace(rows[n].name)], seen + {Key(rows[n].name)})
  {
    var name := TrimSpace(rows[n].name);
    var more := domains + [name];
    KeyTrimmed(rows[n].name);
    hide Key, TrimSpace;
    forall k ensures k in seen + {Key(rows[n].name)} <==> Listed(more, k) {
      if i :| 0 <= i < |domains| && Key(domains[i]) == k { assert Key(more[i]) == k; }
      if i :| 0 <= i < |more| && Key(more[i]) == k {
        assert i < |domains| ==> Key(domains[i]) == k && Listed(domains, k);
      }
      assert more[|domains|] == name;
    }
    forall i, j | 0 <= i < j < |more| ensures Key(more[i]) != Key(more[j]) {
      assert Listed(domains, Key(more[i]));
    }
    assert rows[n] in rows;
  }

  lemma ListSame(h: Host, rows: seq<ExtraDomain>, n: nat, domains: seq<string>, seen: set<string>)
    requires n < |rows| && ListsUpTo(h, rows, n, domains, seen)
    requires TrimSpace(rows[n].name) == "" || Key(rows[n].name) in seen
    ensures ListsUpTo(h, rows, n + 1, domains, seen)
  {
    hide Key, TrimSpace, Listed;
  }

  lemma ListFirst(h: Host, rows: seq<ExtraDomain>)
    ensures ListsUpTo(h, rows, 0, [h.domain], {Key(h.domain)}) && Placed(rows, 0, [h.domain])
  {
    assert Key([h.domain][0]) == Key(h.domain);
  }

  /** Domain i was taken from row m, and no row up to m reads a domain that comes later. */
  ghost predicate PlacedAt(rows: seq<ExtraDomain>, m: nat, domains: seq<string>, i: nat)
    requires m < |rows| && i < |domains|
  {
    && TrimSpace(rows[m].name) == domains[i]
    && forall p | 0 <= p <= m && TrimSpace(rows[p].name) != "" :: Listed(domains[..i + 1], Key(rows[p].name))
  }

  ghost predicate Placed(rows: seq<ExtraDomain>, n: nat, domains: seq<string>)
    requires n <= |rows|
  {
    forall i | 1 <= i < |domains| :: PlacedBy(rows, n, domains, i)
  }

  ghost predicate PlacedBy(rows: seq<ExtraDomain>, n: nat, domains: seq<string>, i: nat)
    requires n <= |rows| && i < |domains|
  {
    exists m: nat :: m < n && PlacedAt(rows, m, domains, i)
  }

  lemma PlaceOne(h: Host, rows: seq<ExtraDomain>, n: nat, domains: seq<string>, seen: set<string>)
    requires n < |rows| && ListsUpTo(h, rows, n + 1, domains + [TrimSpace(rows[n].name)], seen)
    requires Placed(rows, n, domains)
    ensures Placed(rows, n + 1, domains + [TrimSpace(rows[n].name)])
  {
    hide Key, TrimSpace, Listed;
    var next, more := n + 1, domains + [TrimSpace(rows[n].name)];
    forall i | 1 <= i < |more| ensures PlacedBy(rows, next, more, i) {
      if i < |domains| {
        assert PlacedBy(rows, n, domains, i);
        var m: nat :| m < n && PlacedAt(rows, m, domains, i);
        assert more[..i + 1] == domains[..i + 1];
        assert PlacedAt(rows, m, more, i);
      } else {
        assert more[..i + 1] == more;
        assert PlacedAt(rows, n, more, i);
      }
    }
  }

  lemma PlaceSame(rows: seq<ExtraDomain>, n: nat, domains: seq<string>)
    requires n < |rows| && Placed(rows, n, domains)
    ensures Placed(rows, n + 1, domains)
  {
    hide PlacedAt;
    var next := n + 1;
    forall i | 1 <= i < |domains| ensures PlacedBy(rows, next, domains, i) {
      assert PlacedBy(rows, n, domains, i);
      var m: nat :| m < n && PlacedAt(rows, m, domains, i);
      assert m < next;
    }
  }

  lemma KeyNotBlank(s: string)
    ensures Key(s) == "" <==> TrimSpace(s) == ""
  {
    assert |Lower(TrimSpace(s))| == |TrimSpace(s)|;
  }

  lemma NotListedYet(domains: seq<string>, i: nat, j: nat)
    requires i < j < |domains| && forall a, b | 0 <= a < b < |domains| :: Key(domains[a]) != Key(domains[b])
    ensures !Listed(domains[..i + 1], Key(domains[j]))
  {
    hide Key;
    var first := domains[..i + 1];
    forall q | 0 <= q < |first| ensures Key(first[q]) != Key(domains[j]) {
      assert first[q] == domains[q];
    }
  }

  lemma NameListed(h: Host, rows: seq<ExtraDomain>, domains: seq<string>, j: nat, seen: set<string>)
    requires 1 <= j < |domains| && ListsUpTo(h, rows, |rows|, domains, seen)
    ensures Key(domains[j]) != ""
  {
    hide Key, TrimSpace, Listed;
    assert domains[j] != "" && Named(rows, domains[j]);
    var d :| d in rows && TrimSpace(d.name) == domains[j];
    KeyTrimmed(d.name);
    KeyNotBlank(d.name);
  }

  lemma LaterRow(h: Host, rows: seq<ExtraDomain>, domains: seq<string>, i: nat, j: nat, m: nat, p: nat,
      seen: set<string>)
    requires 1 <= i < j < |domains| && m < |rows| && p < |rows| && PlacedAt(rows, m, domains, i)
    requires ListsUpTo(h, rows, |rows|, domains, seen) && Key(rows[p].name) == Key(domains[j])
    ensures m < p
  {
    NameListed(h, rows, domains, j, seen);
    KeyNotBlank(rows[p].name);
    hide Key, TrimSpace, Listed;
    NotListedYet(domains, i, j);
  }

  lemma NoneBefore(h: Host, rows: seq<ExtraDomain>, domains: seq<string>, i: nat, j: nat, m: nat, seen: set<string>)
    requires 1 <= i < j < |domains| && m < |rows| && PlacedAt(rows, m, domains, i)
    requires ListsUpTo(h, rows, |rows|, domains, seen) && Ascends(rows, DomainOrder)
    ensures ComesFirst(rows, domains[i], Key(domains[j]))
  {
    hide Key, TrimSpace, Listed, ListsUpTo;
    forall e | e in rows && Key(e.name) == Key(domains[j]) ensures rows[m].order <= e.order {
      var p :| 0 <= p < |rows| && rows[p] == e;
      LaterRow(h, rows, domains, i, j, m, p, seen);
      assert DomainOrder(rows[m]) <= DomainOrder(rows[p]);
    }
    assert rows[m] in rows && NotAfter(rows, rows[m], Key(domains[j]));
  }

  lemma PlacedOrder(h: Host, rows: seq<ExtraDomain>, domains: seq<string>, seen: set<string>)
    requires ListsUpTo(h, rows, |rows|, domains, seen) && Placed(rows, |rows|, domains) && Ascends(rows, DomainOrder)
    ensures BySortOrder(rows, domains)
  {
    hide PlacedAt, ListsUpTo, Ascends, ComesFirst, Key;
    forall i, j | 1 <= i < j < |domains| ensures ComesFirst(rows, domains[i], Key(domains[j])) {
      assert PlacedBy(rows, |rows|, domains, i);
      var m: nat :| m < |rows| && PlacedAt(rows, m, domains, i);
      NoneBefore(h, rows, domains, i, j, m, seen);
    }
  }

  lemma SameOrder(rows: seq<ExtraDomain>, xs: seq<ExtraDomain>, domains: seq<string>)
    requires (forall x :: x in rows <==> x in xs) && BySortOrder(rows, domains)
    ensures BySortOrder(xs, domains)
  {
    hide Key, TrimSpace;
    forall i, j | 1 <= i < j < |domains| ensures ComesFirst(xs, domains[i], Key(domains[j])) {
      assert ComesFirst(rows, domains[i], Key(domains[j]));
      var d :| d in rows && TrimSpace(d.name) == domains[i] && NotAfter(rows, d, Key(domains[j]));
      assert NotAfter(xs, d, Key(domains[j]));
    }
  }

  lemma ListAll(h: Host, rows: seq<ExtraDomain>, domains: seq<string>, seen: set<string>)
    requires ListsUpTo(h, rows, |rows|, domains, seen) && multiset(rows) == multiset(h.domains)
    requires Placed(rows, |rows|, domains) && Ascends(rows, DomainOrder)
    ensures Lists(h, domains)
  {
    SameMembers(rows, h.domains);
    PlacedOrder(h, rows, domains, seen);
    SameOrder(rows, h.domains, domains);
    hide BySortOrder, Placed, Ascends;
    hide TrimSpace, Listed;
    forall d | d in h.domains && TrimSpace(d.name) != "" ensures Listed(domains, Key(d.name)) {
      var m :| 0 <= m < |rows| && rows[m] == d;
    }
  }

  method HostSiteDomains(h: Host) returns (domains: seq<string>)
    ensures Lists(h, domains)
  {
    hide Lists, ListsUpTo, Placed;
    var rows := SortBy(h.domains, DomainOrder);
    domains := [h.domain];
    var seen := {Key(h.domain)};
    ListFirst(h, rows);
    for n := 0 to |rows|
      invariant ListsUpTo(h, rows, n, domains, seen) && Placed(rows, n, domains)
    {
      var name, key := TrimSpace(rows[n].name), Key(rows[n].name);
      if name == "" || key in seen {
        ListSame(h, rows, n, domains, seen);
        PlaceSame(rows, n, domains);
      } else {
        ListOne(h, rows, n, domains, seen);
        PlaceOne(h, rows, n, domains, seen + {key});
        seen := seen + {key};
        domains := domains + [name];
      }
    }
    ListAll(h, rows, domains, seen);
  }

  function TlsMode(h: Host): string { if h.tlsMode == "" then "auto" else h.tlsMode }

  predicate PlainHttp(h: Host) { TlsMode(h) == "off" || Off(h.tlsEnabled) }

  function Scheme(h: Host): string { if PlainHttp(h) then "http://" else "" }

  function Prefixed(prefix: string, domains: seq<string>): seq<string> {
    seq(|domains|, i requires 0 <= i < |domains| => prefix + domains[i])
  }

  // ---------------------------------------------------------------------------------------------
  // Blocks
  // ---------------------------------------------------------------------------------------------

  /** What one enabled host contributes: the user's own block, or a generated one around the user's lines. */
  datatype Block =
    | Override(text: string)
    | Generated(addresses: seq<string>, before: string, custom: string, after: string)

  function Head(addresses: seq<string>): string { Join(addresses, ' ') + " " }

  function BlockText(block: Block): string {
    match block
    case Override(text) => text + "\n\n"
    case Generated(addresses, before, custom, after) =>
      Head(addresses) + "{\n" + (before + custom + after) + "}\n\n"
  }

  ghost predicate IsBlock(h: Host, block: Block) {
    match block
    case Override(text) => text != "" && text == TrimSpace(h.fullCaddyBlock)
    case Generated(addresses, before, custom, after) =>
      && TrimSpace(h.fullCaddyBlock) == ""
      && (exists domains :: Lists(h, domains) && addresses == Prefixed(Scheme(h), domains))
      && custom == CustomText(h.customDirectives)
      && Opens(before, 0) && Opens(after, 0)
  }

  ghost predicate IsBefore(h: Host, providers: map<nat, DnsProvider>, before: string) {
    exists s :: IsSorted(h, s) && IsText(before, BeforeDirs(h, providers, s))
  }

  /** Before and behind the custom directives a generated block has exactly the directives of its host. */
  ghost predicate Written(h: Host, providers: map<nat, DnsProvider>, logDir: string, block: Block) {
    block.Generated? ==> IsBefore(h, providers, block.before) && IsText(block.after, AfterDirs(h, logDir))
  }

  ghost predicate AllWritten(hosts: seq<Host>, providers: map<nat, DnsProvider>, logDir: string, blocks: seq<Block>) {
    |blocks| == |hosts| && forall n | 0 <= n < |blocks| :: Written(hosts[n], providers, logDir, blocks[n])
  }

  predicate FileNameChar(c: char) {
    'a' <= c <= 'z' || 'A' <= c <= 'Z' || '0' <= c <= '9' || c == '.' || c == '-' || c == '_'
  }

  function TrimDots(s: string): (r: string)
    ensures |r| <= |s| && r == s[..|r|]
  {
    if s != "" && s[|s| - 1] == '.' then TrimDots(s[..|s| - 1]) else s
  }

  function SafeDomainFileName(domain: string): (name: string)
    ensures 0 < |name| <= 180 && forall i | 0 <= i < |name| :: FileNameChar(name[i])
    ensures var d := TrimSpace(domain);
            0 < |d| <= 180 && (forall i | 0 <= i < |d| :: FileNameChar(d[i])) ==> name == d
  {
    var d := TrimSpace(domain);
    var name := seq(|d|, i requires 0 <= i < |d| => if FileNameChar(d[i]) then d[i] else '_');
    if name == "" then "site"
    else if |name| > 180 then
      var cut := TrimDots(name[..180]);
      if cut == "" then "site" else cut
    else name
  }

  lemma FileNamePlain(domain: string)
    ensures Plain(SafeDomainFileName(domain))
  {
  }

  lemma LogWordsPlain()
    ensures Plain("log ") && Plain("output file ") && Plain("/access-") && Plain(".log ") && Plain("/caddy.log ")
    ensures Plain("roll_size 50MiB") && Plain("roll_keep 3") && Plain("roll_size 100MiB") && Plain("roll_keep 5")
    ensures Plain("level INFO") && Plain("admin localhost:2019")
  {
  }

  function LogDirs(domain: string, logDir: string): seq<D.Directive> {
    [D.Block("log ", ["output file " + (logDir + ("/access-" + (SafeDomainFileName(domain) + ".log "))) + "{",
                      "\troll_size 50MiB", "\troll_keep 3", "}"])]
  }

  lemma LogText(domain: string, logDir: string)
    requires Plain(logDir)
    ensures var v := "output file " + (logDir + ("/access-" + (SafeDomainFileName(domain) + ".log ")));
            Plain(v) && CodeStart(v)
    ensures CodeStart("log ") && Tabs(1) + "roll_size 50MiB" == "\troll_size 50MiB"
    ensures Tabs(1) + "roll_keep 3" == "\troll_keep 3"
  {
    LogWordsPlain();
    FileNamePlain(domain);
    hide Plain;
    PlainConcat(SafeDomainFileName(domain), ".log ");
    PlainConcat("/access-", SafeDomainFileName(domain) + ".log ");
    PlainConcat(logDir, "/access-" + (SafeDomainFileName(domain) + ".log "));
    PlainConcat("output file ", logDir + ("/access-" + (SafeDomainFileName(domain) + ".log ")));
  }

  method RenderAccessLog(b: Builder, domain: string, logDir: string)
    requires b.Says() && Plain(logDir)
    modifies b
    ensures b.Says() && b.base == old(b.base) && b.said == old(b.said) + LogDirs(domain, logDir)
  {
    LogWordsPlain();
    LogText(domain, logDir);
    hide Builder.Says, Builder.Saying, Plain, CodeStart, Tabs, SafeDomainFileName;
    b.OpenUp("log ");
    b.WithinOpen("output file " + (logDir + ("/access-" + (SafeDomainFileName(domain) + ".log "))), 1);
    b.Within(1, "roll_size 50MiB", 2);
    b.Within(1, "roll_keep 3", 2);
    b.WithinClose(2);
    assert b.body == LogDirs(domain, logDir)[0].body;
    b.CloseUp();
  }

  /** The parts of a block whose order the sort of the code decides. */
  datatype Sorted = Sorted(rules: seq<Rule>, main: seq<D.Directive>, headers: seq<Header>)

  predicate Proxying(h: Host) { h.hostType !in {"redirect", "static", "php"} }

  ghost predicate IsSorted(h: Host, s: Sorted) {
    && Ascends(s.rules, RuleOrder) && multiset(s.rules) == multiset(h.accessRules)
    && (Proxying(h) ==> IsProxy(h, s.main) && IsHeaders(h, s.headers))
  }

  ghost predicate IsHeaders(h: Host, headers: seq<Header>) {
    Ascends(headers, HeaderOrder) && multiset(headers) == multiset(h.customHeaders)
  }

  function MainDirs(h: Host, s: Sorted): seq<D.Directive> {
    if h.hostType == "redirect" then RedirectDirs(h)
    else if h.hostType == "static" then StaticDirs(h)
    else if h.hostType == "php" then PHPDirs(h)
    else s.main + HeaderDirs(s.headers)
  }

  function Optionally(on: bool, ds: seq<D.Directive>): seq<D.Directive> { if on then ds else [] }

  function GuardDirs(h: Host, s: Sorted): seq<D.Directive> {
    AccessDirs(s.rules) + Optionally(h.basicAuths != [], AuthDirs(h.basicAuths))
  }

  function AnswerDirs(h: Host): seq<D.Directive> {
    Optionally(On(h.corsEnabled), CorsDirs(h)) + Optionally(On(h.securityHeaders), SecurityDirs())
  }

  /** All directives between the first line of a block and the custom directives. */
  function BeforeDirs(h: Host, providers: map<nat, DnsProvider>, s: Sorted): seq<D.Directive> {
    TlsDirs(h, TlsMode(h), providers) + Optionally(On(h.compression), ENCODE) + GuardDirs(h, s) + AnswerDirs(h) +
    MainDirs(h, s)
  }

  method RenderGuards(b: Builder, h: Host) returns (ghost rules: seq<Rule>)
    requires Validated(h) && b.Says()
    modifies b
    ensures b.Says() && b.base == old(b.base)
    ensures b.said == old(b.said) + (AccessDirs(rules) + Optionally(h.basicAuths != [], AuthDirs(h.basicAuths)))
    ensures Ascends(rules, RuleOrder) && multiset(rules) == multiset(h.accessRules)
  {
    hide Builder.Says, CaddyValue, SafeToken, AuthDirs;
    rules := [];
    if |h.accessRules| > 0 {
      rules := RenderAccessRules(b, h.accessRules);
    }
    hide AccessDirs;
    if |h.basicAuths| > 0 {
      RenderBasicAuth(b, h.basicAuths);
    }
  }

  lemma ValidatedCors(h: Host)
    requires Validated(h)
    ensures CaddyValue(h.corsOrigins) && CaddyValue(h.corsMethods) && CaddyValue(h.corsHeaders)
  {
    hide CaddyValue;
  }

  method RenderCorsIfOn(b: Builder, h: Host)
    requires Validated(h) && b.Says()
    modifies b
    ensures b.Says() && b.base == old(b.base)
    ensures b.said == old(b.said) + if On(h.corsEnabled) then CorsDirs(h) else []
  {
    ValidatedCors(h);
    hide *;
    if On(h.corsEnabled) {
      RenderCors(b, h);
    }
  }

  method RenderSecurityIfOn(b: Builder, h: Host)
    requires b.Says()
    modifies b
    ensures b.Says() && b.base == old(b.base)
    ensures b.said == old(b.said) + if On(h.securityHeaders) then SecurityDirs() else []
  {
    hide *;
    if On(h.securityHeaders) {
      RenderSecurityHeaders(b);
    }
  }

  method RenderAnswers(b: Builder, h: Host)
    requires Validated(h) && b.Says()
    modifies b
    ensures b.Says() && b.base == old(b.base) && b.said == old(b.said) + AnswerDirs(h)
  {
    AnswersAre(h);
    hide *;
    RenderCorsIfOn(b, h);
    RenderSecurityIfOn(b, h);
  }

  lemma AnswersAre(h: Host)
    ensures AnswerDirs(h) ==
            (if On(h.corsEnabled) then CorsDirs(h) else []) + (if On(h.securityHeaders) then SecurityDirs() else [])
  {
    hide CorsDirs, SecurityDirs;
  }

  method RenderMain(b: Builder, h: Host) returns (ghost main: seq<D.Directive>, ghost headers: seq<Header>)
    requires Validated(h) && b.Says()
    modifies b
    ensures b.Says() && b.base == old(b.base) && b.said == old(b.said) + MainDirs(h, Sorted([], main, headers))
    ensures Proxying(h) ==> IsProxy(h, main) && IsHeaders(h, headers)
  {
    main, headers := [], [];
    hide Builder.Says, CaddyValue, SafeToken, IsProxy, RedirectDirs, StaticDirs, PHPDirs, HeaderDirs, Ascends;
    if h.hostType == "redirect" {
      RenderRedirect(b, h);
    } else if h.hostType == "static" {
      RenderStaticHost(b, h);
    } else if h.hostType == "php" {
      RenderPHPHost(b, h);
    } else {
      main, headers := RenderProxyHost(b, h);
    }
  }

  method RenderSecurity(b: Builder, h: Host, providers: map<nat, DnsProvider>)
    requires Validated(h) && b.Says()
    modifies b
    ensures b.Says() && b.base == old(b.base)
    ensures b.said == old(b.said) + (TlsDirs(h, TlsMode(h), providers) + Optionally(On(h.compression), ENCODE))
  {
    hide Builder.Says, CaddyValue, SafeToken, TlsDirs;
    RenderTLS(b, h, TlsMode(h), providers);
    if On(h.compression) {
      RenderCompression(b);
    }
  }

  /** Everything of a generated block between its first line and the custom directives. */
  method RenderBefore(b: Builder, h: Host, providers: map<nat, DnsProvider>)
    returns (ghost s: Sorted, ghost before: string)
    requires Validated(h)
    modifies b
    ensures b.text == old(b.text) + before && Opens(before, 0) && IsSorted(h, s)
    ensures IsText(before, BeforeDirs(h, providers, s))
  {
    ghost var t0 := b.text;
    b.Begin();
    hide *;
    RenderSecurity(b, h, providers);
    ghost var rules := RenderGuards(b, h);
    RenderAnswers(b, h);
    ghost var main, headers := RenderMain(b, h);
    s := Sorted(rules, main, headers);
    SortedPieces(h, providers, s);
    SortedMeans(h, s);
    before := b.Told();
    assert b.text == t0 + before && b.said == BeforeDirs(h, providers, s);
  }

  lemma SameMain(h: Host, s: Sorted)
    ensures MainDirs(h, Sorted([], s.main, s.headers)) == MainDirs(h, s)
  {
    hide RedirectDirs, StaticDirs, PHPDirs, HeaderDirs;
  }

  lemma SortedPieces(h: Host, providers: map<nat, DnsProvider>, s: Sorted)
    ensures
      [] + (TlsDirs(h, TlsMode(h), providers) + Optionally(On(h.compression), ENCODE)) +
        (AccessDirs(s.rules) + Optionally(h.basicAuths != [], AuthDirs(h.basicAuths))) + AnswerDirs(h) +
        MainDirs(h, Sorted([], s.main, s.headers)) == BeforeDirs(h, providers, s)
  {
    SameMain(h, s);
    hide TlsDirs, Optionally, AccessDirs, AuthDirs, AnswerDirs, MainDirs;
    var tls := TlsDirs(h, TlsMode(h), providers) + Optionally(On(h.compression), ENCODE);
    assert [] + tls == tls;
  }

  lemma SortedMeans(h: Host, s: Sorted)
    requires Ascends(s.rules, RuleOrder) && multiset(s.rules) == multiset(h.accessRules)
    requires Proxying(h) ==> IsProxy(h, s.main) && IsHeaders(h, s.headers)
    ensures IsSorted(h, s)
  {
  }

  lemma AddedText(t0: string, t1: string) returns (piece: string)
    requires Adds(t0, t1, 0)
    ensures t1 == t0 + piece && Opens(piece, 0)
  {
    piece := t1[|t0|..];
  }

  function AfterDirs(h: Host, logDir: string): seq<D.Directive> {
    Optionally(h.errorPagePath != "", ErrorDirs(h.errorPagePath)) + LogDirs(h.domain, logDir)
  }

  /** Everything after the custom directives, up to the closing brace. */
  method RenderAfter(b: Builder, h: Host, logDir: string) returns (ghost after: string)
    requires Validated(h) && Plain(logDir)
    modifies b
    ensures b.text == old(b.text) + after && Opens(after, 0) && IsText(after, AfterDirs(h, logDir))
  {
    b.Begin();
    hide Builder.Says, CaddyValue, SafeToken, ErrorDirs, LogDirs, Plain, IsText, Opens;
    if h.errorPagePath != "" {
      RenderErrorPages(b, h.errorPagePath);
    }
    RenderAccessLog(b, h.domain, logDir);
    assert b.said == AfterDirs(h, logDir);
    after := b.Told();
  }

  method RenderHostBlock(b: Builder, h: Host, logDir: string, providers: map<nat, DnsProvider>)
    returns (ghost block: Block)
    requires Validated(h) && Plain(logDir)
    modifies b
    ensures b.text == old(b.text) + BlockText(block) && IsBlock(h, block) && Written(h, providers, logDir, block)
  {
    hide Validated, Lists, Opens, Prefixed, IsBefore, IsText;
    var full := TrimSpace(h.fullCaddyBlock);
    ghost var t0 := b.text;
    if full != "" {
      b.WriteString(full);
      b.WriteString("\n\n");
      block := Override(full);
      assert b.text == t0 + (full + "\n\n");
      return;
    }
    block := RenderGenerated(b, h, logDir, providers);
  }

  method RenderGenerated(b: Builder, h: Host, logDir: string, providers: map<nat, DnsProvider>)
    returns (ghost block: Block)
    requires Validated(h) && Plain(logDir) && TrimSpace(h.fullCaddyBlock) == ""
    modifies b
    ensures block.Generated? && b.text == old(b.text) + BlockText(block) && IsBlock(h, block)
    ensures Written(h, providers, logDir, block)
  {
    ValidatedDirectives(h);
    hide *;
    ghost var t0 := b.text;
    var domains := HostSiteDomains(h);
    var addresses := Prefixed(Scheme(h), domains);
    b.WriteString(Join(addresses, ' ') + " {\n");
    ghost var t1 := b.text;
    ghost var s, before := RenderBefore(b, h, providers);
    ghost var t2 := b.text;
    RenderCustomDirectives(b, h.customDirectives);
    ghost var t3 := b.text;
    ghost var after := RenderAfter(b, h, logDir);
    b.WriteString("}\n\n");
    block := Generated(addresses, before, CustomText(h.customDirectives), after);
    BlockPieces(t0, addresses, before, CustomText(h.customDirectives), after);
    MakesBlock(h, domains, before, after);
    MakesWritten(h, providers, logDir, s, block);
  }

  lemma MakesBlock(h: Host, domains: seq<string>, before: string, after: string)
    requires TrimSpace(h.fullCaddyBlock) == "" && Lists(h, domains) && Opens(before, 0) && Opens(after, 0)
    ensures IsBlock(h, Generated(Prefixed(Scheme(h), domains), before, CustomText(h.customDirectives), after))
  {
    hide TrimSpace, Lists, Opens, Prefixed, Scheme, CustomText;
  }

  lemma MakesWritten(h: Host, providers: map<nat, DnsProvider>, logDir: string, s: Sorted, block: Block)
    requires block.Generated? && IsSorted(h, s) && IsText(block.before, BeforeDirs(h, providers, s))
    requires IsText(block.after, AfterDirs(h, logDir))
    ensures Written(h, providers, logDir, block)
  {
    hide IsSorted, IsText, BeforeDirs, AfterDirs;
  }

  lemma ValidatedDirectives(h: Host)
    requires Validated(h)
    ensures DirectivesVerdict(h.customDirectives, Accepted)
  {
  }

  lemma BlockPieces(t0: string, addresses: seq<string>, before: string, custom: string, after: string)
    ensures t0 + (Join(addresses, ' ') + " {\n") + before + custom + after + "}\n\n" ==
            t0 + BlockText(Generated(addresses, before, custom, after))
  {
    var head := Join(addresses, ' ');
    assert (head + " ") + "{\n" == head + " {\n";
    Regroup(t0, head + " {\n", before, custom, after, "}\n\n");
  }

  lemma Regroup(a: string, b: string, c: string, d: string, e: string, f: string)
    ensures a + b + c + d + e + f == a + (b + (c + d + e) + f)
  {
    assert a + b + c + d + e == a + (b + (c + d + e));
  }

  // ---------------------------------------------------------------------------------------------
  // The file
  // ---------------------------------------------------------------------------------------------

  /** Hosts that are not switched off. */
  function Shown(hosts: seq<Host>): seq<Host> {
    if hosts == [] then []
    else Shown(hosts[..|hosts| - 1]) + if Off(hosts[|hosts| - 1].enabled) then [] else [hosts[|hosts| - 1]]
  }

  /** Every host gets a block, unless it is switched off. */
  lemma {:induction false} ShownIff(hosts: seq<Host>, h: Host)
    ensures h in Shown(hosts) <==> h in hosts && h.enabled != Some(false)
  {
    if hosts != [] {
      var init, last := hosts[..|hosts| - 1], hosts[|hosts| - 1];
      ShownIff(init, h);
      assert hosts == init + [last];
    }
  }

  /** A name stands in the first line of its block with `http://` in front exactly if its host has no TLS. */
  lemma AddressForms(h: Host, domains: seq<string>, n: nat)
    requires n < |domains|
    ensures Prefixed(Scheme(h), domains)[n] ==
            (if h.tlsMode == "off" || h.tlsEnabled == Some(false) then "http://" else "") + domains[n]
  {
    assert |"off"| == 3 && |"auto"| == 4;
  }

  function FileText(preamble: string, blocks: seq<Block>): string {
    if blocks == [] then preamble
    else FileText(preamble, blocks[..|blocks| - 1]) + BlockText(blocks[|blocks| - 1])
  }

  ghost predicate AreBlocks(hosts: seq<Host>, blocks: seq<Block>) {
    |blocks| == |hosts| && forall n | 0 <= n < |blocks| :: IsBlock(hosts[n], blocks[n])
  }

  lemma PreambleWordsPlain()
    ensures Plain("# ====================") && Plain("====================") && Plain("====")
    ensures Plain("# Auto-generated by Pdai") && Plain("# DO NOT EDIT MANUALLY \U{2014} ")
    ensures Plain("changes will be overwritten") && Plain("# Generated at: ") && Plain("")
  {
  }

  ghost predicate EndsLine(text: string) {
    text != "" && text[|text| - 1] == '\n'
  }

  function LineOf(indent: nat, parts: seq<string>): string { Tabs(indent) + Fmt(parts) }

  function OpenOf(indent: nat, parts: seq<string>): string { Tabs(indent) + Fmt(parts) + "{" }

  function CloseOf(indent: nat): string { Tabs(indent) + "}" }

  const RULE: seq<string> := ["# ====================", "====================", "===="]

  function BannerLines(now: string): seq<string> {
    [LineOf(0, RULE), LineOf(0, ["# Auto-generated by Pdai"]),
     LineOf(0, ["# DO NOT EDIT MANUALLY \U{2014} ", "changes will be overwritten"]),
     LineOf(0, ["# Generated at: ", now]), LineOf(0, RULE), LineOf(0, [])]
  }

  function OptionHead(logDir: string): seq<string> {
    [OpenOf(0, []), LineOf(1, ["admin localhost:2019"]), OpenOf(1, ["log "]),
     OpenOf(2, ["output file ", logDir, "/caddy.log "]), LineOf(3, ["roll_size 100MiB"])]
  }

  function OptionTail(): seq<string> {
    [LineOf(3, ["roll_keep 5"]), CloseOf(2), LineOf(2, ["level INFO"]), CloseOf(1), CloseOf(0), LineOf(0, [])]
  }

  /** The banner and the global options. */
  function PreambleLines(logDir: string, now: string): seq<string> {
    BannerLines(now) + OptionHead(logDir) + OptionTail()
  }

  ghost predicate Wrote(t0: string, lines: seq<string>, t: string) { t == t0 + Unlines(lines) }

  lemma WroteOne(t0: string, lines: seq<string>, t: string, line: string)
    requires Wrote(t0, lines, t)
    ensures Wrote(t0, lines + [line], t + line + "\n")
  {
    UnlinesAppend(lines, line);
  }

  lemma WroteTwo(t0: string, a: seq<string>, t1: string, b: seq<string>, t2: string)
    requires Wrote(t0, a, t1) && Wrote(t1, b, t2)
    ensures Wrote(t0, a + b, t2)
  {
    UnlinesConcat(a, b);
  }

  /** The methods of the builder, with the line each of them writes behind those since `t1`. */
  method PutLine(b: Builder, indent: nat, parts: seq<string>, ghost t0: string, ghost t1: string, ghost k: nat,
      ghost lines: seq<string>)
    requires Adds(t0, b.text, k) && AllPlain(parts) && Wrote(t1, lines, b.text)
    modifies b
    ensures Adds(t0, b.text, k) && Wrote(t1, lines + [LineOf(indent, parts)], b.text)
  {
    hide Adds, Plain, Wrote;
    ghost var t := b.text;
    WroteOne(t1, lines, t, LineOf(indent, parts));
    b.Line(indent, parts, t0, k);
    assert t + Tabs(indent) + Fmt(parts) + "\n" == t + LineOf(indent, parts) + "\n";
  }

  method PutOpen(b: Builder, indent: nat, parts: seq<string>, ghost t0: string, ghost t1: string, ghost k: nat,
      ghost lines: seq<string>)
    requires Adds(t0, b.text, k) && AllPlain(parts) && (parts == [] || Word(parts)) && Wrote(t1, lines, b.text)
    modifies b
    ensures Adds(t0, b.text, k + 1) && Wrote(t1, lines + [OpenOf(indent, parts)], b.text)
  {
    hide Adds, Plain, Wrote;
    ghost var t := b.text;
    WroteOne(t1, lines, t, OpenOf(indent, parts));
    b.Open(indent, parts, t0, k);
    assert t + Tabs(indent) + Fmt(parts) + "{\n" == t + OpenOf(indent, parts) + "\n";
  }

  method PutClose(b: Builder, indent: nat, ghost t0: string, ghost t1: string, ghost k: nat, ghost lines: seq<string>)
    requires Adds(t0, b.text, k) && k > 0 && Wrote(t1, lines, b.text)
    modifies b
    ensures Adds(t0, b.text, k - 1) && Wrote(t1, lines + [CloseOf(indent)], b.text)
  {
    hide Adds, Plain, Wrote;
    ghost var t := b.text;
    WroteOne(t1, lines, t, CloseOf(indent));
    b.Close(indent, t0, k);
    assert t + Tabs(indent) + "}\n" == t + CloseOf(indent) + "\n";
  }

  method RenderPreamble(b: Builder, logDir: string, now: string)
    requires Plain(logDir) && Plain(now)
    modifies b
    ensures Adds(old(b.text), b.text, 0) && b.text == old(b.text) + Unlines(PreambleLines(logDir, now))
  {
    ghost var t0 := b.text;
    AddsNone(t0);
    hide Adds, BannerLines, OptionHead, OptionTail, Plain;
    RenderBanner(b, now, t0);
    ghost var t1 := b.text;
    RenderOptionHead(b, logDir, t0);
    ghost var t2 := b.text;
    RenderOptionTail(b, t0);
    WroteTwo(t0, BannerLines(now), t1, OptionHead(logDir), t2);
    WroteTwo(t0, BannerLines(now) + OptionHead(logDir), t2, OptionTail(), b.text);
  }

  method RenderBanner(b: Builder, now: string, ghost t0: string)
    requires Adds(t0, b.text, 0) && Plain(now)
    modifies b
    ensures Adds(t0, b.text, 0) && Wrote(old(b.text), BannerLines(now), b.text)
  {
    ghost var t := b.text;
    PreambleWordsPlain();
    assert Wrote(t, [], t);
    hide Adds, Plain, Wrote, LineOf;
    PutLine(b, 0, RULE, t0, t, 0, []);
    ghost var lines := [] + [LineOf(0, RULE)];
    PutLine(b, 0, ["# Auto-generated by Pdai"], t0, t, 0, lines);
    lines := lines + [LineOf(0, ["# Auto-generated by Pdai"])];
    PutLine(b, 0, ["# DO NOT EDIT MANUALLY \U{2014} ", "changes will be overwritten"], t0, t, 0, lines);
    lines := lines + [LineOf(0, ["# DO NOT EDIT MANUALLY \U{2014} ", "changes will be overwritten"])];
    PutLine(b, 0, ["# Generated at: ", now], t0, t, 0, lines);
    lines := lines + [LineOf(0, ["# Generated at: ", now])];
    PutLine(b, 0, RULE, t0, t, 0, lines);
    lines := lines + [LineOf(0, RULE)];
    PutLine(b, 0, [], t0, t, 0, lines);
    assert lines + [LineOf(0, [])] == BannerLines(now);
  }

  method RenderOptionHead(b: Builder, logDir: string, ghost t0: string)
    requires Adds(t0, b.text, 0) && Plain(logDir)
    modifies b
    ensures Adds(t0, b.text, 3) && Wrote(old(b.text), OptionHead(logDir), b.text)
  {
    ghost var t := b.text;
    LogWordsPlain();
    assert Wrote(t, [], t);
    hide Adds, Plain, Wrote, LineOf, OpenOf, CloseOf;
    PutOpen(b, 0, [], t0, t, 0, []);
    ghost var lines := [] + [OpenOf(0, [])];
    PutLine(b, 1, ["admin localhost:2019"], t0, t, 1, lines);
    lines := lines + [LineOf(1, ["admin localhost:2019"])];
    PutOpen(b, 1, ["log "], t0, t, 1, lines);
    lines := lines + [OpenOf(1, ["log "])];
    PutOpen(b, 2, ["output file ", logDir, "/caddy.log "], t0, t, 2, lines);
    lines := lines + [OpenOf(2, ["output file ", logDir, "/caddy.log "])];
    PutLine(b, 3, ["roll_size 100MiB"], t0, t, 3, lines);
    assert lines + [LineOf(3, ["roll_size 100MiB"])] == OptionHead(logDir);
  }

  method RenderOptionTail(b: Builder, ghost t0: string)
    requires Adds(t0, b.text, 3)
    modifies b
    ensures Adds(t0, b.text, 0) && Wrote(old(b.text), OptionTail(), b.text)
  {
    ghost var t := b.text;
    LogWordsPlain();
    assert Wrote(t, [], t);
    hide Adds, Plain, Wrote, LineOf, OpenOf, CloseOf;
    PutLine(b, 3, ["roll_keep 5"], t0, t, 3, []);
    ghost var lines := [] + [LineOf(3, ["roll_keep 5"])];
    PutClose(b, 2, t0, t, 3, lines);
    lines := lines + [CloseOf(2)];
    PutLine(b, 2, ["level INFO"], t0, t, 2, lines);
    lines := lines + [LineOf(2, ["level INFO"])];
    PutClose(b, 1, t0, t, 2, lines);
    lines := lines + [CloseOf(1)];
    PutClose(b, 0, t0, t, 1, lines);
    lines := lines + [CloseOf(0)];
    PutLine(b, 0, [], t0, t, 0, lines);
    assert lines + [LineOf(0, [])] == OptionTail();
  }

  lemma PreambleEnds(logDir: string, now: string)
    ensures EndsLine(Unlines(PreambleLines(logDir, now)))
  {
    var lines := PreambleLines(logDir, now);
    UnlinesAppend(lines[..|lines| - 1], lines[|lines| - 1]);
    assert lines == lines[..|lines| - 1] + [lines[|lines| - 1]];
  }

  method RenderCaddyfile(hosts: seq<Host>, logDir: string, providers: map<nat, DnsProvider>, now: string)
    returns (text: string, ghost preamble: string, ghost blocks: seq<Block>)
    requires Plain(logDir) && Plain(now) && forall h | h in hosts :: Validated(h)
    ensures text == FileText(preamble, blocks) && AreBlocks(Shown(hosts), blocks)
    ensures AllWritten(Shown(hosts), providers, logDir, blocks)
    ensures Opens(preamble, 0) && EndsLine(preamble) && preamble == Unlines(PreambleLines(logDir, now))
  {
    hide Validated, IsBlock, Written, BlockText, Opens, Adds, PreambleLines, Unlines, EndsLine;
    var b := new Builder();
    RenderPreamble(b, logDir, now);
    PreambleEnds(logDir, now);
    preamble := AddedText("", b.text);
    assert preamble == b.text && "" + Unlines(PreambleLines(logDir, now)) == Unlines(PreambleLines(logDir, now));
    blocks := [];
    for n := 0 to |hosts|
      invariant fresh(b)
      invariant b.text == FileText(preamble, blocks) && AreBlocks(Shown(hosts[..n]), blocks)
      invariant AllWritten(Shown(hosts[..n]), providers, logDir, blocks)
    {
      assert hosts[..n + 1][..n] == hosts[..n] && hosts[n] in hosts;
      if !Off(hosts[n].enabled) {
        ghost var block := RenderHostBlock(b, hosts[n], logDir, providers);
        assert (blocks + [block])[..|blocks|] == blocks;
        blocks := blocks + [block];
      }
    }
    assert hosts[..|hosts|] == hosts;
    text := b.text;
  }

  // ---------------------------------------------------------------------------------------------
  // Depth in the rendered file
  // ---------------------------------------------------------------------------------------------

  /** A block that opens and closes exactly one site. */
  ghost predicate WellBlock(block: Block) {
    match block
    case Override(text) => Neutral(text + "\n")
    case Generated(addresses, before, custom, after) =>
      Plain(Head(addresses)) && Heads(Head(addresses)) && Opens(before + custom + after, 0)
  }

  lemma OpensThree(before: string, custom: string, after: string)
    requires Opens(before, 0) && Opens(custom, 0) && Opens(after, 0)
    ensures Opens(before + custom + after, 0)
  {
    OpensConcat(before, custom, 0, 0);
    OpensConcat(before + custom, after, 0, 0);
  }

  lemma CustomOpens(h: Host)
    requires Validated(h)
    ensures Opens(CustomText(h.customDirectives), 0)
  {
    ValidatedDirectives(h);
    if h.customDirectives != "" {
      DirectivesNeutral(h.customDirectives);
    }
  }

  lemma DomainsPlain(h: Host, domains: seq<string>)
    requires Validated(h) && Lists(h, domains)
    ensures forall d | d in domains :: ValidDomain(d)
  {
    forall d | d in domains ensures ValidDomain(d) {
      var i :| 0 <= i < |domains| && domains[i] == d;
      if i > 0 {
        assert Named(h.domains, domains[i]);
        var x :| x in h.domains && TrimSpace(x.name) == d;
      }
    }
  }

  lemma HeadPlain(prefix: string, domains: seq<string>)
    requires |domains| > 0 && forall d | d in domains :: ValidDomain(d)
    requires prefix == "" || prefix == "http://"
    ensures var a := Prefixed(prefix, domains); Plain(Head(a)) && Heads(Head(a))
  {
    var a := Prefixed(prefix, domains);
    assert Plain("http://") && Plain("") && Plain(" ");
    forall x | x in a ensures Plain(x) {
      var i :| 0 <= i < |a| && a[i] == x;
      assert domains[i] in domains;
      ValidDomainPlain(domains[i]);
      PlainConcat(prefix, domains[i]);
    }
    hide ValidDomain, Plain;
    JoinPlain(a, ' ');
    PlainConcat(Join(a, ' '), " ");
    HeadOfJoin(prefix, domains);
  }

  lemma {:induction false} JoinWithout(xs: seq<string>, sep: char, c: char)
    requires c != sep && forall x | x in xs :: c !in x
    ensures c !in Join(xs, sep)
  {
    if |xs| > 1 {
      assert xs[0] in xs && forall x | x in xs[1..] :: x in xs;
      JoinWithout(xs[1..], sep, c);
    } else if |xs| == 1 {
      assert xs[0] in xs;
    }
  }

  lemma {:induction false} NoHashHeads(s: string)
    requires '#' !in s
    ensures Heads(s)
  {
    var l := TrimLeftParts(s);
    var t := TrimLeft(s);
    assert t != "" ==> t[0] in s;
  }

  lemma HeadOfJoin(prefix: string, domains: seq<string>)
    requires forall d | d in domains :: ValidDomain(d)
    requires prefix == "" || prefix == "http://"
    ensures Heads(Head(Prefixed(prefix, domains)))
  {
    var a := Prefixed(prefix, domains);
    forall x | x in a ensures '#' !in x {
      var i :| 0 <= i < |a| && a[i] == x;
      assert domains[i] in domains;
      ValidDomainPlain(domains[i]);
    }
    JoinWithout(a, ' ', '#');
    NoHashHeads(Head(a));
  }

  /** The blocks of validated hosts are well-formed, whatever directives are spliced in. */
  lemma HostBlockWell(h: Host, block: Block)
    requires Validated(h) && IsBlock(h, block)
    ensures WellBlock(block)
  {
    match block
    case Override(text) =>
      var domains :| Acceptable(domains, h.fullCaddyBlock);
    case Generated(addresses, before, custom, after) =>
      var domains :| Lists(h, domains) && addresses == Prefixed(Scheme(h), domains);
      DomainsPlain(h, domains);
      CustomOpens(h);
      OpensThree(before, custom, after);
      hide Validated, Plain, Lists, Opens, Heads;
      HeadPlain(Scheme(h), domains);
  }

  /** From depth zero back to depth zero. */
  lemma BlockBalanced(block: Block)
    requires WellBlock(block)
    ensures Opens(BlockText(block), 0)
  {
    match block
    case Override(text) =>
      assert text + "\n\n" == text + "\n" + "\n";
      OneStep(BEGIN, '\n', 0);
      OpensConcat(text + "\n", "\n", 0, 0);
    case Generated(addresses, before, custom, after) =>
      var head, body := Head(addresses), before + custom + after;
      OpenLine(0, head);
      OpensAt(body, 1, 0);
      StaysLower(State(1, Start), body, 1, 0);
      OpensConcat(head + "{\n", body, 1, 1);
      assert "" + "}\n" == "}\n" && Heads("") && Plain("");
      CloseLine(1, "");
      OpensConcat(head + "{\n" + body, "}\n", 1, 0);
      OneStep(BEGIN, '\n', 0);
      OpensConcat(head + "{\n" + body + "}\n", "\n", 0, 0);
      assert BlockText(block) == head + "{\n" + body + "}\n" + "\n";
  }

  /** Where the site of a generated block is open: after its first brace, up to its last. */
  predicate Inside(block: Block, i: int) {
    block.Generated? && |Head(block.addresses)| < i <= |BlockText(block)| - 3
  }

  lemma InsideOpen(block: Block, i: nat)
    requires WellBlock(block) && Inside(block, i)
    ensures Run(BEGIN, BlockText(block)[..i]).depth >= 1
  {
    var head, body := Head(block.addresses), block.before + block.custom + block.after;
    BlockSplit(head, body);
    PrefixPart(BlockText(block), head + "{", "\n" + body, i - |head| - 1);
    InsidePiece(head, body, i - |head| - 1);
  }

  lemma BlockSplit(head: string, body: string)
    ensures (head + "{") + ("\n" + body) <= head + "{\n" + body + "}\n\n"
    ensures |head + "{\n" + body + "}\n\n"| == |head| + |body| + 5
  {
    assert head + "{\n" + body + "}\n\n" == (head + "{") + ("\n" + body) + "}\n\n";
  }

  lemma InsidePiece(head: string, body: string, j: nat)
    requires Plain(head) && Heads(head) && Opens(body, 0) && j <= |body| + 1
    ensures Run(BEGIN, (head + "{") + ("\n" + body)[..j]).depth >= 1
  {
    hide Heads, Plain;
    HeadRun(0, head);
    OneStep(Run(BEGIN, head), '{', 0);
    Append(BEGIN, head, "{", 0);
    OneStep(State(1, Code), '\n', 1);
    OpensAt(body, 1, 0);
    Append(State(1, Code), "\n", body, 1);
    StaysMeans(State(1, Code), "\n" + body, 1);
    Append(BEGIN, head + "{", ("\n" + body)[..j], 0);
  }

  ghost predicate AllWell(blocks: seq<Block>) {
    forall n | 0 <= n < |blocks| :: WellBlock(blocks[n])
  }

  /** The depth is zero wherever a block begins or ends. */
  lemma {:induction false} FileBalanced(preamble: string, blocks: seq<Block>)
    requires Opens(preamble, 0) && AllWell(blocks)
    ensures Opens(FileText(preamble, blocks), 0)
  {
    if blocks != [] {
      var n := |blocks| - 1;
      FileBalanced(preamble, blocks[..n]);
      BlockBalanced(blocks[n]);
      OpensConcat(FileText(preamble, blocks[..n]), BlockText(blocks[n]), 0, 0);
    }
  }

  lemma {:induction false} FilePrefix(preamble: string, blocks: seq<Block>, n: nat)
    requires n < |blocks|
    ensures FileText(preamble, blocks[..n]) + BlockText(blocks[n]) <= FileText(preamble, blocks)
    decreases |blocks|
  {
    hide BlockText;
    var m := |blocks| - 1;
    if n < m {
      FilePrefix(preamble, blocks[..m], n);
      assert blocks[..m][..n] == blocks[..n] && blocks[..m][n] == blocks[n];
      var start, before := FileText(preamble, blocks[..n]) + BlockText(blocks[n]), FileText(preamble, blocks[..m]);
      LongerStill(start, before, BlockText(blocks[m]));
      assert FileText(preamble, blocks) == before + BlockText(blocks[m]);
    }
  }

  lemma LongerStill(start: string, before: string, more: string)
    requires start <= before
    ensures start <= before + more
  {
  }

  /** The depth of braces after the first `i` characters. */
  ghost function DepthAt(text: string, i: nat): int
    requires i <= |text|
  {
    Run(BEGIN, text[..i]).depth
  }

  /**
   * The rendered file: the depth is never negative, it is zero at every boundary between host blocks, and
   * at least one everywhere inside a generated block until its final brace.
   */
  lemma FileDepths(hosts: seq<Host>, text: string, preamble: string, blocks: seq<Block>)
    requires forall h | h in hosts :: Validated(h)
    requires text == FileText(preamble, blocks) && Opens(preamble, 0) && AreBlocks(hosts, blocks)
    ensures forall i | 0 <= i <= |text| :: DepthAt(text, i) >= 0
    ensures forall n | 0 <= n <= |blocks| :: BoundaryAt(text, preamble, blocks, n)
    ensures forall n, i | 0 <= n < |blocks| && Inside(blocks[n], i) :: InsideAt(text, preamble, blocks, n, i)
  {
    hide Validated, IsBlock, WellBlock, Opens;
    forall n | 0 <= n < |blocks| ensures WellBlock(blocks[n]) {
      assert hosts[n] in hosts;
      HostBlockWell(hosts[n], blocks[n]);
    }
    FileBalanced(preamble, blocks);
    NeverNegative(text);
    forall n | 0 <= n <= |blocks| ensures BoundaryAt(text, preamble, blocks, n) {
      BoundaryZero(text, preamble, blocks, n);
    }
    forall n, i | 0 <= n < |blocks| && Inside(blocks[n], i) ensures InsideAt(text, preamble, blocks, n, i) {
      InsideDepth(text, preamble, blocks, n, i);
    }
  }

  lemma NeverNegative(text: string)
    requires Opens(text, 0)
    ensures forall i | 0 <= i <= |text| :: DepthAt(text, i) >= 0
  {
    StaysMeans(BEGIN, text, 0);
  }

  ghost predicate BoundaryAt(text: string, preamble: string, blocks: seq<Block>, n: nat)
    requires n <= |blocks|
  {
    var start := FileText(preamble, blocks[..n]);
    start <= text && DepthAt(text, |start|) == 0
  }

  ghost predicate InsideAt(text: string, preamble: string, blocks: seq<Block>, n: nat, i: int)
    requires n < |blocks| && Inside(blocks[n], i)
  {
    var start := FileText(preamble, blocks[..n]);
    |start| + i <= |text| && DepthAt(text, |start| + i) >= 1
  }

  lemma BoundaryZero(text: string, preamble: string, blocks: seq<Block>, n: nat)
    requires text == FileText(preamble, blocks) && n <= |blocks| && Opens(preamble, 0) && AllWell(blocks)
    ensures BoundaryAt(text, preamble, blocks, n)
  {
    var start := FileText(preamble, blocks[..n]);
    FileBalanced(preamble, blocks[..n]);
    if n < |blocks| {
      FilePrefix(preamble, blocks, n);
      assert start <= start + BlockText(blocks[n]) <= text;
    } else {
      assert blocks[..n] == blocks;
    }
    assert text[..|start|] == start;
  }

  lemma InsideDepth(text: string, preamble: string, blocks: seq<Block>, n: nat, i: int)
    requires text == FileText(preamble, blocks) && n < |blocks| && Opens(preamble, 0) && AllWell(blocks)
    requires Inside(blocks[n], i)
    ensures InsideAt(text, preamble, blocks, n, i)
  {
    var start, block := FileText(preamble, blocks[..n]), BlockText(blocks[n]);
    assert AllWell(blocks[..n]) && WellBlock(blocks[n]) && 0 <= i <= |block|;
    hide Inside, WellBlock, BlockText, FileText, AllWell, Opens;
    FileBalanced(preamble, blocks[..n]);
    FilePrefix(preamble, blocks, n);
    InsideOpen(blocks[n], i);
    PrefixPart(text, start, block, i);
    DepthBehind(text, start, block, i);
  }

  lemma DepthBehind(text: string, start: string, block: string, i: nat)
    requires i <= |block| && |start| + i <= |text| && text[..|start| + i] == start + block[..i]
    requires Opens(start, 0) && Run(BEGIN, block[..i]).depth >= 1
    ensures DepthAt(text, |start| + i) >= 1
  {
    hide Run, Stays;
    Append(BEGIN, start, block[..i], 0);
  }

  lemma PrefixPart(text: string, start: string, block: string, i: nat)
    requires start + block <= text && i <= |block|
    ensures |start| + i <= |text| && text[..|start| + i] == start + block[..i]
  {
    assert text[..|start + block|] == start + block;
    assert text[..|start| + i] == text[..|start + block|][..|start| + i];
  }
}
