/** internal/caddy/renderer.go: what the directives of a generated block tell the server, read back from its text. */
module CaddyServes {
  import opened Text
  import opened Optional
  import opened Sorting
  import Braces
  import opened CaddyValidate
  import opened CaddyRender
  import opened Caddyfile
  import D = CaddyDirectives
  import Routes

  // ---------------------------------------------------------------------------------------------
  // One more directive
  // ---------------------------------------------------------------------------------------------

  lemma Snoc(ds: seq<D.Directive>, d: D.Directive, q: D.Request, a: string)
    ensures D.Aborts(ds + [d], q) <==> D.Aborts(ds, q) || D.AbortsAt(ds, d, q)
    ensures D.Answers(ds + [d], q, a) <==> D.Answers(ds, q, a) || D.AnswersAt(ds, d, q, a)
    ensures D.Proxies(ds + [d], q, a) <==> D.Proxies(ds, q, a) || D.ProxiesAt(ds, d, q, a)
  {
    assert (ds + [d])[..|ds|] == ds;
  }

  lemma BoundSnoc(ds: seq<D.Directive>, text: string)
    ensures D.Bound(ds + [D.Simple(text)], D.Word(text)) == Some(D.Rest(text))
  {
    assert (ds + [D.Simple(text)])[..|ds|] == ds;
  }

  /** A text that begins with a word and a blank. */
  lemma Begins(t: string, w: string, x: string)
    requires ' ' !in w && t == w + " "
    ensures D.Word(t + x) == w && D.Rest(t + x) == x
  {
    D.WordRest(w, x);
    assert t + x == w + " " + x;
  }

  /** The directive defines a matcher and the next one aborts on it. */
  lemma AbortPair(ds: seq<D.Directive>, name: string, m: string, q: D.Request)
    requires name != "" && name[0] == '@' && ' ' !in name
    ensures D.Aborts(ds + [D.Simple(name + " " + m), D.Simple("abort " + name)], q) <==>
              D.Aborts(ds, q) || D.Matches(m, q)
  {
    var a, b := D.Simple(name + " " + m), D.Simple("abort " + name);
    D.WordRest(name, m);
    Begins("abort ", "abort", name);
    assert "abort"[0] == 'a';
    Snoc(ds, a, q, "");
    Snoc(ds + [a], b, q, "");
    BoundSnoc(ds, a.text);
    assert ds + [a, b] == ds + [a] + [b];
  }

  // ---------------------------------------------------------------------------------------------
  // Access rules
  // ---------------------------------------------------------------------------------------------

  /** A deny rule bars the addresses that it covers, an allow rule all others. */
  predicate Bars(r: Rule, q: D.Request) {
    || (r.ruleType == "deny" && q.comesFrom(r.ipRange))
    || (r.ruleType == "allow" && !q.comesFrom(r.ipRange))
  }

  lemma RangeMatches(range: string, q: D.Request)
    ensures D.Matches("remote_ip " + range, q) <==> q.comesFrom(range)
  {
    Begins("remote_ip ", "remote_ip", range);
    assert "remote_ip"[0] != "not"[0];
    hide D.Word, D.Rest;
  }

  lemma NotMatches(m: string, q: D.Request)
    ensures D.Matches("not " + m, q) <==> !D.Matches(m, q)
  {
    Begins("not ", "not", m);
    hide D.Word, D.Rest;
  }

  lemma RemoteMatches(range: string, q: D.Request)
    ensures D.Matches("remote_ip " + range, q) <==> q.comesFrom(range)
    ensures D.Matches("not remote_ip " + range, q) <==> !q.comesFrom(range)
  {
    hide D.Matches;
    RangeMatches(range, q);
    NotMatches("remote_ip " + range, q);
    assert "not " + ("remote_ip " + range) == "not remote_ip " + range;
  }

  lemma RuleAborts(ds: seq<D.Directive>, r: Rule, q: D.Request)
    ensures D.Aborts(ds + RuleDirs(r), q) <==> D.Aborts(ds, q) || Bars(r, q)
  {
    RemoteMatches(r.ipRange, q);
    hide D.Aborts, D.Matches;
    if r.ruleType == "allow" {
      assert "@blocked" + " " + ("not remote_ip " + r.ipRange) == "@blocked not remote_ip " + r.ipRange;
      assert "abort " + "@blocked" == "abort @blocked";
      AbortPair(ds, "@blocked", "not remote_ip " + r.ipRange, q);
      assert "allow"[0] != "deny"[0];
    } else if r.ruleType == "deny" {
      assert "@denied" + " " + ("remote_ip " + r.ipRange) == "@denied remote_ip " + r.ipRange;
      assert "abort " + "@denied" == "abort @denied";
      AbortPair(ds, "@denied", "remote_ip " + r.ipRange, q);
    } else {
      assert ds + RuleDirs(r) == ds;
    }
  }

  ghost predicate SomeBars(rules: seq<Rule>, q: D.Request) {
    exists r :: r in rules && Bars(r, q)
  }

  lemma {:induction false} AccessAborts(ds: seq<D.Directive>, rules: seq<Rule>, q: D.Request)
    ensures D.Aborts(ds + AccessDirs(rules), q) <==> D.Aborts(ds, q) || SomeBars(rules, q)
    decreases |rules|
  {
    hide D.Aborts, RuleDirs, Bars;
    if rules == [] {
      assert ds + AccessDirs(rules) == ds;
    } else {
      var front, r := rules[..|rules| - 1], rules[|rules| - 1];
      AccessAborts(ds, front, q);
      RuleAborts(ds + AccessDirs(front), r, q);
      assert ds + AccessDirs(rules) == ds + AccessDirs(front) + RuleDirs(r);
      assert rules == front + [r];
    }
  }

  // ---------------------------------------------------------------------------------------------
  // Preflight requests
  // ---------------------------------------------------------------------------------------------

  lemma PreflightMatches(q: D.Request)
    ensures D.Matches("method OPTIONS", q) <==> q.verb == "OPTIONS"
  {
    Begins("method ", "method", "OPTIONS");
    assert "method " + "OPTIONS" == "method OPTIONS";
    assert "method"[0] != "not"[0] && "method"[0] != "remote_ip"[0] && "method"[0] != "path"[0];
  }

  lemma BoundSame(ds: seq<D.Directive>, d: D.Directive, name: string)
    requires d.Block?
    ensures D.Bound(ds + [d], name) == D.Bound(ds, name)
  {
    assert (ds + [d])[..|ds|] == ds;
  }

  lemma RespondWords(name: string, code: string)
    requires name != "" && name[0] == '@' && ' ' !in name
    ensures var text := "respond " + (name + " " + code);
            D.Word(text) == "respond" && D.Word(D.Rest(text)) == name && D.Rest(D.Rest(text)) == code
  {
    Begins("respond ", "respond", name + " " + code);
    D.WordRest(name, code);
  }

  /** A matcher, a block, a response to what the matcher selects, and another directive. */
  lemma RespondGroup(ds: seq<D.Directive>, name: string, m: string, b: D.Directive, code: string, d: D.Directive,
      q: D.Request, status: string)
    requires name != "" && name[0] == '@' && ' ' !in name
    requires b.Block? && D.Word(b.text) != "respond" && D.Word(d.text) != "respond"
    ensures D.Answers(ds + [D.Simple(name + " " + m), b, D.Simple("respond " + (name + " " + code)), d], q, status) <==>
              D.Answers(ds, q, status) || (D.Matches(m, q) && status == code)
  {
    var a, c := D.Simple(name + " " + m), D.Simple("respond " + (name + " " + code));
    D.WordRest(name, m);
    RespondWords(name, code);
    assert "respond"[0] != '@';
    hide D.Matches, D.Word, D.Rest;
    Snoc(ds, a, q, status);
    Snoc(ds + [a], b, q, status);
    Snoc(ds + [a] + [b], c, q, status);
    Snoc(ds + [a] + [b] + [c], d, q, status);
    BoundSnoc(ds, a.text);
    BoundSame(ds + [a], b, name);
    assert ds + [a, b, c, d] == ds + [a] + [b] + [c] + [d];
  }

  lemma HeaderWord(rest: string)
    ensures D.Word("header " + rest) == "header" && "header" != "respond"
  {
    Begins("header ", "header", rest);
  }

  lemma CorsTexts()
    ensures "@cors_preflight" + " " + "method OPTIONS" == "@cors_preflight method OPTIONS"
    ensures "respond " + ("@cors_preflight" + " " + "204") == "respond @cors_preflight 204"
    ensures ' ' !in "@cors_preflight" && "@cors_preflight"[0] == '@'
  {
    assert "@cors_preflight" + " " + "204" == "@cors_preflight 204";
  }

  lemma PreflightHead()
    ensures "header " + "@cors_preflight " == "header @cors_preflight "
  {
  }

  lemma CorsAnswers(ds: seq<D.Directive>, h: Host, q: D.Request, status: string)
    ensures D.Answers(ds + CorsDirs(h), q, status) <==>
              D.Answers(ds, q, status) || (q.verb == "OPTIONS" && status == "204")
  {
    var origin := HeaderLine("Access-Control-Allow-Origin", Origins(h));
    var lines := Preflight(Origins(h), Methods(h), AllowedHeaders(h));
    var b, d := D.Block("header @cors_preflight ", lines), D.Simple("header " + origin);
    CorsTexts();
    PreflightHead();
    HeaderWord("@cors_preflight ");
    HeaderWord(origin);
    PreflightMatches(q);
    CorsList(h);
    hide HeaderLine, Preflight, CorsDirs, D.Matches, D.Word, D.Rest, D.Answers;
    RespondGroup(ds, "@cors_preflight", "method OPTIONS", b, "204", d, q, status);
  }

  lemma CorsList(h: Host)
    ensures CorsDirs(h) ==
            [D.Simple("@cors_preflight method OPTIONS"),
             D.Block("header @cors_preflight ", Preflight(Origins(h), Methods(h), AllowedHeaders(h))),
             D.Simple("respond @cors_preflight 204"),
             D.Simple("header " + HeaderLine("Access-Control-Allow-Origin", Origins(h)))]
  {
    hide HeaderLine, Preflight;
  }

  // ---------------------------------------------------------------------------------------------
  // Where a request goes
  // ---------------------------------------------------------------------------------------------

  /** Route `r` sends the request to this address. */
  ghost predicate Sends(ups: seq<Routes.Upstream>, r: Routes.Route, q: D.Request, address: string) {
    q.fallsUnder(r.path) && Routes.Resolve(ups, r.upstream) == Some(address)
  }

  lemma PathName(id: nat)
    ensures var name := "@path_" + Decimal(id); name[0] == '@' && ' ' !in name
  {
    DecimalDigits(id);
    assert ' ' !in "@path_";
  }

  lemma {:induction false} DecimalDigits(n: nat)
    ensures Decimal(n) != "" && forall c | c in Decimal(n) :: '0' <= c <= '9'
  {
    if n >= 10 { DecimalDigits(n / 10); }
  }

  lemma PathMatches(path: string, q: D.Request)
    ensures D.Matches("path " + path, q) <==> q.fallsUnder(path)
  {
    Begins("path ", "path", path);
    assert "path"[0] != "not"[0] && "path"[0] != "remote_ip"[0];
  }

  lemma MatcherWords(name: string, path: string)
    requires ' ' !in name
    ensures D.Word(name + (" path " + path)) == name && D.Rest(name + (" path " + path)) == "path " + path
  {
    D.WordRest(name, "path " + path);
    assert name + (" path " + path) == name + " " + ("path " + path);
  }

  lemma ProxyWords(name: string, address: string)
    requires ' ' !in name
    ensures var text := "reverse_proxy " + (name + (" " + address));
            D.Word(text) == "reverse_proxy" && D.Word(D.Rest(text)) == name && D.Rest(D.Rest(text)) == address
  {
    Begins("reverse_proxy ", "reverse_proxy", name + (" " + address));
    D.WordRest(name, address);
    assert name + (" " + address) == name + " " + address;
  }

  /** The words of the lines of a route. */
  lemma RouteWords(id: nat, path: string, address: string)
    ensures
      var name := "@path_" + Decimal(id);
      var a := "@path_" + (Decimal(id) + (" path " + path));
      var b := "reverse_proxy @path_" + (Decimal(id) + (" " + address));
      && D.Word(a) == name && D.Rest(a) == "path " + path
      && D.Word(b) == "reverse_proxy" && D.Word(D.Rest(b)) == name && D.Rest(D.Rest(b)) == address
  {
    var name := "@path_" + Decimal(id);
    PathName(id);
    MatcherWords(name, path);
    ProxyWords(name, address);
    RouteSame(Decimal(id), path, address);
  }

  lemma RouteSame(digits: string, path: string, address: string)
    ensures "@path_" + (digits + (" path " + path)) == ("@path_" + digits) + (" path " + path)
    ensures "reverse_proxy @path_" + (digits + (" " + address)) ==
            "reverse_proxy " + (("@path_" + digits) + (" " + address))
  {
    assert "reverse_proxy @path_" == "reverse_proxy " + "@path_";
  }

  lemma RouteProxies(ds: seq<D.Directive>, ups: seq<Routes.Upstream>, r: Routes.Route, q: D.Request, address: string)
    ensures D.Proxies(ds + LinesFor(Routes.RouteLines(ups, r)), q, address) <==>
              D.Proxies(ds, q, address) || Sends(ups, r, q, address)
  {
    var to := Routes.Resolve(ups, r.upstream);
    var a := D.Simple("@path_" + (Decimal(r.id) + (" path " + r.path)));
    RouteText(ups, r);
    PathMatches(r.path, q);
    PathName(r.id);
    RouteWords(r.id, r.path, if to.Some? then to.value else "");
    assert "reverse_proxy"[0] != '@';
    hide Decimal, Routes.Resolve, Routes.RouteLines, LinesFor, D.Matches, D.Word, D.Rest;
    Snoc(ds, a, q, address);
    BoundSnoc(ds, a.text);
    if to.Some? {
      var b := D.Simple("reverse_proxy @path_" + (Decimal(r.id) + (" " + to.value)));
      Snoc(ds + [a], b, q, address);
      assert ds + ([a] + [b]) == ds + [a] + [b];
    } else {
      assert [a] + [] == [a];
    }
  }

  ghost predicate SomeSends(ups: seq<Routes.Upstream>, routes: seq<Routes.Route>, q: D.Request, address: string) {
    exists r :: r in routes && Sends(ups, r, q, address)
  }

  lemma {:induction false} RoutesProxy(ds: seq<D.Directive>, ups: seq<Routes.Upstream>, routes: seq<Routes.Route>,
      q: D.Request, address: string)
    ensures D.Proxies(ds + LinesFor(Routes.Lines(ups, routes)), q, address) <==>
              D.Proxies(ds, q, address) || SomeSends(ups, routes, q, address)
    decreases |routes|
  {
    hide D.Proxies, LinesFor, Routes.RouteLines, Sends;
    if routes == [] {
      NoLinesFor(ds, ups);
    } else {
      var front, r := routes[..|routes| - 1], routes[|routes| - 1];
      RoutesProxy(ds, ups, front, q, address);
      RouteProxies(ds + LinesFor(Routes.Lines(ups, front)), ups, r, q, address);
      LinesConcat(Routes.Lines(ups, front), Routes.RouteLines(ups, r));
      assert ds + (LinesFor(Routes.Lines(ups, front)) + LinesFor(Routes.RouteLines(ups, r))) ==
             ds + LinesFor(Routes.Lines(ups, front)) + LinesFor(Routes.RouteLines(ups, r));
      assert routes == front + [r];
    }
  }

  lemma NoLinesFor(ds: seq<D.Directive>, ups: seq<Routes.Upstream>)
    ensures ds + LinesFor(Routes.Lines(ups, [])) == ds
  {
  }

  lemma UpstreamsOf(text: string)
    ensures D.Upstreams(text) == Split(D.Rest(text), ' ')
  {
  }

  lemma UpstreamsRead(addresses: seq<string>)
    requires |addresses| > 0 && forall x | x in addresses :: ' ' !in x
    ensures D.Upstreams("reverse_proxy " + (Join(addresses, ' ') + " ")) == addresses + [""]
  {
    hide *;
    var padded := Join(addresses, ' ') + " ";
    Begins("reverse_proxy ", "reverse_proxy", padded);
    UpstreamsOf("reverse_proxy " + padded);
    SplitPadded(addresses);
  }

  lemma SplitPadded(xs: seq<string>)
    requires |xs| > 0 && forall x | x in xs :: ' ' !in x
    ensures Split(Join(xs, ' ') + " ", ' ') == xs + [""]
  {
    var all := xs + [""];
    assert Join([""], ' ') == "" && forall x | x in all :: ' ' !in x;
    hide Join, Split;
    JoinConcat(xs, [""], ' ');
    assert Join(xs, ' ') + [' '] + "" == Join(xs, ' ') + " ";
    SplitJoin(all, ' ');
  }

  lemma PoolProxies(ds: seq<D.Directive>, upstreams: seq<Routes.Upstream>, q: D.Request, address: string)
    requires upstreams != [] && forall u | u in upstreams :: u.address != "" && ' ' !in u.address
    ensures D.Proxies(ds + ProxyDirs(upstreams), q, address) <==>
              D.Proxies(ds, q, address) || exists u :: u in upstreams && u.address == address
  {
    var all := Addresses(upstreams);
    var text := "reverse_proxy " + (Join(all, ' ') + " ");
    UpstreamsRead(all);
    Begins("reverse_proxy ", "reverse_proxy", Join(all, ' ') + " ");
    hide Join, D.Upstreams, D.Word, D.Rest;
    Snoc(ds, ProxyDirs(upstreams)[0], q, address);
    if u :| u in upstreams && u.address == address {
      var i :| 0 <= i < |upstreams| && upstreams[i] == u;
      assert all[i] == address && (all + [""])[i] == address;
    }
    if address != "" && address in all + [""] {
      var i :| 0 <= i < |all| && all[i] == address;
      assert upstreams[i] in upstreams;
    }
  }

  // ---------------------------------------------------------------------------------------------
  // Which keywords stand where
  // ---------------------------------------------------------------------------------------------

  lemma Letters()
    ensures "abort"[0] == 'a' && "respond"[0] == 'r' && "reverse_proxy"[0] == 'r' && "basicauth"[0] == 'b'
    ensures "header"[0] == 'h' && "redir"[0] == 'r' && "tls"[0] == 't' && "encode"[0] == 'e' && "root"[0] == 'r'
    ensures "php_fastcgi"[0] == 'p' && "file_server"[0] == 'f' && "try_files"[0] == 't'
    ensures "handle_errors"[0] == 'h' && "log"[0] == 'l'
  {
  }

  /** The keyword of a directive, unless it defines a matcher. */
  ghost predicate Only(ds: seq<D.Directive>, keywords: set<string>) {
    forall i | 0 <= i < |ds| :: var w := D.Word(ds[i].text); w in keywords || (w != "" && w[0] == '@')
  }

  lemma OnlyLacks(ds: seq<D.Directive>, keywords: set<string>, k: string)
    requires Only(ds, keywords) && k !in keywords && k != "" && k[0] != '@'
    ensures D.Lacks(ds, {k})
  {
  }

  lemma OnlyConcat(a: seq<D.Directive>, b: seq<D.Directive>, keywords: set<string>)
    requires Only(a, keywords) && Only(b, keywords)
    ensures Only(a + b, keywords)
  {
  }

  lemma OnlyMore(ds: seq<D.Directive>, few: set<string>, many: set<string>)
    requires Only(ds, few) && few <= many
    ensures Only(ds, many)
  {
  }

  lemma DnsWords(p: DnsProvider)
    ensures Only(DnsDirs(p), {"tls"})
  {
    Begins("tls ", "tls", "");
    assert "tls " + "" == "tls ";
  }

  lemma TlsWords(h: Host, mode: string, providers: map<nat, DnsProvider>)
    ensures Only(TlsDirs(h, mode, providers), {"tls"})
  {
    Begins("tls ", "tls", h.certPath + (" " + h.keyPath));
    if h.dnsProvider.Some? && h.dnsProvider.value in providers { DnsWords(providers[h.dnsProvider.value]); }
    hide DnsDirs;
  }

  /** The first word of a longer text. */
  lemma Leads(p: string, w: string, x: string)
    requires ' ' !in w && |w| < |p| && p[..|w|] == w && p[|w|] == ' '
    ensures D.Word(p + x) == w && D.Rest(p + x) == p[|w| + 1..] + x
    ensures D.Word(p) == w && D.Rest(p) == p[|w| + 1..]
  {
    D.WordRest(w, p[|w| + 1..] + x);
    assert p + x == w + " " + (p[|w| + 1..] + x);
    D.WordRest(w, p[|w| + 1..]);
    assert p == w + " " + p[|w| + 1..];
  }

  lemma EncodeText()
    ensures D.Word("encode gzip zstd") == "encode" && D.Rest("encode gzip zstd") == "gzip zstd"
  {
    assert "encode gzip zstd" == "encode" + " " + "gzip zstd";
    assert ' ' !in "encode";
    hide D.Word, D.Rest;
    D.WordRest("encode", "gzip zstd");
  }

  lemma EncodeWords()
    ensures Only(ENCODE, {"encode"})
  {
    EncodeText();
    hide D.Word, D.Rest;
    OnlyOne(D.Simple("encode gzip zstd"), {"encode"});
  }

  lemma RuleWords(r: Rule)
    ensures Only(RuleDirs(r), {"abort"})
  {
    AllowTexts(r.ipRange);
    DenyTexts(r.ipRange);
    AbortTexts();
    hide D.Word;
  }

  lemma AllowTexts(range: string)
    ensures D.Word("@blocked not remote_ip " + range) == "@blocked" && "@blocked"[0] == '@'
  {
    Leads("@blocked not remote_ip ", "@blocked", range);
  }

  lemma DenyTexts(range: string)
    ensures D.Word("@denied remote_ip " + range) == "@denied" && "@denied"[0] == '@'
  {
    Leads("@denied remote_ip ", "@denied", range);
  }

  lemma AbortTexts()
    ensures D.Word("abort @blocked") == "abort" && D.Word("abort @denied") == "abort"
  {
    Leads("abort @blocked", "abort", "");
    Leads("abort @denied", "abort", "");
  }

  lemma {:induction false} AccessWords(rules: seq<Rule>)
    ensures Only(AccessDirs(rules), {"abort"})
    decreases |rules|
  {
    if rules != [] {
      AccessWords(rules[..|rules| - 1]);
      RuleWords(rules[|rules| - 1]);
      hide RuleDirs;
      OnlyConcat(AccessDirs(rules[..|rules| - 1]), RuleDirs(rules[|rules| - 1]), {"abort"});
    }
  }

  lemma AuthWords(auths: seq<Auth>)
    ensures Only(AuthDirs(auths), {"basicauth"})
  {
    Begins("basicauth ", "basicauth", "");
    assert "basicauth " + "" == "basicauth ";
  }

  lemma OnlyFour(a: D.Directive, b: D.Directive, c: D.Directive, d: D.Directive, keywords: set<string>)
    requires Only([a], keywords) && Only([b], keywords) && Only([c], keywords) && Only([d], keywords)
    ensures Only([a, b, c, d], keywords)
  {
    hide D.Word;
    assert [a][0] == a && [b][0] == b && [c][0] == c && [d][0] == d;
  }

  lemma OnlyOne(d: D.Directive, keywords: set<string>)
    requires var w := D.Word(d.text); w in keywords || (w != "" && w[0] == '@')
    ensures Only([d], keywords)
  {
  }

  lemma PreflightText()
    ensures D.Word("@cors_preflight method OPTIONS") == "@cors_preflight" && "@cors_preflight"[0] == '@'
  {
    Leads("@cors_preflight method OPTIONS", "@cors_preflight", "");
  }

  lemma PreflightHeadText()
    ensures D.Word("header @cors_preflight ") == "header"
  {
    Leads("header @cors_preflight ", "header", "");
  }

  lemma RespondText()
    ensures D.Word("respond @cors_preflight 204") == "respond"
  {
    Leads("respond @cors_preflight 204", "respond", "");
  }

  lemma CorsKeywords(h: Host)
    ensures Only(CorsDirs(h), {"header", "respond"})
  {
    var origin := HeaderLine("Access-Control-Allow-Origin", Origins(h));
    var lines := Preflight(Origins(h), Methods(h), AllowedHeaders(h));
    PreflightText();
    PreflightHeadText();
    RespondText();
    HeaderWord(origin);
    CorsList(h);
    hide *;
    var a, b := D.Simple("@cors_preflight method OPTIONS"), D.Block("header @cors_preflight ", lines);
    var c, d := D.Simple("respond @cors_preflight 204"), D.Simple("header " + origin);
    var keywords := {"header", "respond"};
    OnlyOne(a, keywords);
    OnlyOne(b, keywords);
    OnlyOne(c, keywords);
    OnlyOne(d, keywords);
    OnlyFour(a, b, c, d, keywords);
  }

  lemma SecurityWords()
    ensures Only(SecurityDirs(), {"header"})
  {
    HeaderWord("");
    assert "header " + "" == "header ";
    hide SecurityLines;
  }

  lemma RedirectWords(h: Host)
    ensures Only(RedirectDirs(h), {"redir"})
    ensures D.Rest(RedirectDirs(h)[0].text) == h.redirectURL + "{uri}" + (" " + Permanence(h.redirectCode))
  {
    var more := h.redirectURL + "{uri}" + (" " + Permanence(h.redirectCode));
    Begins("redir ", "redir", more);
    RedirectSame(h.redirectURL, " " + Permanence(h.redirectCode));
  }

  lemma RedirectSame(url: string, more: string)
    ensures "redir " + url + "{uri}" + more == "redir " + (url + "{uri}" + more)
  {
    assert "redir " + url + "{uri}" == "redir " + (url + "{uri}");
  }

  lemma RootWords(path: string)
    ensures D.Word("root * " + path) == "root" && D.Rest("root * " + path) == "* " + path
  {
    Leads("root * ", "root", path);
    assert "root * "[5..] == "* ";
  }

  lemma TryWords(files: string)
    ensures D.Word("try_files " + "{path}" + files) == "try_files"
    ensures D.Rest("try_files " + "{path}" + files) == "{path}" + files
  {
    Begins("try_files ", "try_files", "{path}" + files);
    assert "try_files " + "{path}" + files == "try_files " + ("{path}" + files);
  }

  lemma FastWords(address: string)
    ensures D.Word("php_fastcgi " + address) == "php_fastcgi" && D.Rest("php_fastcgi " + address) == address
  {
    Begins("php_fastcgi ", "php_fastcgi", address);
  }

  lemma ServerWords()
    ensures D.Word("file_server browse") == "file_server" && D.Rest("file_server browse") == "browse"
    ensures D.Word("file_server") == "file_server" && D.Rest("file_server") == ""
  {
    Leads("file_server browse", "file_server", "");
    D.WordRest("file_server", "");
  }

  const SITE := {"redir", "root", "try_files", "file_server", "php_fastcgi", "reverse_proxy", "header"}

  lemma RouteKeywords(ups: seq<Routes.Upstream>, r: Routes.Route)
    ensures Only(LinesFor(Routes.RouteLines(ups, r)), {"reverse_proxy"})
  {
    var to := Routes.Resolve(ups, r.upstream);
    RouteText(ups, r);
    PathName(r.id);
    RouteWords(r.id, r.path, if to.Some? then to.value else "");
    hide Decimal, Routes.Resolve, Routes.RouteLines, LinesFor, D.Word, D.Rest;
  }

  lemma {:induction false} LinesKeywords(ups: seq<Routes.Upstream>, routes: seq<Routes.Route>)
    ensures Only(LinesFor(Routes.Lines(ups, routes)), {"reverse_proxy"})
    decreases |routes|
  {
    hide LinesFor, Routes.RouteLines, Only;
    if routes == [] {
      NothingOnly(ups, routes);
    } else {
      var front, r := routes[..|routes| - 1], routes[|routes| - 1];
      LinesKeywords(ups, front);
      RouteKeywords(ups, r);
      LinesConcat(Routes.Lines(ups, front), Routes.RouteLines(ups, r));
      OnlyConcat(LinesFor(Routes.Lines(ups, front)), LinesFor(Routes.RouteLines(ups, r)), {"reverse_proxy"});
    }
  }

  lemma NothingOnly(ups: seq<Routes.Upstream>, routes: seq<Routes.Route>)
    requires routes == []
    ensures Only(LinesFor(Routes.Lines(ups, routes)), {"reverse_proxy"})
  {
  }

  lemma PoolKeywords(upstreams: seq<Routes.Upstream>)
    ensures Only(ProxyDirs(upstreams), {"reverse_proxy"})
  {
    Begins("reverse_proxy ", "reverse_proxy", Join(Addresses(upstreams), ' ') + " ");
    hide Join, Addresses, D.Word;
  }

  lemma TargetKeywords(h: Host, main: seq<D.Directive>)
    requires IsProxy(h, main)
    ensures Only(main, {"reverse_proxy"})
  {
    hide LinesFor, ProxyDirs, Routes.Lines, Only, Ascends;
    if h.routes != [] {
      var sorted: seq<Routes.Route> :| Ascends(sorted, Routes.OrderOf) && multiset(sorted) == multiset(h.routes)
                    && main == LinesFor(Routes.Lines(h.upstreams, sorted));
      LinesKeywords(h.upstreams, sorted);
    } else if h.upstreams != [] {
      var sorted: seq<Routes.Upstream> :| Ascends(sorted, UpstreamOrder) && multiset(sorted) == multiset(h.upstreams)
                    && main == ProxyDirs(sorted);
      PoolKeywords(sorted);
    } else {
      OnlyNone({"reverse_proxy"});
    }
  }

  lemma OnlyNone(keywords: set<string>)
    ensures Only([], keywords)
  {
  }

  lemma HeaderKeywords(headers: seq<Header>)
    ensures Only(HeaderDirs(headers), {"header"})
  {
    HeaderWord("");
    assert "header " + "" == "header ";
    hide CustomLines;
  }

  lemma MainKeywords(h: Host, s: Sorted)
    requires IsSorted(h, s)
    ensures Only(MainDirs(h, s), SITE)
  {
    hide Only, RedirectDirs, StaticDirs, PHPDirs, HeaderDirs, IsProxy, Ascends;
    if h.hostType == "redirect" {
      RedirectWords(h);
      OnlyMore(RedirectDirs(h), {"redir"}, SITE);
    } else if h.hostType == "static" {
      StaticOnly(h);
      OnlyMore(StaticDirs(h), {"root", "try_files", "file_server"}, SITE);
    } else if h.hostType == "php" {
      PHPOnly(h);
      OnlyMore(PHPDirs(h), {"root", "php_fastcgi", "file_server"}, SITE);
    } else {
      TargetKeywords(h, s.main);
      HeaderKeywords(s.headers);
      OnlyMore(s.main, {"reverse_proxy"}, SITE);
      OnlyMore(HeaderDirs(s.headers), {"header"}, SITE);
      OnlyConcat(s.main, HeaderDirs(s.headers), SITE);
    }
  }

  lemma OptionalOnly(on: bool, ds: seq<D.Directive>, keywords: set<string>)
    requires Only(ds, keywords)
    ensures Only(Optionally(on, ds), keywords)
  {
  }

  // ---------------------------------------------------------------------------------------------
  // The parts of a block
  // ---------------------------------------------------------------------------------------------

  function Top(h: Host, providers: map<nat, DnsProvider>): seq<D.Directive> {
    TlsDirs(h, TlsMode(h), providers) + Optionally(On(h.compression), ENCODE)
  }

  lemma TopKeywords(h: Host, providers: map<nat, DnsProvider>)
    ensures Only(Top(h, providers), {"tls", "encode"})
  {
    TlsWords(h, TlsMode(h), providers);
    EncodeWords();
    hide Only, TlsDirs, ENCODE;
    OnlyMore(TlsDirs(h, TlsMode(h), providers), {"tls"}, {"tls", "encode"});
    OnlyMore(ENCODE, {"encode"}, {"tls", "encode"});
    OptionalOnly(On(h.compression), ENCODE, {"tls", "encode"});
    OnlyConcat(TlsDirs(h, TlsMode(h), providers), Optionally(On(h.compression), ENCODE), {"tls", "encode"});
  }

  lemma GuardKeywords(h: Host, s: Sorted)
    ensures Only(GuardDirs(h, s), {"abort", "basicauth"})
  {
    AccessWords(s.rules);
    AuthWords(h.basicAuths);
    hide Only, AccessDirs, AuthDirs;
    OnlyMore(AccessDirs(s.rules), {"abort"}, {"abort", "basicauth"});
    OnlyMore(AuthDirs(h.basicAuths), {"basicauth"}, {"abort", "basicauth"});
    OptionalOnly(h.basicAuths != [], AuthDirs(h.basicAuths), {"abort", "basicauth"});
    OnlyConcat(AccessDirs(s.rules), Optionally(h.basicAuths != [], AuthDirs(h.basicAuths)), {"abort", "basicauth"});
  }

  lemma AnswerKeywords(h: Host)
    ensures Only(AnswerDirs(h), {"header", "respond"})
  {
    CorsKeywords(h);
    SecurityWords();
    hide Only, CorsDirs, SecurityDirs;
    OnlyMore(SecurityDirs(), {"header"}, {"header", "respond"});
    OptionalOnly(On(h.corsEnabled), CorsDirs(h), {"header", "respond"});
    OptionalOnly(On(h.securityHeaders), SecurityDirs(), {"header", "respond"});
    OnlyConcat(Optionally(On(h.corsEnabled), CorsDirs(h)), Optionally(On(h.securityHeaders), SecurityDirs()),
               {"header", "respond"});
  }

  /** What a part lacks. */
  lemma TopLacks(h: Host, providers: map<nat, DnsProvider>, k: string)
    requires k !in {"tls", "encode"} && k != "" && k[0] != '@'
    ensures D.Lacks(Top(h, providers), {k})
  {
    TopKeywords(h, providers);
    hide Only, Top, D.Lacks;
    OnlyLacks(Top(h, providers), {"tls", "encode"}, k);
  }

  lemma GuardsLack(h: Host, s: Sorted, k: string)
    requires k !in {"abort", "basicauth"} && k != "" && k[0] != '@'
    ensures D.Lacks(GuardDirs(h, s), {k})
  {
    GuardKeywords(h, s);
    hide Only, GuardDirs, D.Lacks;
    OnlyLacks(GuardDirs(h, s), {"abort", "basicauth"}, k);
  }

  lemma AnswersLack(h: Host, k: string)
    requires k !in {"header", "respond"} && k != "" && k[0] != '@'
    ensures D.Lacks(AnswerDirs(h), {k})
  {
    AnswerKeywords(h);
    hide Only, AnswerDirs, D.Lacks;
    OnlyLacks(AnswerDirs(h), {"header", "respond"}, k);
  }

  lemma MainLacks(h: Host, s: Sorted, k: string)
    requires IsSorted(h, s) && k !in SITE && k != "" && k[0] != '@'
    ensures D.Lacks(MainDirs(h, s), {k})
  {
    MainKeywords(h, s);
    hide Only, MainDirs, D.Lacks, IsSorted, SITE;
    OnlyLacks(MainDirs(h, s), SITE, k);
  }

  lemma Parts(h: Host, providers: map<nat, DnsProvider>, s: Sorted)
    ensures BeforeDirs(h, providers, s) == Top(h, providers) + GuardDirs(h, s) + AnswerDirs(h) + MainDirs(h, s)
  {
  }

  // ---------------------------------------------------------------------------------------------
  // What the block tells
  // ---------------------------------------------------------------------------------------------

  lemma NothingYet(ds: seq<D.Directive>, q: D.Request, a: string)
    ensures D.Lacks(ds, {"abort"}) ==> !D.Aborts(ds, q)
    ensures D.Lacks(ds, {"respond"}) ==> !D.Answers(ds, q, a)
    ensures D.Lacks(ds, {"reverse_proxy"}) ==> !D.Proxies(ds, q, a)
  {
    assert [] + ds == ds;
    if D.Lacks(ds, {"abort"}) { D.AbortsSame([], ds, q); }
    if D.Lacks(ds, {"respond"}) { D.AnswersSame([], ds, q, a); }
    if D.Lacks(ds, {"reverse_proxy"}) { D.ProxiesSame([], ds, q, a); }
  }

  lemma OptionalLacks(on: bool, ds: seq<D.Directive>, keywords: set<string>)
    requires D.Lacks(ds, keywords)
    ensures D.Lacks(Optionally(on, ds), keywords)
  {
  }

  lemma AuthLacks(auths: seq<Auth>)
    ensures D.Lacks(AuthDirs(auths), {"abort"})
  {
    Letters();
    AuthWords(auths);
    hide Only, AuthDirs, D.Lacks;
    OnlyLacks(AuthDirs(auths), {"basicauth"}, "abort");
  }

  lemma GuardAborts(ds: seq<D.Directive>, h: Host, s: Sorted, q: D.Request)
    ensures D.Aborts(ds + GuardDirs(h, s), q) <==> D.Aborts(ds, q) || SomeBars(s.rules, q)
  {
    var auths := Optionally(h.basicAuths != [], AuthDirs(h.basicAuths));
    AuthLacks(h.basicAuths);
    hide D.Aborts, AccessDirs, AuthDirs, D.Lacks, SomeBars;
    OptionalLacks(h.basicAuths != [], AuthDirs(h.basicAuths), {"abort"});
    AccessAborts(ds, s.rules, q);
    D.AbortsSame(ds + AccessDirs(s.rules), auths, q);
    assert ds + GuardDirs(h, s) == ds + AccessDirs(s.rules) + auths;
  }

  lemma BlockAborts(h: Host, providers: map<nat, DnsProvider>, s: Sorted, q: D.Request)
    requires IsSorted(h, s)
    ensures D.Aborts(BeforeDirs(h, providers, s), q) <==> SomeBars(h.accessRules, q)
  {
    SameMembers(s.rules, h.accessRules);
    Letters();
    Parts(h, providers, s);
    TopLacks(h, providers, "abort");
    AnswersLack(h, "abort");
    MainLacks(h, s, "abort");
    assert SomeBars(s.rules, q) <==> SomeBars(h.accessRules, q);
    hide *;
    NothingYet(Top(h, providers), q, "");
    GuardAborts(Top(h, providers), h, s, q);
    D.AbortsSame(Top(h, providers) + GuardDirs(h, s), AnswerDirs(h), q);
    D.AbortsSame(Top(h, providers) + GuardDirs(h, s) + AnswerDirs(h), MainDirs(h, s), q);
  }

  lemma SecurityLacks()
    ensures D.Lacks(SecurityDirs(), {"respond"})
  {
    Letters();
    SecurityWords();
    hide Only, SecurityDirs, D.Lacks;
    OnlyLacks(SecurityDirs(), {"header"}, "respond");
  }

  lemma CorsAnswered(ds: seq<D.Directive>, h: Host, q: D.Request, status: string)
    ensures D.Answers(ds + AnswerDirs(h), q, status) <==>
              D.Answers(ds, q, status) || (On(h.corsEnabled) && q.verb == "OPTIONS" && status == "204")
  {
    var cors, security := Optionally(On(h.corsEnabled), CorsDirs(h)), Optionally(On(h.securityHeaders), SecurityDirs());
    SecurityLacks();
    OptionalLacks(On(h.securityHeaders), SecurityDirs(), {"respond"});
    hide D.Answers, CorsDirs, SecurityDirs, D.Lacks;
    CorsAnswers(ds, h, q, status);
    assert ds + [] == ds;
    D.AnswersSame(ds + cors, security, q, status);
    assert ds + AnswerDirs(h) == ds + cors + security;
  }

  lemma BlockAnswers(h: Host, providers: map<nat, DnsProvider>, s: Sorted, q: D.Request, status: string)
    requires IsSorted(h, s)
    ensures D.Answers(BeforeDirs(h, providers, s), q, status) <==>
              On(h.corsEnabled) && q.verb == "OPTIONS" && status == "204"
  {
    Letters();
    Parts(h, providers, s);
    TopLacks(h, providers, "respond");
    GuardsLack(h, s, "respond");
    MainLacks(h, s, "respond");
    hide *;
    NothingYet(Top(h, providers), q, status);
    D.AnswersSame(Top(h, providers), GuardDirs(h, s), q, status);
    CorsAnswered(Top(h, providers) + GuardDirs(h, s), h, q, status);
    D.AnswersSame(Top(h, providers) + GuardDirs(h, s) + AnswerDirs(h), MainDirs(h, s), q, status);
  }

  /** The host sends the request to this address: by a route that covers it, or to any of its upstreams. */
  ghost predicate GoesTo(h: Host, q: D.Request, address: string) {
    Proxying(h) &&
    if h.routes != [] then SomeSends(h.upstreams, h.routes, q, address)
    else exists u :: u in h.upstreams && u.address == address
  }

  lemma SafeTokenSolid(v: string)
    requires SafeToken(v)
    ensures v != "" && ' ' !in v
  {
    forall c | c in v ensures c !in " \t\n\r{}\"'`;#$\\" {
      var i :| 0 <= i < |v| && v[i] == c;
    }
    assert " \t\n\r{}\"'`;#$\\"[0] == ' ';
  }

  lemma SortedSends(ups: seq<Routes.Upstream>, sorted: seq<Routes.Route>, routes: seq<Routes.Route>, q: D.Request,
      address: string)
    requires multiset(sorted) == multiset(routes)
    ensures SomeSends(ups, sorted, q, address) <==> SomeSends(ups, routes, q, address)
  {
    SameMembers(sorted, routes);
  }

  lemma TargetsProxy(ds: seq<D.Directive>, h: Host, main: seq<D.Directive>, q: D.Request, address: string)
    requires IsProxy(h, main) && Proxying(h) && forall u | u in h.upstreams :: SafeToken(u.address)
    ensures D.Proxies(ds + main, q, address) <==> D.Proxies(ds, q, address) || GoesTo(h, q, address)
  {
    hide D.Proxies, LinesFor, ProxyDirs, Routes.Lines, SafeToken, SomeSends, Ascends;
    if h.routes != [] {
      var sorted: seq<Routes.Route> :| Ascends(sorted, Routes.OrderOf) && multiset(sorted) == multiset(h.routes)
                    && main == LinesFor(Routes.Lines(h.upstreams, sorted));
      RoutesProxy(ds, h.upstreams, sorted, q, address);
      SortedSends(h.upstreams, sorted, h.routes, q, address);
    } else if h.upstreams != [] {
      var sorted: seq<Routes.Upstream> :| Ascends(sorted, UpstreamOrder) && multiset(sorted) == multiset(h.upstreams)
                    && main == ProxyDirs(sorted);
      SameMembers(sorted, h.upstreams);
      forall u | u in sorted ensures u.address != "" && ' ' !in u.address { SafeTokenSolid(u.address); }
      PoolProxies(ds, sorted, q, address);
    } else {
      assert ds + main == ds;
    }
  }

  lemma HeadersLack(headers: seq<Header>)
    ensures D.Lacks(HeaderDirs(headers), {"reverse_proxy"})
  {
    Letters();
    HeaderKeywords(headers);
    hide Only, HeaderDirs, D.Lacks;
    OnlyLacks(HeaderDirs(headers), {"header"}, "reverse_proxy");
  }

  lemma OtherLacks(h: Host, s: Sorted)
    requires !Proxying(h)
    ensures D.Lacks(MainDirs(h, s), {"reverse_proxy"})
  {
    Letters();
    RedirectWords(h);
    StaticOnly(h);
    PHPOnly(h);
    hide Only, RedirectDirs, StaticDirs, PHPDirs, D.Lacks, D.Word, D.Rest;
    OnlyLacks(RedirectDirs(h), {"redir"}, "reverse_proxy");
    OnlyLacks(StaticDirs(h), {"root", "try_files", "file_server"}, "reverse_proxy");
    OnlyLacks(PHPDirs(h), {"root", "php_fastcgi", "file_server"}, "reverse_proxy");
  }

  lemma StaticOnly(h: Host)
    ensures Only(StaticDirs(h), {"root", "try_files", "file_server"})
  {
    RootWords(h.rootPath);
    TryWords(" " + h.indexFiles);
    ServerWords();
    hide D.Word, D.Rest;
  }

  lemma PHPOnly(h: Host)
    ensures Only(PHPDirs(h), {"root", "php_fastcgi", "file_server"})
  {
    RootWords(h.rootPath);
    FastWords(if h.phpFastCGI == "" then "localhost:9000" else h.phpFastCGI);
    ServerWords();
    hide D.Word, D.Rest;
  }

  lemma MainProxies(ds: seq<D.Directive>, h: Host, s: Sorted, q: D.Request, address: string)
    requires IsSorted(h, s) && forall u | u in h.upstreams :: SafeToken(u.address)
    ensures D.Proxies(ds + MainDirs(h, s), q, address) <==> D.Proxies(ds, q, address) || GoesTo(h, q, address)
  {
    hide D.Proxies, SafeToken, IsProxy, HeaderDirs, RedirectDirs, StaticDirs, PHPDirs, D.Lacks, Ascends;
    if Proxying(h) {
      TargetsProxy(ds, h, s.main, q, address);
      HeadersLack(s.headers);
      D.ProxiesSame(ds + s.main, HeaderDirs(s.headers), q, address);
      assert ds + (s.main + HeaderDirs(s.headers)) == ds + s.main + HeaderDirs(s.headers);
    } else {
      OtherLacks(h, s);
      D.ProxiesSame(ds, MainDirs(h, s), q, address);
    }
  }

  lemma BlockProxies(h: Host, providers: map<nat, DnsProvider>, s: Sorted, q: D.Request, address: string)
    requires IsSorted(h, s) && forall u | u in h.upstreams :: SafeToken(u.address)
    ensures D.Proxies(BeforeDirs(h, providers, s), q, address) <==> GoesTo(h, q, address)
  {
    Letters();
    Parts(h, providers, s);
    TopLacks(h, providers, "reverse_proxy");
    GuardsLack(h, s, "reverse_proxy");
    AnswersLack(h, "reverse_proxy");
    hide *;
    NothingYet(Top(h, providers), q, address);
    D.ProxiesSame(Top(h, providers), GuardDirs(h, s), q, address);
    D.ProxiesSame(Top(h, providers) + GuardDirs(h, s), AnswerDirs(h), q, address);
    MainProxies(Top(h, providers) + GuardDirs(h, s) + AnswerDirs(h), h, s, q, address);
  }

  // ---------------------------------------------------------------------------------------------
  // Logins, headers and single directives
  // ---------------------------------------------------------------------------------------------

  lemma BodiesFour(a: seq<D.Directive>, b: seq<D.Directive>, c: seq<D.Directive>, d: seq<D.Directive>, text: string)
    ensures D.Bodies(a + b + c + d, text) ==
            D.Bodies(a, text) + D.Bodies(b, text) + D.Bodies(c, text) + D.Bodies(d, text)
  {
    D.BodiesConcat(a, b, text);
    D.BodiesConcat(a + b, c, text);
    D.BodiesConcat(a + b + c, d, text);
  }

  lemma ArgsFour(a: seq<D.Directive>, b: seq<D.Directive>, c: seq<D.Directive>, d: seq<D.Directive>, k: string)
    ensures D.Args(a + b + c + d, k) == D.Args(a, k) + D.Args(b, k) + D.Args(c, k) + D.Args(d, k)
  {
    D.ArgsConcat(a, b, k);
    D.ArgsConcat(a + b, c, k);
    D.ArgsConcat(a + b + c, d, k);
  }

  lemma OneBody(text: string, body: seq<string>)
    ensures D.Bodies([D.Block(text, body)], text) == body
    ensures forall other | other != text :: D.Bodies([D.Block(text, body)], other) == []
  {
    assert [D.Block(text, body)][..0] == [];
  }

  lemma OneArg(t: string)
    ensures D.Args([D.Simple(t)], D.Word(t)) == [D.Rest(t)]
    ensures forall k | k != D.Word(t) :: D.Args([D.Simple(t)], k) == []
  {
    assert [D.Simple(t)][..0] == [];
  }

  lemma AuthText()
    ensures D.Word("basicauth ") == "basicauth"
  {
    Leads("basicauth ", "basicauth", "");
  }

  lemma AccessNoAuth(rules: seq<Rule>)
    ensures D.Lacks(AccessDirs(rules), {"basicauth"})
  {
    Letters();
    AccessWords(rules);
    hide Only, AccessDirs, D.Lacks;
    OnlyLacks(AccessDirs(rules), {"abort"}, "basicauth");
  }

  lemma GuardAuths(h: Host, s: Sorted)
    ensures D.Bodies(GuardDirs(h, s), "basicauth ") == AuthLines(h.basicAuths)
  {
    AuthText();
    AccessNoAuth(s.rules);
    OneBody("basicauth ", AuthLines(h.basicAuths));
    var auths := Optionally(h.basicAuths != [], AuthDirs(h.basicAuths));
    assert D.Bodies(auths, "basicauth ") == AuthLines(h.basicAuths);
    hide D.Word, D.Bodies, D.Lacks, AccessDirs, AuthLines;
    D.BodiesNone(AccessDirs(s.rules), "basicauth ");
    D.BodiesConcat(AccessDirs(s.rules), auths, "basicauth ");
  }

  /** Every login of the host is demanded, and no other. */
  lemma BlockAuths(h: Host, providers: map<nat, DnsProvider>, s: Sorted)
    requires IsSorted(h, s)
    ensures D.Bodies(BeforeDirs(h, providers, s), "basicauth ") == AuthLines(h.basicAuths)
  {
    Letters();
    Parts(h, providers, s);
    TopLacks(h, providers, "basicauth");
    AnswersLack(h, "basicauth");
    MainLacks(h, s, "basicauth");
    AuthText();
    GuardAuths(h, s);
    hide *;
    D.BodiesNone(Top(h, providers), "basicauth ");
    D.BodiesNone(AnswerDirs(h), "basicauth ");
    D.BodiesNone(MainDirs(h, s), "basicauth ");
    BodiesFour(Top(h, providers), GuardDirs(h, s), AnswerDirs(h), MainDirs(h, s), "basicauth ");
    assert [] + AuthLines(h.basicAuths) + [] + [] == AuthLines(h.basicAuths);
  }

  /** A login reads back as it is exactly if its name has no blank. */
  lemma LoginReads(a: Auth)
    ensures D.Word(AuthLine(a)) == a.username && D.Rest(AuthLine(a)) == a.hash <==> ' ' !in a.username
  {
    assert AuthLine(a) == a.username + " " + a.hash;
    if ' ' !in a.username {
      D.WordRest(a.username, a.hash);
    }
  }

  // ---------------------------------------------------------------------------------------------
  // Response headers
  // ---------------------------------------------------------------------------------------------

  lemma NoBody(t: string, text: string)
    ensures D.Bodies([D.Simple(t)], text) == []
  {
    assert [D.Simple(t)][..0] == [];
  }

  lemma BodiesOfFour(a: D.Directive, b: D.Directive, c: D.Directive, d: D.Directive, text: string)
    ensures D.Bodies([a, b, c, d], text) ==
            D.Bodies([a], text) + D.Bodies([b], text) + D.Bodies([c], text) + D.Bodies([d], text)
  {
    assert [a, b, c, d] == [a] + [b] + [c] + [d];
    hide D.Bodies;
    BodiesFour([a], [b], [c], [d], text);
  }

  lemma HeaderHeads()
    ensures "header " != "header @cors_preflight "
    ensures D.Word("header ") == "header" && D.Word("header @cors_preflight ") == "header"
  {
    assert |"header "| != |"header @cors_preflight "|;
    Leads("header ", "header", "");
    PreflightHeadText();
  }

  lemma GroupBodies(a: string, head: string, lines: seq<string>, c: string, d: string, text: string)
    ensures D.Bodies([D.Simple(a), D.Block(head, lines), D.Simple(c), D.Simple(d)], text) ==
            if text == head then lines else []
  {
    NoBody(a, text);
    NoBody(c, text);
    NoBody(d, text);
    OneBody(head, lines);
    hide D.Bodies;
    BodiesOfFour(D.Simple(a), D.Block(head, lines), D.Simple(c), D.Simple(d), text);
  }

  lemma CorsBodies(h: Host)
    ensures D.Bodies(CorsDirs(h), "header ") == []
    ensures D.Bodies(CorsDirs(h), "header @cors_preflight ") == Preflight(Origins(h), Methods(h), AllowedHeaders(h))
  {
    HeaderHeads();
    CorsList(h);
    hide *;
    var lines := Preflight(Origins(h), Methods(h), AllowedHeaders(h));
    var more := "header " + HeaderLine("Access-Control-Allow-Origin", Origins(h));
    GroupBodies("@cors_preflight method OPTIONS", "header @cors_preflight ", lines, "respond @cors_preflight 204", more,
                "header ");
    GroupBodies("@cors_preflight method OPTIONS", "header @cors_preflight ", lines, "respond @cors_preflight 204", more,
                "header @cors_preflight ");
  }

  lemma SecurityList()
    ensures SecurityDirs() == [D.Block("header ", SecurityLines())]
  {
    hide SecurityLines;
  }

  lemma SecurityBodies()
    ensures D.Bodies(SecurityDirs(), "header ") == SecurityLines()
    ensures D.Bodies(SecurityDirs(), "header @cors_preflight ") == []
  {
    hide *;
    HeaderHeads();
    SecurityList();
    OneBody("header ", SecurityLines());
  }

  lemma AnswerBodies(h: Host)
    ensures D.Bodies(AnswerDirs(h), "header ") == if On(h.securityHeaders) then SecurityLines() else []
    ensures D.Bodies(AnswerDirs(h), "header @cors_preflight ") ==
            if On(h.corsEnabled) then Preflight(Origins(h), Methods(h), AllowedHeaders(h)) else []
  {
    CorsBodies(h);
    SecurityBodies();
    assert D.Bodies([], "header ") == [] && D.Bodies([], "header @cors_preflight ") == [];
    var cors, security := Optionally(On(h.corsEnabled), CorsDirs(h)), Optionally(On(h.securityHeaders), SecurityDirs());
    hide D.Bodies, CorsDirs, SecurityDirs, SecurityLines, Preflight;
    D.BodiesConcat(cors, security, "header ");
    D.BodiesConcat(cors, security, "header @cors_preflight ");
  }

  lemma HeaderBodies(headers: seq<Header>)
    ensures D.Bodies(HeaderDirs(headers), "header ") == CustomLines(headers)
    ensures D.Bodies(HeaderDirs(headers), "header @cors_preflight ") == []
  {
    HeaderHeads();
    OneBody("header ", CustomLines(headers));
    assert D.Bodies([], "header ") == [] && D.Bodies([], "header @cors_preflight ") == [];
    hide D.Bodies;
  }

  lemma NoHeader(ds: seq<D.Directive>, keywords: set<string>)
    requires Only(ds, keywords) && "header" !in keywords
    ensures D.Bodies(ds, "header ") == [] && D.Bodies(ds, "header @cors_preflight ") == []
  {
    Letters();
    HeaderHeads();
    hide Only, D.Bodies, D.Lacks, D.Word;
    OnlyLacks(ds, keywords, "header");
    D.BodiesNone(ds, "header ");
    D.BodiesNone(ds, "header @cors_preflight ");
  }

  lemma MainBodies(h: Host, s: Sorted)
    requires IsSorted(h, s)
    ensures D.Bodies(MainDirs(h, s), "header ") == if Proxying(h) then CustomLines(s.headers) else []
    ensures D.Bodies(MainDirs(h, s), "header @cors_preflight ") == []
  {
    Letters();
    hide Only, RedirectDirs, StaticDirs, PHPDirs, HeaderDirs, IsProxy, Ascends, D.Bodies, CustomLines;
    if h.hostType == "redirect" {
      RedirectWords(h);
      NoHeader(RedirectDirs(h), {"redir"});
    } else if h.hostType == "static" {
      StaticOnly(h);
      NoHeader(StaticDirs(h), {"root", "try_files", "file_server"});
    } else if h.hostType == "php" {
      PHPOnly(h);
      NoHeader(PHPDirs(h), {"root", "php_fastcgi", "file_server"});
    } else {
      TargetKeywords(h, s.main);
      NoHeader(s.main, {"reverse_proxy"});
      HeaderBodies(s.headers);
      D.BodiesConcat(s.main, HeaderDirs(s.headers), "header ");
      D.BodiesConcat(s.main, HeaderDirs(s.headers), "header @cors_preflight ");
    }
  }

  lemma LastBodies(t: seq<D.Directive>, g: seq<D.Directive>, a: seq<D.Directive>, m: seq<D.Directive>, text: string)
    requires D.Bodies(t, text) == [] && D.Bodies(g, text) == []
    ensures D.Bodies(t + g + a + m, text) == D.Bodies(a, text) + D.Bodies(m, text)
  {
    hide D.Bodies;
    BodiesFour(t, g, a, m, text);
    assert [] + [] + D.Bodies(a, text) == D.Bodies(a, text);
  }

  lemma TopNoHeader(h: Host, providers: map<nat, DnsProvider>, s: Sorted)
    ensures D.Bodies(Top(h, providers), "header ") == [] && D.Bodies(Top(h, providers), "header @cors_preflight ") == []
    ensures D.Bodies(GuardDirs(h, s), "header ") == [] && D.Bodies(GuardDirs(h, s), "header @cors_preflight ") == []
  {
    Letters();
    TopKeywords(h, providers);
    GuardKeywords(h, s);
    hide *;
    NoHeader(Top(h, providers), {"tls", "encode"});
    NoHeader(GuardDirs(h, s), {"abort", "basicauth"});
  }

  function Secured(h: Host): seq<string> { if On(h.securityHeaders) then SecurityLines() else [] }

  function Preflighted(h: Host): seq<string> {
    if On(h.corsEnabled) then Preflight(Origins(h), Methods(h), AllowedHeaders(h)) else []
  }

  /** The header blocks: the security headers and the host's own; for preflight requests the CORS headers. */
  lemma BlockHeaders(h: Host, providers: map<nat, DnsProvider>, s: Sorted)
    requires IsSorted(h, s)
    ensures D.Bodies(BeforeDirs(h, providers, s), "header ") ==
            Secured(h) + if Proxying(h) then CustomLines(s.headers) else []
    ensures D.Bodies(BeforeDirs(h, providers, s), "header @cors_preflight ") == Preflighted(h)
  {
    Parts(h, providers, s);
    TopNoHeader(h, providers, s);
    AnswerBodies(h);
    MainBodies(h, s);
    assert Preflighted(h) + [] == Preflighted(h);
    assert Secured(h) == D.Bodies(AnswerDirs(h), "header ");
    assert Preflighted(h) == D.Bodies(AnswerDirs(h), "header @cors_preflight ");
    hide *;
    var t, g, a, m := Top(h, providers), GuardDirs(h, s), AnswerDirs(h), MainDirs(h, s);
    LastBodies(t, g, a, m, "header ");
    LastBodies(t, g, a, m, "header @cors_preflight ");
  }

  datatype HeaderOp = Set(name: string, value: string) | Add(name: string, value: string) | Delete(name: string)

  /** A value without its two quotes. */
  function Unquote(v: string): string { if |v| >= 2 then v[1..|v| - 1] else "" }

  /** A line of a header block. */
  function ReadHeader(line: string): HeaderOp {
    if line != "" && line[0] == '-' then Delete(line[1..])
    else if line != "" && line[0] == '+' then Add(D.Word(line[1..]), Unquote(D.Rest(line[1..])))
    else Set(D.Word(line), Unquote(D.Rest(line)))
  }

  /** What the host asks for; any other operation is not written. */
  function Wanted(x: Header): Option<HeaderOp> {
    if x.operation == "set" then Some(Set(x.name, x.value))
    else if x.operation == "add" then Some(Add(x.name, x.value))
    else if x.operation == "delete" then Some(Delete(x.name))
    else None
  }

  predicate HeaderName(name: string) { name != "" && ' ' !in name && name[0] != '+' && name[0] != '-' }

  lemma HeaderLineReads(name: string, value: string)
    requires ' ' !in name
    ensures D.Word(HeaderLine(name, value)) == name && Unquote(D.Rest(HeaderLine(name, value))) == value
  {
    var quoted := "\"" + value + "\"";
    D.WordRest(name, quoted);
    assert HeaderLine(name, value) == name + " " + quoted;
    assert quoted[1..|quoted| - 1] == value;
  }

  /** The operation on a header with a proper name reads back from its line. */
  lemma HeaderReads(x: Header)
    requires HeaderName(x.name)
    ensures if Wanted(x).Some? then |CustomLine(x)| == 1 && ReadHeader(CustomLine(x)[0]) == Wanted(x).value
            else CustomLine(x) == []
  {
    HeaderLineReads(x.name, x.value);
    var line := HeaderLine(x.name, x.value);
    assert line[0] == x.name[0];
    assert ("+" + line)[1..] == line && ("-" + x.name)[1..] == x.name;
    assert "set" != "add" && "set" != "delete" && "add" != "delete" by { assert "set"[0] != "add"[0]; }
    hide HeaderLine, D.Word, D.Rest, Unquote;
  }

  lemma PreflightReads(origins: string, methods: string, headers: string)
    ensures
      var lines := Preflight(origins, methods, headers);
      && |lines| == 4
      && ReadHeader(lines[0]) == Set("Access-Control-Allow-Origin", origins)
      && ReadHeader(lines[1]) == Set("Access-Control-Allow-Methods", methods)
      && ReadHeader(lines[2]) == Set("Access-Control-Allow-Headers", headers)
      && ReadHeader(lines[3]) == Set("Access-Control-Max-Age", "86400")
  {
    CorsNames();
    hide D.Word, D.Rest, Unquote, HeaderLine;
    SetReads("Access-Control-Allow-Origin", origins);
    SetReads("Access-Control-Allow-Methods", methods);
    SetReads("Access-Control-Allow-Headers", headers);
    SetReads("Access-Control-Max-Age", "86400");
  }

  lemma SetReads(name: string, value: string)
    requires HeaderName(name)
    ensures ReadHeader(HeaderLine(name, value)) == Set(name, value)
  {
    HeaderLineReads(name, value);
    assert HeaderLine(name, value)[0] == name[0];
    hide D.Word, D.Rest, Unquote;
  }

  lemma CorsNames()
    ensures HeaderName("Access-Control-Allow-Origin") && HeaderName("Access-Control-Allow-Methods")
    ensures HeaderName("Access-Control-Allow-Headers") && HeaderName("Access-Control-Max-Age")
  {
  }

  // ---------------------------------------------------------------------------------------------
  // Certificates, redirects and files
  // ---------------------------------------------------------------------------------------------

  lemma LastArgs(t: seq<D.Directive>, g: seq<D.Directive>, a: seq<D.Directive>, m: seq<D.Directive>, k: string)
    requires D.Lacks(t, {k}) && D.Lacks(g, {k}) && D.Lacks(a, {k})
    ensures D.Args(t + g + a + m, k) == D.Args(m, k)
  {
    hide D.Args, D.Lacks;
    D.ArgsNone(t, k);
    D.ArgsNone(g, k);
    D.ArgsNone(a, k);
    ArgsFour(t, g, a, m, k);
    assert [] + [] + [] + D.Args(m, k) == D.Args(m, k);
  }

  lemma BlockMainArgs(h: Host, providers: map<nat, DnsProvider>, s: Sorted, k: string)
    requires k in {"redir", "root", "try_files", "file_server", "php_fastcgi"}
    ensures D.Args(BeforeDirs(h, providers, s), k) == D.Args(MainDirs(h, s), k)
  {
    Letters();
    Parts(h, providers, s);
    TopLacks(h, providers, k);
    GuardsLack(h, s, k);
    AnswersLack(h, k);
    hide *;
    LastArgs(Top(h, providers), GuardDirs(h, s), AnswerDirs(h), MainDirs(h, s), k);
  }

  lemma OnlyNoArgs(ds: seq<D.Directive>, keywords: set<string>, k: string)
    requires Only(ds, keywords) && k !in keywords && k != "" && k[0] != '@'
    ensures D.Args(ds, k) == []
  {
    hide Only, D.Args, D.Lacks;
    OnlyLacks(ds, keywords, k);
    D.ArgsNone(ds, k);
  }

  lemma ProxyNoArgs(h: Host, s: Sorted, k: string)
    requires IsSorted(h, s) && Proxying(h) && k in {"redir", "root", "try_files", "file_server", "php_fastcgi"}
    ensures D.Args(MainDirs(h, s), k) == []
  {
    Letters();
    TargetKeywords(h, s.main);
    HeaderKeywords(s.headers);
    hide Only, HeaderDirs, D.Args, IsSorted;
    OnlyNoArgs(s.main, {"reverse_proxy"}, k);
    OnlyNoArgs(HeaderDirs(s.headers), {"header"}, k);
    D.ArgsConcat(s.main, HeaderDirs(s.headers), k);
    assert MainDirs(h, s) == s.main + HeaderDirs(s.headers);
  }

  lemma ArgsOfThree(a: seq<D.Directive>, b: seq<D.Directive>, c: seq<D.Directive>, k: string)
    ensures D.Args(a + b + c, k) == D.Args(a, k) + D.Args(b, k) + D.Args(c, k)
  {
    D.ArgsConcat(a, b, k);
    D.ArgsConcat(a + b, c, k);
  }

  lemma ArgOf(t: string, w: string, x: string, k: string)
    requires D.Word(t) == w && D.Rest(t) == x
    ensures D.Args([D.Simple(t)], k) == if k == w then [x] else []
  {
    OneArg(t);
  }

  /** The argument of one directive, under its keyword `w`. */
  function Under(w: string, x: string, k: string): seq<string> { if k == w then [x] else [] }

  lemma ThreeArgs(a: string, b: seq<D.Directive>, c: string, k: string)
    ensures D.Args([D.Simple(a)] + b + [D.Simple(c)], k) ==
            Under(D.Word(a), D.Rest(a), k) + D.Args(b, k) + Under(D.Word(c), D.Rest(c), k)
  {
    hide D.Args, D.Word, D.Rest;
    ArgOf(a, D.Word(a), D.Rest(a), k);
    ArgOf(c, D.Word(c), D.Rest(c), k);
    ArgsOfThree([D.Simple(a)], b, [D.Simple(c)], k);
  }

  lemma StaticList(h: Host)
    ensures StaticDirs(h) ==
            [D.Simple("root * " + h.rootPath)] +
            (if h.indexFiles == "" then [] else [D.Simple("try_files " + "{path}" + (" " + h.indexFiles))]) +
            [D.Simple(if On(h.directoryBrowse) then "file_server browse" else "file_server")]
  {
  }

  lemma StaticArgs(h: Host, k: string)
    ensures D.Args(StaticDirs(h), k) ==
            Under("root", "* " + h.rootPath, k) +
            (if h.indexFiles == "" then [] else Under("try_files", "{path}" + (" " + h.indexFiles), k)) +
            Under("file_server", if On(h.directoryBrowse) then "browse" else "", k)
  {
    var text := "try_files " + "{path}" + (" " + h.indexFiles);
    RootWords(h.rootPath);
    TryWords(" " + h.indexFiles);
    ServerWords();
    StaticList(h);
    assert D.Args([], k) == [];
    ArgOf(text, "try_files", "{path}" + (" " + h.indexFiles), k);
    assert Under("try_files", "{path}" + (" " + h.indexFiles), k) == D.Args([D.Simple(text)], k);
    hide *;
    ThreeArgs("root * " + h.rootPath, if h.indexFiles == "" then [] else [D.Simple(text)],
              if On(h.directoryBrowse) then "file_server browse" else "file_server", k);
  }

  lemma PHPList(h: Host)
    ensures PHPDirs(h) ==
            [D.Simple("root * " + h.rootPath)] +
            [D.Simple("php_fastcgi " + if h.phpFastCGI == "" then "localhost:9000" else h.phpFastCGI)] +
            [D.Simple("file_server")]
  {
  }

  lemma PHPArgs(h: Host, k: string)
    ensures D.Args(PHPDirs(h), k) ==
            Under("root", "* " + h.rootPath, k) +
            Under("php_fastcgi", if h.phpFastCGI == "" then "localhost:9000" else h.phpFastCGI, k) +
            Under("file_server", "", k)
  {
    var fastcgi := if h.phpFastCGI == "" then "localhost:9000" else h.phpFastCGI;
    var text := "php_fastcgi " + fastcgi;
    RootWords(h.rootPath);
    FastWords(fastcgi);
    ServerWords();
    PHPList(h);
    ArgOf(text, "php_fastcgi", fastcgi, k);
    assert Under("php_fastcgi", fastcgi, k) == D.Args([D.Simple(text)], k);
    hide *;
    ThreeArgs("root * " + h.rootPath, [D.Simple(text)], "file_server", k);
  }

  lemma RedirectOnly(h: Host, k: string)
    ensures D.Args(RedirectDirs(h), k) ==
            Under("redir", h.redirectURL + "{uri}" + (" " + Permanence(h.redirectCode)), k)
  {
    RedirectWords(h);
    var text := RedirectDirs(h)[0].text;
    assert RedirectDirs(h) == [D.Simple(text)] && D.Word(text) == "redir";
    hide D.Args, D.Word, D.Rest;
    ArgOf(text, "redir", h.redirectURL + "{uri}" + (" " + Permanence(h.redirectCode)), k);
  }

  /** What the directives of the host type are told, keyword by keyword. */
  function SiteArgs(h: Host, k: string): seq<string> {
    if h.hostType == "redirect" then
      Under("redir", h.redirectURL + "{uri}" + (" " + Permanence(h.redirectCode)), k)
    else if h.hostType == "static" then
      Under("root", "* " + h.rootPath, k) +
      (if h.indexFiles == "" then [] else Under("try_files", "{path}" + (" " + h.indexFiles), k)) +
      Under("file_server", if On(h.directoryBrowse) then "browse" else "", k)
    else if h.hostType == "php" then
      Under("root", "* " + h.rootPath, k) +
      Under("php_fastcgi", if h.phpFastCGI == "" then "localhost:9000" else h.phpFastCGI, k) +
      Under("file_server", "", k)
    else []
  }

  lemma BlockSite(h: Host, providers: map<nat, DnsProvider>, s: Sorted, k: string)
    requires IsSorted(h, s) && k in {"redir", "root", "try_files", "file_server", "php_fastcgi"}
    ensures D.Args(BeforeDirs(h, providers, s), k) == SiteArgs(h, k)
  {
    BlockMainArgs(h, providers, s, k);
    hide D.Args, BeforeDirs, IsSorted, Under, RedirectDirs, StaticDirs, PHPDirs, HeaderDirs;
    if h.hostType == "redirect" {
      RedirectOnly(h, k);
    } else if h.hostType == "static" {
      StaticArgs(h, k);
    } else if h.hostType == "php" {
      PHPArgs(h, k);
    } else {
      ProxyNoArgs(h, s, k);
    }
  }

  // ---------------------------------------------------------------------------------------------
  // Certificates
  // ---------------------------------------------------------------------------------------------

  lemma FirstArgs(t: seq<D.Directive>, g: seq<D.Directive>, a: seq<D.Directive>, m: seq<D.Directive>, k: string)
    requires D.Lacks(g, {k}) && D.Lacks(a, {k}) && D.Lacks(m, {k})
    ensures D.Args(t + g + a + m, k) == D.Args(t, k)
  {
    hide D.Args, D.Lacks;
    D.ArgsNone(g, k);
    D.ArgsNone(a, k);
    D.ArgsNone(m, k);
    ArgsFour(t, g, a, m, k);
    assert D.Args(t, k) + [] + [] + [] == D.Args(t, k);
  }

  lemma FirstBodies(t: seq<D.Directive>, g: seq<D.Directive>, a: seq<D.Directive>, m: seq<D.Directive>, text: string)
    requires D.Lacks(g, {D.Word(text)}) && D.Lacks(a, {D.Word(text)}) && D.Lacks(m, {D.Word(text)})
    ensures D.Bodies(t + g + a + m, text) == D.Bodies(t, text)
  {
    hide D.Bodies, D.Lacks, D.Word;
    D.BodiesNone(g, text);
    D.BodiesNone(a, text);
    D.BodiesNone(m, text);
    BodiesFour(t, g, a, m, text);
    assert D.Bodies(t, text) + [] + [] + [] == D.Bodies(t, text);
  }

  lemma TlsText()
    ensures D.Word("tls ") == "tls"
  {
    Leads("tls ", "tls", "");
  }

  lemma EncodeSilent(h: Host)
    ensures D.Args(Optionally(On(h.compression), ENCODE), "tls") == []
    ensures D.Bodies(Optionally(On(h.compression), ENCODE), "tls ") == []
  {
    EncodeText();
    NoBody("encode gzip zstd", "tls ");
    ArgOf("encode gzip zstd", "encode", "gzip zstd", "tls");
    Letters();
    assert D.Args([], "tls") == [] && D.Bodies([], "tls ") == [];
    hide D.Args, D.Bodies, D.Word, D.Rest;
  }

  /** The certificate files of a host that brings its own. */
  function CertArgs(h: Host): seq<string> {
    if TlsMode(h) == "custom" && h.certPath != "" && h.keyPath != "" then [h.certPath + (" " + h.keyPath)] else []
  }

  /** The provider whose credentials the block contains. */
  function ProviderOf(h: Host, providers: map<nat, DnsProvider>): Option<DnsProvider> {
    if TlsMode(h) in {"dns", "wildcard"} && h.dnsProvider.Some? && h.dnsProvider.value in providers then
      Some(providers[h.dnsProvider.value])
    else None
  }

  lemma DnsSilent(p: DnsProvider)
    ensures D.Args(DnsDirs(p), "tls") == []
  {
    assert forall i | 0 <= i < |DnsDirs(p)| :: DnsDirs(p)[i].Block?;
    hide DnsDirs;
    BlocksSilent(DnsDirs(p), "tls");
  }

  lemma {:induction false} BlocksSilent(ds: seq<D.Directive>, k: string)
    requires forall i | 0 <= i < |ds| :: ds[i].Block?
    ensures D.Args(ds, k) == []
    decreases |ds|
  {
    if ds != [] { BlocksSilent(ds[..|ds| - 1], k); }
  }

  lemma CertTold(cert: string, key: string)
    ensures D.Args([D.Simple("tls " + (cert + (" " + key)))], "tls") == [cert + (" " + key)]
    ensures D.Bodies([D.Simple("tls " + (cert + (" " + key)))], "tls ") == []
  {
    var text := "tls " + (cert + (" " + key));
    Begins("tls ", "tls", cert + (" " + key));
    hide D.Args, D.Bodies, D.Word, D.Rest;
    ArgOf(text, "tls", cert + (" " + key), "tls");
    NoBody(text, "tls ");
  }

  lemma NothingTold()
    ensures D.Args([], "tls") == [] && D.Bodies([], "tls ") == []
  {
  }

  lemma TlsTold(h: Host, providers: map<nat, DnsProvider>)
    ensures D.Args(TlsDirs(h, TlsMode(h), providers), "tls") == CertArgs(h)
    ensures D.Bodies(TlsDirs(h, TlsMode(h), providers), "tls ") ==
            var p := ProviderOf(h, providers); if p.Some? then D.Bodies(DnsDirs(p.value), "tls ") else []
  {
    hide D.Args, D.Bodies, DnsDirs;
    CertTold(h.certPath, h.keyPath);
    NothingTold();
    var p := ProviderOf(h, providers);
    if p.Some? { DnsSilent(p.value); }
    assert |"custom"| != |"wildcard"| && |"custom"| != |"dns"|;
  }

  lemma BlockTls(h: Host, providers: map<nat, DnsProvider>, s: Sorted)
    requires IsSorted(h, s)
    ensures D.Args(BeforeDirs(h, providers, s), "tls") == CertArgs(h)
    ensures D.Bodies(BeforeDirs(h, providers, s), "tls ") ==
            var p := ProviderOf(h, providers); if p.Some? then D.Bodies(DnsDirs(p.value), "tls ") else []
  {
    Letters();
    Parts(h, providers, s);
    TlsText();
    GuardsLack(h, s, "tls");
    AnswersLack(h, "tls");
    MainLacks(h, s, "tls");
    TlsTold(h, providers);
    EncodeSilent(h);
    assert Top(h, providers) == TlsDirs(h, TlsMode(h), providers) + Optionally(On(h.compression), ENCODE);
    hide *;
    FirstArgs(Top(h, providers), GuardDirs(h, s), AnswerDirs(h), MainDirs(h, s), "tls");
    FirstBodies(Top(h, providers), GuardDirs(h, s), AnswerDirs(h), MainDirs(h, s), "tls ");
    D.ArgsConcat(TlsDirs(h, TlsMode(h), providers), Optionally(On(h.compression), ENCODE), "tls");
    D.BodiesConcat(TlsDirs(h, TlsMode(h), providers), Optionally(On(h.compression), ENCODE), "tls ");
  }

  lemma EncodeTold(h: Host)
    ensures D.Args(Optionally(On(h.compression), ENCODE), "encode") == if On(h.compression) then ["gzip zstd"] else []
  {
    EncodeText();
    ArgOf("encode gzip zstd", "encode", "gzip zstd", "encode");
    assert D.Args([], "encode") == [];
    hide D.Args, D.Word, D.Rest;
  }

  /** The answers are compressed exactly if the host says so. */
  lemma BlockEncode(h: Host, providers: map<nat, DnsProvider>, s: Sorted)
    requires IsSorted(h, s)
    ensures D.Args(BeforeDirs(h, providers, s), "encode") == if On(h.compression) then ["gzip zstd"] else []
  {
    Letters();
    assert "encode"[0] == 'e' && "tls"[0] == 't';
    Parts(h, providers, s);
    GuardsLack(h, s, "encode");
    AnswersLack(h, "encode");
    MainLacks(h, s, "encode");
    TlsWords(h, TlsMode(h), providers);
    OnlyLacks(TlsDirs(h, TlsMode(h), providers), {"tls"}, "encode");
    EncodeTold(h);
    assert Top(h, providers) == TlsDirs(h, TlsMode(h), providers) + Optionally(On(h.compression), ENCODE);
    hide *;
    FirstArgs(Top(h, providers), GuardDirs(h, s), AnswerDirs(h), MainDirs(h, s), "encode");
    D.ArgsConcat(TlsDirs(h, TlsMode(h), providers), Optionally(On(h.compression), ENCODE), "encode");
    D.ArgsNone(TlsDirs(h, TlsMode(h), providers), "encode");
  }

  function ValueOf(config: map<string, string>, key: string): string {
    if key == "region" then Region(config) else Get(config, key)
  }

  /** A line for each key, with the value that the configuration has for that very key. */
  function Credentials(config: map<string, string>, keys: seq<string>): seq<string> {
    seq(|keys|, i requires 0 <= i < |keys| => "\t" + (keys[i] + (" " + ValueOf(config, keys[i]))))
  }

  function KeysOf(provider: string): seq<string> {
    if provider == "alidns" then ["access_key_id", "access_key_secret"]
    else if provider == "tencentcloud" then ["secret_id", "secret_key"]
    else if provider == "route53" then ["region", "access_key_id", "secret_access_key"]
    else []
  }

  /** What stands in the block for the DNS challenge, if all credentials can be written. */
  function ChallengeLines(p: DnsProvider, config: map<string, string>): seq<string> {
    if p.provider == "cloudflare" then ["dns cloudflare " + Get(config, "api_token")]
    else ["dns " + (p.provider + " ") + "{"] + Credentials(config, KeysOf(p.provider)) + ["}"]
  }

  /** Every credential that the provider needs is there and safe to write. */
  predicate AllUsable(provider: string, config: map<string, string>) {
    if provider == "cloudflare" then Usable(Get(config, "api_token"))
    else KeysOf(provider) != [] && forall k | k in KeysOf(provider) :: Usable(ValueOf(config, k))
  }

  /** Nothing is written unless all credentials are usable. */
  function ChallengeBody(p: DnsProvider): seq<string> {
    if p.config.Some? && AllUsable(p.provider, p.config.value) then ChallengeLines(p, p.config.value) else []
  }

  lemma SettingsAre(config: map<string, string>, keys: seq<string>, settings: seq<(string, string)>)
    requires |settings| == |keys|
    requires forall i | 0 <= i < |keys| :: settings[i] == (keys[i], ValueOf(config, keys[i]))
    ensures SettingLines(settings) == Credentials(config, keys)
  {
  }

  lemma KeyNames()
    ensures "access_key_id" != "region" && "access_key_secret" != "region" && "secret_id" != "region"
    ensures "secret_key" != "region" && "secret_access_key" != "region" && "api_token" != "region"
    ensures "alidns" != "cloudflare" && "tencentcloud" != "cloudflare" && "route53" != "cloudflare"
    ensures "alidns" != "route53" && "tencentcloud" != "route53" && "alidns" != "tencentcloud"
  {
    assert |"region"| == 6 && |"api_token"| == 9;
  }

  lemma PairTold(p: DnsProvider, config: map<string, string>, first: string, second: string)
    requires KeysOf(p.provider) == [first, second] && first != "region" && second != "region"
    requires p.config == Some(config) && p.provider != "cloudflare"
    requires DnsDirs(p) == PairDirs(p.provider, config, first, second)
    ensures D.Bodies(DnsDirs(p), "tls ") == ChallengeBody(p)
  {
    var keys := [first, second];
    var lines := ["dns " + (p.provider + " ") + "{"] + SettingLines(KeyPair(config, first, second)) + ["}"];
    assert forall k | k in keys :: k == first || k == second;
    assert keys[0] in keys && keys[1] in keys;
    SettingsAre(config, keys, KeyPair(config, first, second));
    OneBody("tls ", lines);
    assert D.Bodies([], "tls ") == [];
    hide D.Bodies, DnsDirs, SettingLines, Credentials, Usable, KeysOf, SafeDnsValue;
  }

  lemma Route53Told(p: DnsProvider, config: map<string, string>)
    requires p.provider == "route53" && p.config == Some(config)
    requires DnsDirs(p) == Route53Dirs(config)
    ensures D.Bodies(DnsDirs(p), "tls ") == ChallengeBody(p)
  {
    KeyNames();
    var keys := ["region", "access_key_id", "secret_access_key"];
    var settings := [("region", Region(config))] + KeyPair(config, "access_key_id", "secret_access_key");
    var lines := ["dns " + ("route53" + " ") + "{"] + SettingLines(settings) + ["}"];
    assert KeysOf(p.provider) == keys;
    assert keys[0] in keys && keys[1] in keys && keys[2] in keys;
    assert forall k | k in keys :: k == keys[0] || k == keys[1] || k == keys[2];
    SettingsAre(config, keys, settings);
    OneBody("tls ", lines);
    assert D.Bodies([], "tls ") == [];
    assert Region(config) != "";
    hide D.Bodies, DnsDirs, SettingLines, Credentials, KeysOf, SafeDnsValue;
  }

  /** The block for the DNS challenge names the provider and gives each credential under its own key. */
  lemma DnsTold(p: DnsProvider)
    ensures D.Bodies(DnsDirs(p), "tls ") == ChallengeBody(p)
  {
    KeyNames();
    assert D.Bodies([], "tls ") == [];
    if p.config.Some? {
      var config := p.config.value;
      if p.provider == "cloudflare" {
        OneBody("tls ", ["dns cloudflare " + Get(config, "api_token")]);
        hide D.Bodies, Usable;
      } else if p.provider == "alidns" {
        PairTold(p, config, "access_key_id", "access_key_secret");
      } else if p.provider == "tencentcloud" {
        PairTold(p, config, "secret_id", "secret_key");
      } else if p.provider == "route53" {
        Route53Told(p, config);
      }
    }
  }

  // ---------------------------------------------------------------------------------------------
  // The whole block
  // ---------------------------------------------------------------------------------------------

  ghost predicate TellsHeaders(h: Host, lines: seq<string>) {
    if Proxying(h) then exists sorted :: IsHeaders(h, sorted) && lines == Secured(h) + CustomLines(sorted)
    else lines == Secured(h)
  }

  /** What the directives tell the server about every request. */
  ghost predicate TellsRequests(h: Host, ds: seq<D.Directive>) {
    && (forall q :: D.Aborts(ds, q) <==> SomeBars(h.accessRules, q))
    && (forall q, status :: D.Answers(ds, q, status) <==> On(h.corsEnabled) && q.verb == "OPTIONS" && status == "204")
    && (forall q, address :: D.Proxies(ds, q, address) <==> GoesTo(h, q, address))
  }

  /** And about the site: logins, headers, certificates and the files or the redirect of the host type. */
  ghost predicate TellsSite(h: Host, providers: map<nat, DnsProvider>, ds: seq<D.Directive>) {
    && D.Bodies(ds, "basicauth ") == AuthLines(h.basicAuths)
    && D.Bodies(ds, "header @cors_preflight ") == Preflighted(h)
    && TellsHeaders(h, D.Bodies(ds, "header "))
    && D.Args(ds, "encode") == (if On(h.compression) then ["gzip zstd"] else [])
    && D.Args(ds, "tls") == CertArgs(h)
    && (var p := ProviderOf(h, providers); D.Bodies(ds, "tls ") == if p.Some? then ChallengeBody(p.value) else [])
    && (forall k | k in {"redir", "root", "try_files", "file_server", "php_fastcgi"} :: D.Args(ds, k) == SiteArgs(h, k))
  }

  lemma RequestsTold(h: Host, providers: map<nat, DnsProvider>, s: Sorted)
    requires IsSorted(h, s) && forall u | u in h.upstreams :: SafeToken(u.address)
    ensures TellsRequests(h, BeforeDirs(h, providers, s))
  {
    hide D.Aborts, D.Answers, D.Proxies, BeforeDirs, IsSorted, SomeBars, GoesTo, SafeToken;
    forall q ensures D.Aborts(BeforeDirs(h, providers, s), q) <==> SomeBars(h.accessRules, q) {
      BlockAborts(h, providers, s, q);
    }
    forall q, a
      ensures D.Answers(BeforeDirs(h, providers, s), q, a) <==> On(h.corsEnabled) && q.verb == "OPTIONS" && a == "204"
      ensures D.Proxies(BeforeDirs(h, providers, s), q, a) <==> GoesTo(h, q, a)
    {
      BlockAnswers(h, providers, s, q, a);
      BlockProxies(h, providers, s, q, a);
    }
  }

  lemma SiteTold(h: Host, providers: map<nat, DnsProvider>, s: Sorted)
    requires IsSorted(h, s)
    ensures TellsSite(h, providers, BeforeDirs(h, providers, s))
  {
    BlockAuths(h, providers, s);
    BlockHeaders(h, providers, s);
    BlockTls(h, providers, s);
    BlockEncode(h, providers, s);
    var p := ProviderOf(h, providers);
    if p.Some? { DnsTold(p.value); }
    HeadersTold(h, s);
    hide D.Args, D.Bodies, BeforeDirs, IsSorted, SiteArgs, ChallengeBody, ProviderOf, CertArgs, AuthLines, DnsDirs,
      Preflighted, TellsHeaders, Secured, CustomLines;
    forall k | k in {"redir", "root", "try_files", "file_server", "php_fastcgi"}
      ensures D.Args(BeforeDirs(h, providers, s), k) == SiteArgs(h, k)
    {
      BlockSite(h, providers, s, k);
    }
  }

  lemma HeadersTold(h: Host, s: Sorted)
    requires IsSorted(h, s)
    ensures TellsHeaders(h, Secured(h) + if Proxying(h) then CustomLines(s.headers) else [])
  {
    assert Secured(h) + [] == Secured(h);
    hide Secured, CustomLines;
  }

  /** A generated block tells the server exactly what its host says, before the custom directives add theirs. */
  lemma BlockTells(h: Host, providers: map<nat, DnsProvider>, logDir: string, block: Block)
    requires Validated(h) && Written(h, providers, logDir, block) && block.Generated?
    ensures TellsRequests(h, D.Directives(block.before)) && TellsSite(h, providers, D.Directives(block.before))
  {
    hide *;
    SafeAddresses(h);
    var s := Pieces(h, providers, logDir, block);
    TextRead(block.before, BeforeDirs(h, providers, s));
    RequestsTold(h, providers, s);
    SiteTold(h, providers, s);
  }

  // ---------------------------------------------------------------------------------------------
  // Behind the custom directives
  // ---------------------------------------------------------------------------------------------

  lemma ErrorKeywords(path: string)
    ensures Only(ErrorDirs(path), {"handle_errors", "log"})
  {
    Leads("handle_errors ", "handle_errors", "");
    hide D.Word, D.Rest, ErrorLines;
  }

  lemma LogKeywords(domain: string, logDir: string)
    ensures Only(LogDirs(domain, logDir), {"handle_errors", "log"})
  {
    Leads("log ", "log", "");
    hide D.Word, D.Rest, SafeDomainFileName;
  }

  /** Error pages and log have no say in where a request goes. */
  lemma AfterLacks(h: Host, logDir: string, k: string)
    requires k !in {"handle_errors", "log"} && k != "" && k[0] != '@'
    ensures D.Lacks(AfterDirs(h, logDir), {k})
  {
    ErrorKeywords(h.errorPagePath);
    LogKeywords(h.domain, logDir);
    hide Only, ErrorDirs, LogDirs, D.Lacks;
    OptionalOnly(h.errorPagePath != "", ErrorDirs(h.errorPagePath), {"handle_errors", "log"});
    OnlyConcat(Optionally(h.errorPagePath != "", ErrorDirs(h.errorPagePath)), LogDirs(h.domain, logDir),
               {"handle_errors", "log"});
    OnlyLacks(AfterDirs(h, logDir), {"handle_errors", "log"}, k);
  }

  lemma TellsMore(h: Host, ds: seq<D.Directive>, more: seq<D.Directive>)
    requires TellsRequests(h, ds)
    requires D.Lacks(more, {"abort"}) && D.Lacks(more, {"respond"}) && D.Lacks(more, {"reverse_proxy"})
    ensures TellsRequests(h, ds + more)
  {
    hide D.Aborts, D.Answers, D.Proxies, D.Lacks, SomeBars, GoesTo;
    forall q ensures D.Aborts(ds + more, q) <==> SomeBars(h.accessRules, q) {
      D.AbortsSame(ds, more, q);
    }
    forall q, a
      ensures D.Answers(ds + more, q, a) <==> On(h.corsEnabled) && q.verb == "OPTIONS" && a == "204"
      ensures D.Proxies(ds + more, q, a) <==> GoesTo(h, q, a)
    {
      D.AnswersSame(ds, more, q, a);
      D.ProxiesSame(ds, more, q, a);
    }
  }

  lemma TextsJoin(a: string, b: string, ds: seq<D.Directive>, more: seq<D.Directive>)
    requires IsText(a, ds) && IsText(b, more)
    ensures IsText(a + b, ds + more)
  {
    D.AllLinesConcat(ds, more);
    hide D.AllLines, Braces.Unlines;
    UnlinesConcat(D.AllLines(ds), D.AllLines(more));
  }

  lemma AfterMore(h: Host, logDir: string, ds: seq<D.Directive>)
    requires TellsRequests(h, ds)
    ensures TellsRequests(h, ds + AfterDirs(h, logDir))
  {
    Letters();
    AfterLacks(h, logDir, "abort");
    AfterLacks(h, logDir, "respond");
    AfterLacks(h, logDir, "reverse_proxy");
    hide *;
    TellsMore(h, ds, AfterDirs(h, logDir));
  }

  lemma Pieces(h: Host, providers: map<nat, DnsProvider>, logDir: string, block: Block) returns (s: Sorted)
    requires Written(h, providers, logDir, block) && block.Generated?
    ensures IsSorted(h, s) && IsText(block.before, BeforeDirs(h, providers, s))
    ensures IsText(block.after, AfterDirs(h, logDir))
    ensures block.custom == "" ==> block.before + block.custom + block.after == block.before + block.after
  {
    s :| IsSorted(h, s) && IsText(block.before, BeforeDirs(h, providers, s));
    assert block.before + "" == block.before;
  }

  lemma SafeAddresses(h: Host)
    requires Validated(h)
    ensures forall u | u in h.upstreams :: SafeToken(u.address)
  {
  }

  /** Without custom directives the same holds of the whole block. */
  lemma WholeBlockTells(h: Host, providers: map<nat, DnsProvider>, logDir: string, block: Block)
    requires Validated(h) && Written(h, providers, logDir, block) && block.Generated? && block.custom == ""
    ensures TellsRequests(h, D.Directives(block.before + block.custom + block.after))
  {
    hide *;
    SafeAddresses(h);
    var s := Pieces(h, providers, logDir, block);
    var ds, more := BeforeDirs(h, providers, s), AfterDirs(h, logDir);
    RequestsTold(h, providers, s);
    AfterMore(h, logDir, ds);
    TextsJoin(block.before, block.after, ds, more);
    TextRead(block.before + block.after, ds + more);
  }

  lemma TextRead(text: string, ds: seq<D.Directive>)
    requires IsText(text, ds)
    ensures D.Directives(text) == ds
  {
    D.ReadsBack(ds);
  }
}
