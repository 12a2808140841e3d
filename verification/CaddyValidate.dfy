/** internal/caddy/validate.go: the checks on what users may put into the Caddyfile. */
module CaddyValidate {
  import opened Text
  import opened Optional
  import opened Braces

  // ---------------------------------------------------------------------------------------------
  // Site addresses
  // ---------------------------------------------------------------------------------------------

  /** strings.ContainsAny */
  predicate HasAny(s: string, chars: string) {
    exists i | 0 <= i < |s| :: s[i] in chars
  }

  /** strings.LastIndex for one character, -1 when it does not occur. */
  function LastIndexOf(s: string, c: char): (i: int)
    ensures -1 <= i < |s| && (i >= 0 ==> s[i] == c)
  {
    if s == "" then -1
    else if s[|s| - 1] == c then |s| - 1
    else LastIndexOf(s[..|s| - 1], c)
  }

  datatype HostPort = HostPort(host: string, port: string, hasPort: bool)

  function SplitDomainPort(domain: string): HostPort {
    var i := LastIndexOf(domain, ':');
    if i < 0 || i == |domain| - 1 || !Digits(domain[i + 1..]) then HostPort(domain, "", false)
    else HostPort(domain[..i], domain[i + 1..], true)
  }

  predicate Alnum(c: char) {
    'a' <= c <= 'z' || 'A' <= c <= 'Z' || '0' <= c <= '9'
  }

  /** [a-zA-Z0-9]([a-zA-Z0-9\-]{0,61}[a-zA-Z0-9])? */
  predicate Label(s: string) {
    && 1 <= |s| <= 63 && Alnum(s[0]) && Alnum(s[|s| - 1])
    && forall i | 0 <= i < |s| :: Alnum(s[i]) || s[i] == '-'
  }

  predicate Labels(s: string) {
    forall l | l in Split(s, '.') :: Label(l)
  }

  /** The regular expression for domains: labels, an optional wildcard before and an optional port after. */
  predicate DomainShape(domain: string) {
    var body := TrimPrefix(domain, "*.");
    var i := LastIndexOf(body, ':');
    if i < 0 then Labels(body)
    else Labels(body[..i]) && 1 <= |body| - 1 - i <= 5 && Digits(body[i + 1..])
  }

  predicate ValidDomain(domain: string) {
    var parts := SplitDomainPort(domain);
    && domain != "" && |domain| <= 255 && |parts.host| <= 253
    && !HasAny(domain, " \t\n\r{}\"'`;#$\\")
    && DomainShape(domain)
    && (parts.hasPort ==> Digits(parts.port) && 1 <= Number(parts.port) <= 65535)
  }

  datatype Address = Address(exact: string, host: string, hasPort: bool)

  function StripScheme(a: string): string {
    if HasPrefix(a, "http://") then TrimPrefix(a, "http://") else TrimPrefix(a, "https://")
  }

  function NormalizeAddress(address: string): (r: Option<Address>)
  {
    var a := StripScheme(Lower(TrimSpace(address)));
    if !ValidDomain(a) then None
    else
      var parts := SplitDomainPort(a);
      Some(Address(a, parts.host, parts.hasPort))
  }

  /** What a domain of the host allows in the header of its block. */
  predicate Grants(domain: string, a: Address) {
    var d := Lower(TrimSpace(domain));
    d != "" &&
    var n := NormalizeAddress(d);
    n.Some? && (n.value.exact == a.exact || (a.hasPort && !n.value.hasPort && n.value.host == a.host))
  }

  // ---------------------------------------------------------------------------------------------
  // ValidateCaddyValue
  // ---------------------------------------------------------------------------------------------

  predicate CaddyValue(value: string) {
    value == "" || !HasAny(value, "\n\r{}\"\\")
  }

  /** A value is accepted exactly if it has no line break, brace, quote or backslash. */
  lemma CaddyValueIff(value: string)
    ensures CaddyValue(value) <==>
              Plain(value) && '\r' !in value && '"' !in value && '\\' !in value
  {
    hide HasAny;
    if CaddyValue(value) {
      CaddyValuePlain(value);
    } else {
      Forbidden(value);
      PlainMembers(value);
    }
  }

  lemma Forbidden(value: string)
    requires HasAny(value, "\n\r{}\"\\")
    ensures '\n' in value || '\r' in value || '{' in value || '}' in value || '"' in value || '\\' in value
  {
  }

  lemma CaddyValuePlain(value: string)
    requires CaddyValue(value)
    ensures Plain(value) && '\r' !in value && '"' !in value && '\\' !in value
  {
    forall c | c in value ensures c !in "\n\r{}\"\\" {
      var i :| 0 <= i < |value| && value[i] == c;
    }
    assert '\n' in "\n\r{}\"\\" && '{' in "\n\r{}\"\\" && '}' in "\n\r{}\"\\";
  }

  lemma ValidDomainPlain(domain: string)
    requires ValidDomain(domain)
    ensures Plain(domain) && domain != "" && '#' !in domain && domain[0] != '#'
    ensures forall c | c in domain :: c != ' ' && c != '\t'
  {
    forall c | c in domain ensures c !in " \t\n\r{}\"'`;#$\\" {
      var i :| 0 <= i < |domain| && domain[i] == c;
    }
    assert '\n' in " \t\n\r{}\"'`;#$\\" && '{' in " \t\n\r{}\"'`;#$\\" && '}' in " \t\n\r{}\"'`;#$\\";
    assert '#' in " \t\n\r{}\"'`;#$\\" && domain[0] in domain;
  }

  // ---------------------------------------------------------------------------------------------
  // SanitizeCustomDirectives
  // ---------------------------------------------------------------------------------------------

  datatype DirectivesReply =
    | Accepted
    | ClosesTooMuch(line: nat)  // one-based
    | LeavesOpen(depth: int)

  ghost predicate DirectivesVerdict(directives: string, r: DirectivesReply) {
    var lines := Split(directives, '\n');
    match r
    case Accepted => Neutral(directives + "\n")
    case ClosesTooMuch(n) =>
      1 <= n <= |lines| && Stays(BEGIN, Unlines(lines[..n - 1]), 0) && !Stays(BEGIN, Unlines(lines[..n]), 0)
    case LeavesOpen(k) => k != 0 && Opens(directives + "\n", k)
  }

  /** The characters of one trimmed line; `ok` is false as soon as the depth falls below zero. */
  method ScanLine(trimmed: string, depth: int) returns (ok: bool, d: int)
    requires trimmed != "" && trimmed[0] != '#' && !IsSpace(trimmed[0]) && '\n' !in trimmed && depth >= 0
    ensures ok <==> Stays(State(depth, Start), trimmed, 0)
    ensures ok ==> Run(State(depth, Start), trimmed).depth == d
  {
    d := depth;
    var i := 0;
    while i < |trimmed|
      invariant 0 <= i <= |trimmed|
      invariant Run(State(depth, Start), trimmed[..i]) == State(d, if i == 0 then Start else Code)
      invariant Stays(State(depth, Start), trimmed[..i], 0)
    {
      var c := trimmed[i];
      assert c in trimmed;
      assert trimmed[..i + 1] == trimmed[..i] + [c];
      Append(State(depth, Start), trimmed[..i], [c], 0);
      OneStep(Run(State(depth, Start), trimmed[..i]), c, 0);
      StaysEnd(State(depth, Start), trimmed[..i], 0);
      match c {
        case '{' => d := d + 1;
        case '}' =>
          d := d - 1;
          if d < 0 {
            assert trimmed == trimmed[..i + 1] + trimmed[i + 1..];
            Append(State(depth, Start), trimmed[..i + 1], trimmed[i + 1..], 0);
            return false, d;
          }
        case _ =>
      }
      i := i + 1;
    }
    assert trimmed[..i] == trimmed;
    return true, d;
  }

  lemma NextLine(lines: seq<string>, i: nat, depth: int)
    requires i < |lines| && Opens(Unlines(lines[..i]), depth)
    ensures
      var t := TrimSpace(lines[i]);
      && (Stays(BEGIN, Unlines(lines[..i + 1]), 0) <==> Stays(State(depth, Start), t, 0))
      && Run(BEGIN, Unlines(lines[..i + 1])) == State(Run(State(depth, Start), t).depth, Start)
  {
    assert lines[..i + 1] == lines[..i] + [lines[i]];
    UnlinesAppend(lines[..i], lines[i]);
    var a, b := Unlines(lines[..i]), lines[i] + "\n";
    assert Unlines(lines[..i + 1]) == a + b;
    Append(BEGIN, a, b, 0);
    StaysEnd(BEGIN, a, 0);
    TrimRun(depth, lines[i], 0);
  }

  lemma SkipLine(lines: seq<string>, i: nat, depth: int)
    requires i < |lines| && Opens(Unlines(lines[..i]), depth) && Skipped(lines[i]) && '\n' !in lines[i]
    ensures Opens(Unlines(lines[..i + 1]), depth)
  {
    assert lines[..i + 1] == lines[..i] + [lines[i]];
    UnlinesAppend(lines[..i], lines[i]);
    StaysEnd(BEGIN, Unlines(lines[..i]), 0);
    SkippedRun(depth, lines[i]);
    StaysLower(State(depth, Start), lines[i] + "\n", depth, 0);
    OpensConcat(Unlines(lines[..i]), lines[i] + "\n", depth, depth);
    assert Unlines(lines[..i + 1]) == Unlines(lines[..i]) + (lines[i] + "\n");
  }

  lemma TrimmedLine(line: string)
    requires '\n' !in line && !Skipped(line)
    ensures var t := TrimSpace(line); t != "" && t[0] != '#' && !IsSpace(t[0]) && '\n' !in t
  {
    var l, r := TrimParts(line);
    TrimSpaceTrimmed(line);
    assert forall c | c in TrimSpace(line) :: c in line;
  }

  method SanitizeCustomDirectives(directives: string) returns (r: DirectivesReply)
    ensures DirectivesVerdict(directives, r)
  {
    var lines := Split(directives, '\n');
    UnlinesSplit(directives);
    if directives == "" {
      EmptyNeutral();
      return Accepted;
    }
    var braceDepth := 0;
    var i := 0;
    while i < |lines|
      invariant 0 <= i <= |lines|
      invariant Opens(Unlines(lines[..i]), braceDepth) && braceDepth >= 0
    {
      assert lines[i] in lines;
      var trimmed := TrimSpace(lines[i]);
      if trimmed == "" || trimmed[0] == '#' {
        SkipLine(lines, i, braceDepth);
      } else {
        TrimmedLine(lines[i]);
        NextLine(lines, i, braceDepth);
        var ok, depth := ScanLine(trimmed, braceDepth);
        if !ok {
          return ClosesTooMuch(i + 1);
        }
        StaysEnd(State(braceDepth, Start), trimmed, 0);
        braceDepth := depth;
      }
      i := i + 1;
    }
    assert lines[..i] == lines;
    if braceDepth != 0 {
      return LeavesOpen(braceDepth);
    }
    return Accepted;
  }

  lemma EmptyNeutral()
    ensures Neutral("" + "\n")
  {
    OneStep(BEGIN, '\n', 0);
    assert "" + "\n" == "\n";
  }

  /** The three verdicts exclude each other, so the reply is determined by the text. */
  lemma VerdictUnique(directives: string, r: DirectivesReply, r': DirectivesReply)
    requires DirectivesVerdict(directives, r) && DirectivesVerdict(directives, r')
    ensures r == r'
  {
    var lines := Split(directives, '\n');
    UnlinesSplit(directives);
    assert lines[..|lines|] == lines;
    assert r.ClosesTooMuch? ==> !Stays(BEGIN, directives + "\n", 0) by {
      if r.ClosesTooMuch? { LaterLines(lines, r.line, |lines|); }
    }
    assert r'.ClosesTooMuch? ==> !Stays(BEGIN, directives + "\n", 0) by {
      if r'.ClosesTooMuch? { LaterLines(lines, r'.line, |lines|); }
    }
    if r.ClosesTooMuch? && r'.ClosesTooMuch? {
      if r.line < r'.line { LaterLines(lines, r.line, r'.line - 1); }
      if r'.line < r.line { LaterLines(lines, r'.line, r.line - 1); }
    }
  }

  /** What has gone wrong stays wrong. */
  lemma LaterLines(lines: seq<string>, i: nat, j: nat)
    requires i <= j <= |lines| && !Stays(BEGIN, Unlines(lines[..i]), 0)
    ensures !Stays(BEGIN, Unlines(lines[..j]), 0)
  {
    UnlinesConcat(lines[..i], lines[i..j]);
    assert lines[..j] == lines[..i] + lines[i..j];
    Append(BEGIN, Unlines(lines[..i]), Unlines(lines[i..j]), 0);
  }

  lemma {:induction false} UnlinesConcat(a: seq<string>, b: seq<string>)
    ensures Unlines(a + b) == Unlines(a) + Unlines(b)
  {
    if a == [] {
      assert a + b == b;
    } else {
      assert (a + b)[1..] == a[1..] + b;
      UnlinesConcat(a[1..], b);
    }
  }

  // ---------------------------------------------------------------------------------------------
  // ValidateFullCaddyBlockForDomains
  // ---------------------------------------------------------------------------------------------

  /** Every non-blank domain of the host is an address, and there is one. */
  ghost predicate DomainsOk(domains: seq<string>) {
    && (exists d :: d in domains && TrimSpace(d) != "")
    && forall d | d in domains && TrimSpace(d) != "" :: NormalizeAddress(Lower(TrimSpace(d))).Some?
  }

  ghost predicate GrantedBy(domains: seq<string>, a: Address) {
    exists d :: d in domains && Grants(d, a)
  }

  /** The address stands for a site of this host. */
  ghost predicate Granted(domains: seq<string>, raw: string) {
    && TrimSpace(raw) != "" && NormalizeAddress(TrimSpace(raw)).Some?
    && GrantedBy(domains, NormalizeAddress(TrimSpace(raw)).value)
  }

  function HeaderAddresses(firstLine: string): seq<string>
    requires HasSuffix(firstLine, "{")
  {
    Split(TrimSpace(firstLine[..|firstLine| - 1]), ',')
  }

  ghost predicate HeaderOk(domains: seq<string>, firstLine: string) {
    HasSuffix(firstLine, "{") && forall raw | raw in HeaderAddresses(firstLine) :: Granted(domains, raw)
  }

  /** A closing brace of line `k` brings the depth back to zero. */
  ghost predicate Closes(lines: seq<string>, k: nat)
    requires k < |lines|
  {
    !Skipped(lines[k]) && ClosesWithin(Run(BEGIN, Unlines(lines[..k])).depth, TrimSpace(lines[k]))
  }

  ghost predicate ClosesWithin(depth: int, t: string) {
    exists j :: 0 <= j < |t| && ClosesAt(depth, t, j)
  }

  ghost predicate ClosesAt(depth: int, t: string, j: nat)
    requires j < |t|
  {
    t[j] == '}' && Run(State(depth, Start), t[..j + 1]).depth == 0
  }

  /** Only blank lines and comments after the line that closes the site. */
  ghost predicate NothingAfterClose(lines: seq<string>, n: nat)
    requires n <= |lines|
  {
    forall k, l | 0 <= k < l < n && Closes(lines, k) :: Skipped(lines[l])
  }

  ghost predicate HasBrace(lines: seq<string>, n: nat)
    requires n <= |lines|
  {
    exists k :: 0 <= k < n && !Skipped(lines[k]) && '{' in TrimSpace(lines[k])
  }

  /** What is accepted as a full block for the given domains. */
  ghost predicate Acceptable(domains: seq<string>, block: string) {
    var b := TrimSpace(block);
    var lines := Split(b, '\n');
    b == "" ||
    (&& DomainsOk(domains) && '\0' !in b
     && HeaderOk(domains, TrimSpace(lines[0]))
     && HasBrace(lines, |lines|) && Neutral(b + "\n") && NothingAfterClose(lines, |lines|))
  }

  datatype BlockReply =
    | BlockAccepted
    | BadDomain
    | NoDomain
    | NullByte
    | BadHeader
    | BadAddress(address: string)
    | ContentAfterClose(line: nat)
    | ClosesTooMuchAt(line: nat)
    | NoBrace
    | LeftOpen(depth: int)

  /** What the host's domains allow: exact addresses, and host names on any port. */
  ghost predicate Collects(domains: seq<string>, exact: set<string>, anyPort: set<string>) {
    forall a: Address :: (a.exact in exact || (a.hasPort && a.host in anyPort)) <==> GrantedBy(domains, a)
  }

  lemma GrantedByMore(domains: seq<string>, n: nat, a: Address)
    requires n < |domains|
    ensures GrantedBy(domains[..n + 1], a) <==> GrantedBy(domains[..n], a) || Grants(domains[n], a)
  {
    hide Grants;
    assert domains[..n + 1] == domains[..n] + [domains[n]];
    assert domains[n] in domains[..n + 1];
    assert forall x | x in domains[..n] :: x in domains[..n + 1];
  }

  lemma CollectMore(domains: seq<string>, n: nat, exact: set<string>, anyPort: set<string>,
      d: string)
    requires n < |domains| && domains[n] == d && Collects(domains[..n], exact, anyPort)
    ensures Lower(TrimSpace(d)) == "" ==> Collects(domains[..n + 1], exact, anyPort)
    ensures Lower(TrimSpace(d)) != "" && NormalizeAddress(Lower(TrimSpace(d))).Some? ==>
              var a := NormalizeAddress(Lower(TrimSpace(d))).value;
              Collects(domains[..n + 1], exact + {a.exact}, if a.hasPort then anyPort else anyPort + {a.host})
  {
    hide NormalizeAddress, GrantedBy;
    forall a: Address
      ensures GrantedBy(domains[..n + 1], a) <==> GrantedBy(domains[..n], a) || Grants(d, a)
    {
      GrantedByMore(domains, n, a);
    }
  }

  method CollectDomains(domains: seq<string>)
    returns (r: BlockReply, exact: set<string>, anyPort: set<string>)
    ensures r.BlockAccepted? <==> DomainsOk(domains)
    ensures r.BlockAccepted? || r.BadDomain? || r.NoDomain?
    ensures r.BlockAccepted? ==> Collects(domains, exact, anyPort)
  {
    hide NormalizeAddress, Grants, Collects;
    exact, anyPort := {}, {};
    var seen := false;
    assert Collects(domains[..0], exact, anyPort) by { CollectNone(domains); }
    var n := 0;
    while n < |domains|
      invariant 0 <= n <= |domains|
      invariant seen <==> exists j :: 0 <= j < n && TrimSpace(domains[j]) != ""
      invariant forall j | 0 <= j < n && TrimSpace(domains[j]) != "" ::
                  NormalizeAddress(Lower(TrimSpace(domains[j]))).Some?
      invariant Collects(domains[..n], exact, anyPort)
    {
      var d := Lower(TrimSpace(domains[n]));
      CollectMore(domains, n, exact, anyPort, domains[n]);
      if d != "" {
        var a := NormalizeAddress(d);
        if a.None? {
          assert domains[n] in domains;
          return BadDomain, exact, anyPort;
        }
        seen := true;
        exact := exact + {a.value.exact};
        if !a.value.hasPort {
          anyPort := anyPort + {a.value.host};
        }
      }
      n := n + 1;
    }
    assert domains[..n] == domains;
    if !seen {
      forall d | d in domains ensures TrimSpace(d) == "" {
        var j :| 0 <= j < |domains| && domains[j] == d;
      }
      return NoDomain, exact, anyPort;
    }
    forall d | d in domains && TrimSpace(d) != "" ensures NormalizeAddress(Lower(TrimSpace(d))).Some? {
      var j :| 0 <= j < |domains| && domains[j] == d;
    }
    var j :| 0 <= j < |domains| && TrimSpace(domains[j]) != "";
    assert domains[j] in domains;
    return BlockAccepted, exact, anyPort;
  }

  lemma CollectNone(domains: seq<string>)
    ensures Collects(domains[..0], {}, {})
  {
  }

  lemma GrantedIff(domains: seq<string>, raw: string, exact: set<string>, anyPort: set<string>)
    requires Collects(domains, exact, anyPort)
    ensures Granted(domains, raw) <==>
              TrimSpace(raw) != "" &&
              var n := NormalizeAddress(TrimSpace(raw));
              n.Some? && (n.value.exact in exact || (n.value.hasPort && n.value.host in anyPort))
  {
    hide NormalizeAddress, GrantedBy;
  }

  lemma HeaderFails(domains: seq<string>, firstLine: string, raw: string)
    requires HasSuffix(firstLine, "{") && raw in HeaderAddresses(firstLine) && !Granted(domains, raw)
    ensures !HeaderOk(domains, firstLine)
  {
  }

  lemma HeaderHolds(domains: seq<string>, firstLine: string)
    requires HasSuffix(firstLine, "{")
    requires forall raw | raw in HeaderAddresses(firstLine) :: Granted(domains, raw)
    ensures HeaderOk(domains, firstLine)
  {
  }

  lemma HeaderNeedsBrace(domains: seq<string>, firstLine: string)
    requires !HasSuffix(firstLine, "{")
    ensures !HeaderOk(domains, firstLine)
  {
  }

  method CheckHeader(firstLine: string, domains: seq<string>, exact: set<string>, anyPort: set<string>)
    returns (r: BlockReply)
    requires Collects(domains, exact, anyPort)
    ensures r.BlockAccepted? <==> HeaderOk(domains, firstLine)
    ensures r.BlockAccepted? || r.BadHeader? || r.BadAddress?
  {
    hide NormalizeAddress, Granted, HeaderOk, Collects, HeaderAddresses;
    if !HasSuffix(firstLine, "{") {
      HeaderNeedsBrace(domains, firstLine);
      return BadHeader;
    }
    var addresses := HeaderAddresses(firstLine);
    var n := 0;
    while n < |addresses|
      invariant 0 <= n <= |addresses|
      invariant forall j | 0 <= j < n :: Granted(domains, addresses[j])
    {
      var raw := addresses[n];
      assert raw in addresses;
      GrantedIff(domains, raw, exact, anyPort);
      var address := TrimSpace(raw);
      if address == "" {
        HeaderFails(domains, firstLine, raw);
        return BadHeader;
      }
      var a := NormalizeAddress(address);
      if a.None? {
        HeaderFails(domains, firstLine, raw);
        return BadAddress(address);
      }
      if a.value.exact !in exact && !(a.value.hasPort && a.value.host in anyPort) {
        HeaderFails(domains, firstLine, raw);
        return BadAddress(address);
      }
      n := n + 1;
    }
    HeaderHolds(domains, firstLine);
    return BlockAccepted;
  }

  /** The characters of one trimmed line of a full block. */
  method ScanBlockLine(trimmed: string, depth: int, seen: bool, closed: bool)
    returns (ok: bool, d: int, seenOpen: bool, closedRoot: bool)
    requires trimmed != "" && trimmed[0] != '#' && !IsSpace(trimmed[0]) && '\n' !in trimmed
    requires depth >= 0 && (depth > 0 ==> seen)
    ensures ok <==> Stays(State(depth, Start), trimmed, 0)
    ensures ok ==> Run(State(depth, Start), trimmed).depth == d && (d > 0 ==> seenOpen)
    ensures ok ==> (seenOpen <==> seen || '{' in trimmed)
    ensures ok ==> (closedRoot <==> closed || ClosesWithin(depth, trimmed))
  {
    d, seenOpen, closedRoot := depth, seen, closed;
    ghost var s0 := State(depth, Start);
    var i := 0;
    while i < |trimmed|
      invariant 0 <= i <= |trimmed|
      invariant Run(s0, trimmed[..i]) == State(d, if i == 0 then Start else Code)
      invariant Stays(s0, trimmed[..i], 0) && (d > 0 ==> seenOpen)
      invariant seenOpen <==> seen || '{' in trimmed[..i]
      invariant closedRoot <==> closed || exists j :: 0 <= j < i && ClosesAt(depth, trimmed, j)
    {
      var c := trimmed[i];
      assert c in trimmed;
      assert trimmed[..i + 1] == trimmed[..i] + [c];
      Append(s0, trimmed[..i], [c], 0);
      OneStep(Run(s0, trimmed[..i]), c, 0);
      StaysEnd(s0, trimmed[..i], 0);
      match c {
        case '{' =>
          d := d + 1;
          seenOpen := true;
        case '}' =>
          d := d - 1;
          if d < 0 {
            assert trimmed == trimmed[..i + 1] + trimmed[i + 1..];
            Append(s0, trimmed[..i + 1], trimmed[i + 1..], 0);
            return false, d, seenOpen, closedRoot;
          }
          if seenOpen && d == 0 {
            assert ClosesAt(depth, trimmed, i);
            closedRoot := true;
          }
        case _ =>
      }
      i := i + 1;
    }
    assert trimmed[..i] == trimmed;
    return true, d, seenOpen, closedRoot;
  }

  /** The lines of a full block. */
  method ScanBlock(lines: seq<string>) returns (r: BlockReply)
    requires forall line | line in lines :: '\n' !in line
    ensures r.BlockAccepted? <==>
              HasBrace(lines, |lines|) && Neutral(Unlines(lines)) && NothingAfterClose(lines, |lines|)
  {
    hide Closes, Skipped, HasBrace, NothingAfterClose;
    var braceDepth, seenOpen, closedRoot := 0, false, false;
    ScanNothing(lines);
    var i := 0;
    while i < |lines|
      invariant 0 <= i <= |lines|
      invariant Opens(Unlines(lines[..i]), braceDepth) && braceDepth >= 0 && (braceDepth > 0 ==> seenOpen)
      invariant seenOpen <==> HasBrace(lines, i)
      invariant closedRoot <==> exists k :: 0 <= k < i && Closes(lines, k)
      invariant NothingAfterClose(lines, i)
    {
      assert lines[i] in lines;
      var trimmed := TrimSpace(lines[i]);
      if trimmed == "" || trimmed[0] == '#' {
        PassOver(lines, i, braceDepth);
      } else {
        Counted(lines, i, braceDepth);
        if closedRoot {
          ghost var k :| 0 <= k < i && Closes(lines, k);
          ContentLater(lines, k, i);
          return ContentAfterClose(i + 1);
        }
        var ok, d, seen, closed := ScanBlockLine(trimmed, braceDepth, seenOpen, closedRoot);
        if !ok {
          LaterLines(lines, i + 1, |lines|);
          assert lines[..|lines|] == lines;
          return ClosesTooMuchAt(i + 1);
        }
        CountLine(lines, i, braceDepth);
        StaysEnd(State(braceDepth, Start), trimmed, 0);
        braceDepth, seenOpen, closedRoot := d, seen, closed;
      }
      i := i + 1;
    }
    assert lines[..i] == lines;
    if !seenOpen {
      return NoBrace;
    }
    if braceDepth != 0 {
      return LeftOpen(braceDepth);
    }
    return BlockAccepted;
  }

  lemma ScanNothing(lines: seq<string>)
    ensures Opens(Unlines(lines[..0]), 0) && !HasBrace(lines, 0) && NothingAfterClose(lines, 0)
  {
  }

  lemma PassOver(lines: seq<string>, i: nat, depth: int)
    requires i < |lines| && '\n' !in lines[i] && Opens(Unlines(lines[..i]), depth)
    requires TrimSpace(lines[i]) == "" || TrimSpace(lines[i])[0] == '#'
    requires NothingAfterClose(lines, i)
    ensures Opens(Unlines(lines[..i + 1]), depth) && NothingAfterClose(lines, i + 1) && !Closes(lines, i)
    ensures HasBrace(lines, i + 1) <==> HasBrace(lines, i)
  {
    SkipLine(lines, i, depth);
  }

  lemma Counted(lines: seq<string>, i: nat, depth: int)
    requires i < |lines| && '\n' !in lines[i] && Opens(Unlines(lines[..i]), depth)
    requires TrimSpace(lines[i]) != "" && TrimSpace(lines[i])[0] != '#'
    ensures !Skipped(lines[i])
    ensures var t := TrimSpace(lines[i]); !IsSpace(t[0]) && '\n' !in t
    ensures Closes(lines, i) <==> ClosesWithin(depth, TrimSpace(lines[i]))
    ensures Stays(BEGIN, Unlines(lines[..i + 1]), 0) <==> Stays(State(depth, Start), TrimSpace(lines[i]), 0)
  {
    TrimmedLine(lines[i]);
    NextLine(lines, i, depth);
  }

  lemma ContentLater(lines: seq<string>, k: nat, i: nat)
    requires k < i < |lines| && Closes(lines, k) && !Skipped(lines[i])
    ensures !NothingAfterClose(lines, |lines|)
  {
  }

  lemma CountLine(lines: seq<string>, i: nat, depth: int)
    requires i < |lines| && '\n' !in lines[i] && Opens(Unlines(lines[..i]), depth) && !Skipped(lines[i])
    requires Stays(State(depth, Start), TrimSpace(lines[i]), 0)
    requires forall k | 0 <= k < i :: !Closes(lines, k)
    ensures Opens(Unlines(lines[..i + 1]), Run(State(depth, Start), TrimSpace(lines[i])).depth)
    ensures NothingAfterClose(lines, i + 1)
    ensures HasBrace(lines, i + 1) <==> HasBrace(lines, i) || '{' in TrimSpace(lines[i])
  {
    NextLine(lines, i, depth);
  }

  method ValidateFullCaddyBlockForDomains(domains: seq<string>, block: string)
    returns (r: BlockReply)
    ensures r.BlockAccepted? <==> Acceptable(domains, block)
  {
    hide DomainsOk, HeaderOk, HasBrace, Neutral, NothingAfterClose, Collects;
    var b := TrimSpace(block);
    if b == "" {
      return BlockAccepted;
    }
    var exact, anyPort;
    r, exact, anyPort := CollectDomains(domains);
    if !r.BlockAccepted? {
      return;
    }
    if '\0' in b {
      return NullByte;
    }
    var lines := Split(b, '\n');
    UnlinesSplit(b);
    r := CheckHeader(TrimSpace(lines[0]), domains, exact, anyPort);
    if !r.BlockAccepted? {
      return;
    }
    r := ScanBlock(lines);
  }

  // ---------------------------------------------------------------------------------------------
  // What acceptance means
  // ---------------------------------------------------------------------------------------------

  /** A full block that is accepted passes the check on custom directives as well. */
  lemma FullBlockSanitizes(domains: seq<string>, block: string)
    requires Acceptable(domains, block)
    ensures DirectivesVerdict(block, Accepted) && DirectivesVerdict(TrimSpace(block), Accepted)
  {
    EmptyNeutral();
    TrimNeutral(block);
  }

  lemma LowerKeeps(s: string, c: char)
    requires c in s && !('A' <= c <= 'Z')
    ensures c in Lower(s)
  {
    var i :| 0 <= i < |s| && s[i] == c;
    assert Lower(s)[i] == c;
  }

  /** An address of an accepted header has no braces and starts no comment. */
  lemma GrantedPlain(domains: seq<string>, raw: string)
    requires Granted(domains, raw) && '\n' !in raw
    ensures Plain(raw) && TrimSpace(raw) != "" && TrimSpace(raw)[0] != '#'
  {
    var t := TrimSpace(raw);
    KeyOfTrimmed(raw);
    var low := Lower(t);
    var exact := StripScheme(low);
    if t[0] == '#' { HashStays(t); }
    assert t[0] == '#' ==> exact != "" && exact[0] == '#';
    PlainMembers(raw);
    PlainMembers(exact);
    ValidDomainPlain(exact);
    var l, r := TrimParts(raw);
    forall c | c == '{' || c == '}' ensures c !in raw {
      if c in raw {
        assert !IsSpace(c) && c in t;
        LowerKeeps(t, c);
        SchemePlain(low, c);
      }
    }
  }

  lemma KeyOfTrimmed(raw: string)
    ensures TrimSpace(TrimSpace(raw)) == TrimSpace(raw)
  {
    TrimSpaceTrimmed(raw);
  }

  lemma HashStays(t: string)
    requires t != "" && t[0] == '#'
    ensures var a := StripScheme(Lower(t)); a != "" && a[0] == '#'
  {
    assert Lower(t)[0] == '#';
  }

  lemma SchemePlain(low: string, c: char)
    requires c in low && (c == '{' || c == '}')
    ensures c in StripScheme(low)
  {
    assert c !in "http://" && c !in "https://";
    if HasPrefix(low, "http://") {
      assert low == "http://" + low[7..];
    } else if HasPrefix(low, "https://") {
      assert low == "https://" + low[8..];
    }
  }

  lemma {:induction false} JoinPlain(xs: seq<string>, sep: char)
    requires sep != '{' && sep != '}' && sep != '\n' && forall x | x in xs :: Plain(x)
    ensures Plain(Join(xs, sep))
  {
    if |xs| > 1 {
      JoinPlain(xs[1..], sep);
      assert Plain([sep]);
      PlainConcat(xs[0] + [sep], Join(xs[1..], sep));
      PlainConcat(xs[0], [sep]);
    } else if |xs| == 1 {
      assert xs[0] in xs;
    }
  }

  lemma AddressesPlain(domains: seq<string>, f: string)
    requires HeaderOk(domains, f) && '\n' !in f
    ensures HasSuffix(f, "{")
    ensures forall a | a in HeaderAddresses(f) :: Plain(a) && TrimSpace(a) != "" && TrimSpace(a)[0] != '#'
  {
    var h := f[..|f| - 1];
    var l, r := TrimParts(h);
    assert forall c | c in TrimSpace(h) :: c in h;
    assert forall c | c in h :: c in f;
    forall a | a in HeaderAddresses(f) ensures Plain(a) && TrimSpace(a) != "" && TrimSpace(a)[0] != '#' {
      SplitMember(TrimSpace(h), ',', a);
      GrantedPlain(domains, a);
    }
  }

  lemma HeaderPlain(domains: seq<string>, f: string)
    requires HeaderOk(domains, f) && '\n' !in f
    ensures Plain(f[..|f| - 1]) && Heads(f[..|f| - 1]) && f == f[..|f| - 1] + "{"
  {
    AddressesPlain(domains, f);
    hide HeaderOk, Granted, TrimSpace, Split, Heads, Plain;
    var h := f[..|f| - 1];
    var addresses := HeaderAddresses(f);
    assert addresses == Split(TrimSpace(h), ',');
    JoinSplit(TrimSpace(h), ',');
    JoinPlain(addresses, ',');
    assert addresses[0] in addresses;
    HeaderHeads(h, TrimSpace(h), addresses);
    assert forall c | c in h :: c in f;
    TrimmedPlain(h, f);
  }

  lemma TrimmedPlain(h: string, f: string)
    requires Plain(TrimSpace(h)) && '\n' !in f && forall c | c in h :: c in f
    ensures Plain(h)
  {
    var l, r := TrimParts(h);
    hide TrimSpace;
    BlankPlain(l, f);
    BlankPlain(r, f);
    PlainConcat(l, TrimSpace(h));
    PlainConcat(l + TrimSpace(h), r);
  }

  /** The header of an accepted block is "addresses {" and opens exactly one block. */
  lemma HeaderOpens(domains: seq<string>, line: string)
    requires HeaderOk(domains, TrimSpace(line)) && '\n' !in line
    ensures
      var f := TrimSpace(line);
      && Plain(f[..|f| - 1]) && Heads(f[..|f| - 1]) && !Skipped(line)
      && Run(BEGIN, line + "\n") == State(1, Start) && Stays(BEGIN, line + "\n", 0)
      && !ClosesWithin(0, f)
  {
    var f := TrimSpace(line);
    TrimSpaceTrimmed(line);
    var l, r := TrimParts(line);
    assert forall c | c in f :: c in line;
    HeaderPlain(domains, f);
    var h := f[..|f| - 1];
    OpenBrace(0, h);
    TrimRun(0, line, 0);
    HeadsFirst(h, f);
    forall j | 0 <= j < |f| ensures !ClosesAt(0, f, j) {
      assert j < |h| ==> f[j] == h[j] && h[j] in h;
    }
  }

  lemma HeadsFirst(h: string, f: string)
    requires Heads(h) && f == h + "{" && !IsSpace(f[0])
    ensures f[0] != '#'
  {
  }

  lemma OpenBrace(d: int, h: string)
    requires Plain(h) && Heads(h)
    ensures Run(State(d, Start), h + "{") == State(d + 1, Code) && Stays(State(d, Start), h + "{", d)
  {
    HeadRun(d, h);
    Append(State(d, Start), h, "{", d);
    OneStep(Run(State(d, Start), h), '{', d);
  }

  lemma {:induction false} SplitMember(s: string, sep: char, x: string)
    requires x in Split(s, sep)
    ensures forall c | c in x :: c in s
  {
    if s != "" {
      var rest := Split(s[1..], sep);
      assert forall c | c in s[1..] :: c in s;
      if s[0] == sep {
        assert x == "" || x in rest;
        if x in rest { SplitMember(s[1..], sep, x); }
      } else {
        SplitMember(s[1..], sep, rest[0]);
        if x in rest[1..] { SplitMember(s[1..], sep, x); }
      }
    }
  }

  /** Space around the addresses holds no braces and no line breaks. */
  lemma BlankPlain(v: string, line: string)
    requires Blank(v) && '\n' !in line && forall c | c in v :: c in line
    ensures Plain(v)
  {
    PlainMembers(v);
  }

  lemma BlankFirst(v: string)
    requires Blank(v) && v != ""
    ensures IsSpace(v[0])
  {
    assert v[0] in v;
  }

  lemma HeaderHeads(h: string, inner: string, addresses: seq<string>)
    requires inner == TrimSpace(h) && inner == Join(addresses, ',') && |addresses| > 0
    requires TrimSpace(addresses[0]) != "" && TrimSpace(addresses[0])[0] != '#'
    ensures Heads(h)
  {
    var a := addresses[0];
    assert a <= inner;
    var l, r := TrimParts(a);
    if l != "" { BlankFirst(l); }
    assert l != "" ==> IsSpace(a[0]);
    TrimSpaceTrimmed(h);
    assert a != "";
    assert inner[0] == a[0];
    assert !IsSpace(a[0]);
    assert TrimSpace(a)[0] == a[0];
    TrimLeftFirst(h);
    var t := TrimLeft(h);
    var tr := TrimRightParts(t);
    assert t == inner + tr;
  }

  lemma {:induction false} OpenUntilClose(d: int, t: string, n: nat)
    requires d >= 1 && n <= |t| && Stays(State(d, Start), t, 0)
    requires forall j | 0 <= j < n :: !ClosesAt(d, t, j)
    ensures Run(State(d, Start), t[..n]).depth >= 1
  {
    StaysMeans(State(d, Start), t, 0);
    if n > 0 {
      OpenUntilClose(d, t, n - 1);
      assert t[..n] == t[..n - 1] + [t[n - 1]];
      Append(State(d, Start), t[..n - 1], [t[n - 1]], 0);
      OneStep(Run(State(d, Start), t[..n - 1]), t[n - 1], 0);
      assert Run(State(d, Start), t[..n]).depth >= 0;
      assert !ClosesAt(d, t, n - 1);
    } else {
      assert t[..0] == "";
    }
  }

  /** Between the header and the first line that closes the site, lines begin inside the site. */
  lemma {:induction false} InsideUntilClose(lines: seq<string>, n: nat)
    requires 1 <= n <= |lines| && Stays(BEGIN, Unlines(lines[..n]), 0)
    requires forall line | line in lines :: '\n' !in line
    requires Run(BEGIN, Unlines(lines[..1])) == State(1, Start)
    requires forall k | 1 <= k < n :: !Closes(lines, k)
    ensures Run(BEGIN, Unlines(lines[..n])).mode == Start && Run(BEGIN, Unlines(lines[..n])).depth >= 1
  {
    if n > 1 {
      var m := n - 1;
      assert lines[..n] == lines[..m] + [lines[m]];
      UnlinesAppend(lines[..m], lines[m]);
      assert Unlines(lines[..n]) == Unlines(lines[..m]) + (lines[m] + "\n");
      Append(BEGIN, Unlines(lines[..m]), lines[m] + "\n", 0);
      InsideUntilClose(lines, m);
      var d := Run(BEGIN, Unlines(lines[..m])).depth;
      assert lines[m] in lines;
      if Skipped(lines[m]) {
        SkippedRun(d, lines[m]);
      } else {
        TrimRun(d, lines[m], 0);
        var t := TrimSpace(lines[m]);
        assert !Closes(lines, m);
        assert !ClosesWithin(d, t);
        forall j | 0 <= j < |t| ensures !ClosesAt(d, t, j) {}
        OpenUntilClose(d, TrimSpace(lines[m]), |TrimSpace(lines[m])|);
        assert TrimSpace(lines[m])[..|TrimSpace(lines[m])|] == TrimSpace(lines[m]);
      }
    }
  }

  lemma {:induction false} SkippedTail(lines: seq<string>, n: nat, m: nat)
    requires n <= m <= |lines| && forall l | n <= l < m :: Skipped(lines[l]) && '\n' !in lines[l]
    requires Run(BEGIN, Unlines(lines[..n])).mode == Start
    ensures Run(BEGIN, Unlines(lines[..m])) == Run(BEGIN, Unlines(lines[..n]))
  {
    if n < m {
      SkippedTail(lines, n, m - 1);
      assert lines[..m] == lines[..m - 1] + [lines[m - 1]];
      UnlinesAppend(lines[..m - 1], lines[m - 1]);
      assert Unlines(lines[..m]) == Unlines(lines[..m - 1]) + (lines[m - 1] + "\n");
      Append(BEGIN, Unlines(lines[..m - 1]), lines[m - 1] + "\n", 0);
      SkippedRun(Run(BEGIN, Unlines(lines[..n])).depth, lines[m - 1]);
    }
  }

  lemma LineEnds(lines: seq<string>, n: nat)
    requires n <= |lines|
    ensures Run(BEGIN, Unlines(lines[..n])).mode == Start
  {
    if n > 0 {
      assert lines[..n] == lines[..n - 1] + [lines[n - 1]];
      UnlinesAppend(lines[..n - 1], lines[n - 1]);
      var a := Unlines(lines[..n - 1]) + lines[n - 1];
      Append(BEGIN, a, "\n", 0);
      OneStep(Run(BEGIN, a), '\n', 0);
    }
  }

  lemma FirstLineOpens(domains: seq<string>, lines: seq<string>)
    requires |lines| > 0 && '\n' !in lines[0] && HeaderOk(domains, TrimSpace(lines[0]))
    ensures Run(BEGIN, Unlines(lines[..1])) == State(1, Start) && !Closes(lines, 0) && !Skipped(lines[0])
    ensures HasSuffix(TrimSpace(lines[0]), "{")
  {
    HeaderOpens(domains, lines[0]);
    assert lines[..1] == [lines[0]] + [] && lines[..0] == [];
    UnlinesCons(lines[0], []);
    assert Unlines(lines[..1]) == lines[0] + "\n";
  }

  lemma SomeLineCloses(lines: seq<string>)
    requires |lines| > 0 && Neutral(Unlines(lines)) && forall line | line in lines :: '\n' !in line
    requires Run(BEGIN, Unlines(lines[..1])) == State(1, Start)
    ensures exists j :: 1 <= j < |lines| && Closes(lines, j)
  {
    assert lines[..|lines|] == lines;
    if forall j | 1 <= j < |lines| :: !Closes(lines, j) {
      InsideUntilClose(lines, |lines|);
    }
  }

  /** The shape of the lines of a full block: inside the site up to line `k`, outside after it. */
  ghost predicate ClosedOnce(lines: seq<string>, k: nat) {
    && 1 <= k < |lines| && Closes(lines, k)
    && (forall j | 1 <= j <= k :: Run(BEGIN, Unlines(lines[..j])).depth >= 1)
    && Run(BEGIN, Unlines(lines[..k + 1])) == BEGIN
    && (forall l | k < l < |lines| :: Skipped(lines[l]))
  }

  lemma ClosesOnce(lines: seq<string>) returns (k: nat)
    requires |lines| > 0 && Neutral(Unlines(lines)) && NothingAfterClose(lines, |lines|)
    requires forall line | line in lines :: '\n' !in line
    requires Run(BEGIN, Unlines(lines[..1])) == State(1, Start)
    ensures ClosedOnce(lines, k)
  {
    SomeLineCloses(lines);
    k := FirstClose(lines);
    hide Closes, Skipped;
    forall j | 1 <= j <= k ensures Run(BEGIN, Unlines(lines[..j])).depth >= 1 {
      PrefixStays(lines, j);
      InsideUntilClose(lines, j);
    }
    forall l | k < l < |lines| ensures Skipped(lines[l]) && '\n' !in lines[l] {
      assert lines[l] in lines;
      NothingAfter(lines, k, l);
    }
    LineEnds(lines, k + 1);
    SkippedTail(lines, k + 1, |lines|);
    assert lines[..|lines|] == lines;
  }

  lemma NothingAfter(lines: seq<string>, k: nat, l: nat)
    requires k < l < |lines| && NothingAfterClose(lines, |lines|) && Closes(lines, k)
    ensures Skipped(lines[l])
  {
  }

  /**
   * An accepted block closes its site on one line: before it every line begins inside the site, after
   * it the depth is zero again and only blank lines and comments follow.
   */
  lemma AcceptedShape(domains: seq<string>, block: string) returns (k: nat)
    requires Acceptable(domains, block) && TrimSpace(block) != ""
    ensures ClosedOnce(Split(TrimSpace(block), '\n'), k)
  {
    var lines := Split(TrimSpace(block), '\n');
    UnlinesSplit(TrimSpace(block));
    assert lines[0] in lines;
    FirstLineOpens(domains, lines);
    k := ClosesOnce(lines);
  }

  lemma PrefixStays(lines: seq<string>, j: nat)
    requires j <= |lines| && Stays(BEGIN, Unlines(lines), 0)
    ensures Stays(BEGIN, Unlines(lines[..j]), 0)
  {
    assert lines == lines[..j] + lines[j..];
    UnlinesConcat(lines[..j], lines[j..]);
    Append(BEGIN, Unlines(lines[..j]), Unlines(lines[j..]), 0);
  }

  lemma FirstClose(lines: seq<string>) returns (k: nat)
    requires exists j :: 1 <= j < |lines| && Closes(lines, j)
    ensures 1 <= k < |lines| && Closes(lines, k) && forall j | 1 <= j < k :: !Closes(lines, j)
  {
    hide Closes;
    k := 1;
    while !Closes(lines, k)
      invariant 1 <= k < |lines| && forall j | 1 <= j < k :: !Closes(lines, j)
      invariant exists j :: k <= j < |lines| && Closes(lines, j)
      decreases |lines| - k
    {
      var j :| k <= j < |lines| && Closes(lines, j);
      k := k + 1;
    }
  }

  /** The lines with `tail` appended to the last one. */
  function AppendLast(lines: seq<string>, tail: string): seq<string>
    requires |lines| > 0
  {
    lines[..|lines| - 1] + [lines[|lines| - 1] + tail]
  }

  lemma JoinCons(x: string, xs: seq<string>, sep: char)
    requires |xs| > 0
    ensures Join([x] + xs, sep) == x + [sep] + Join(xs, sep)
  {
    assert ([x] + xs)[1..] == xs;
  }

  lemma {:induction false} JoinAppendLast(lines: seq<string>, tail: string)
    requires |lines| > 0
    ensures Join(AppendLast(lines, tail), '\n') == Join(lines, '\n') + tail
  {
    if |lines| > 1 {
      var rest := lines[1..];
      JoinAppendLast(rest, tail);
      assert AppendLast(lines, tail) == [lines[0]] + AppendLast(rest, tail);
      assert lines == [lines[0]] + rest;
      hide Join;
      JoinCons(lines[0], rest, '\n');
      JoinCons(lines[0], AppendLast(rest, tail), '\n');
      assert lines[0] + "\n" + (Join(rest, '\n') + tail) == lines[0] + "\n" + Join(rest, '\n') + tail;
    }
  }

  lemma SplitTail(s: string, tail: string)
    requires '\n' !in tail
    ensures Split(s + tail, '\n') == AppendLast(Split(s, '\n'), tail)
  {
    var lines := Split(s, '\n');
    var longer := AppendLast(lines, tail);
    JoinSplit(s, '\n');
    JoinAppendLast(lines, tail);
    forall x | x in longer ensures '\n' !in x {
      LastMember(lines, tail, x);
    }
    SplitJoin(longer, '\n');
  }

  lemma LastMember(lines: seq<string>, tail: string, x: string)
    requires |lines| > 0 && x in AppendLast(lines, tail) && '\n' !in tail
    requires forall line | line in lines :: '\n' !in line
    ensures '\n' !in x
  {
    assert lines[|lines| - 1] in lines;
  }

  lemma {:induction false} CodeAfter(d: int, t: string)
    requires t != "" && t[0] != '#' && !IsSpace(t[0]) && '\n' !in t
    ensures Run(State(d, Start), t).mode == Code
    decreases |t|
  {
    assert t[0] in t;
    CodeOn(State(d + Delta(t[0]), Code), t[1..]);
  }

  lemma {:induction false} CodeOn(s: State, v: string)
    requires s.mode == Code && forall c | c in v :: c != '\n'
    ensures Run(s, v).mode == Code
    decreases |v|
  {
    if v != "" {
      assert v[0] in v && forall c | c in v[1..] :: c in v;
      CodeOn(Step(s, v[0]), v[1..]);
    }
  }

  lemma LastLine(s: string) returns (a: string, last: string)
    ensures last == Split(s, '\n')[|Split(s, '\n')| - 1] && s == a + last
    ensures Run(BEGIN, a).mode == Start && '\n' !in last
  {
    var lines := Split(s, '\n');
    var n := |lines| - 1;
    last := lines[n];
    assert last in lines;
    UnlinesSplit(s);
    assert lines == lines[..n] + [last];
    UnlinesAppend(lines[..n], last);
    a := Unlines(lines[..n]);
    assert s + "\n" == (a + last) + "\n";
    assert s == (s + "\n")[..|s|] == a + last;
    LineEnds(lines, n);
  }

  lemma CodeLine(d: int, line: string)
    requires !Skipped(line) && '\n' !in line && line != "" && !IsSpace(line[|line| - 1])
    ensures Run(State(d, Start), line).mode == Code
  {
    TrimmedLine(line);
    var l, r := TrimParts(line);
    TrailingSpace(line, l + TrimSpace(line), r);
    assert line == l + TrimSpace(line);
    assert forall c | c in l :: c in line;
    BlankRun(State(d, Start), l);
    Append(State(d, Start), l, TrimSpace(line), 0);
    CodeAfter(d, TrimSpace(line));
  }

  /** The scanner after a text that ends with code. */
  lemma EndsInCode(s: string)
    requires s != "" && !IsSpace(s[|s| - 1]) && !Skipped(Split(s, '\n')[|Split(s, '\n')| - 1])
    ensures Run(BEGIN, s) == State(Run(BEGIN, s + "\n").depth, Code)
  {
    var a, last := LastLine(s);
    hide Skipped, Split;
    Append(BEGIN, a, last, 0);
    Append(BEGIN, s, "\n", 0);
    OneStep(Run(BEGIN, s), '\n', 0);
    SkippedEmpty();
    assert last != "" && last[|last| - 1] == s[|s| - 1];
    CodeLine(Run(BEGIN, a).depth, last);
  }

  lemma SkippedEmpty()
    ensures Skipped("")
  {
  }

  lemma TrailingSpace(s: string, u: string, r: string)
    requires s == u + r && Blank(r)
    ensures r != "" ==> s != "" && IsSpace(s[|s| - 1])
  {
    if r != "" {
      assert s[|s| - 1] in r;
    }
  }

  lemma NeutralTail(block: string, tail: string)
    requires Neutral(block + "\n") && Run(BEGIN, block) == State(0, Code)
    requires Run(State(0, Code), tail).depth == 0 && Stays(State(0, Code), tail, 0)
    ensures Neutral(block + tail + "\n")
  {
    Append(BEGIN, block, tail, 0);
    Append(BEGIN, block, "\n", 0);
    Append(BEGIN, block + tail, "\n", 0);
    OneStep(Run(BEGIN, block + tail), '\n', 0);
  }

  lemma NotClosing(lines: seq<string>, k: nat, l: nat)
    requires k < l < |lines| && NothingAfterClose(lines, |lines|) && !Skipped(lines[l])
    ensures !Closes(lines, k)
  {
  }

  lemma NoEarlierClose(lines: seq<string>, longer: seq<string>, n: nat)
    requires |lines| == |longer| == n + 1 && longer[..n] == lines[..n]
    requires Closes(lines, n) && NothingAfterClose(lines, n + 1)
    ensures NothingAfterClose(longer, n + 1)
  {
    forall k | 0 <= k < n ensures !Closes(longer, k) {
      assert longer[..k] == longer[..n][..k] == lines[..k] && longer[k] == longer[..n][k] == lines[k];
      assert Closes(longer, k) <==> Closes(lines, k);
      NotClosing(lines, k, n);
    }
  }

  lemma TrimmedStays(s: string)
    requires Trimmed(s)
    ensures TrimSpace(s) == s
  {
  }

  lemma TrimmedAppend(s: string, tail: string)
    requires s != "" && TrimSpace(s) == s && tail != "" && !IsSpace(tail[|tail| - 1])
    ensures TrimSpace(s + tail) == s + tail && !IsSpace(s[|s| - 1])
  {
    TrimSpaceTrimmed(s);
    TrimmedStays(s + tail);
  }

  /** The parts of Acceptable for a trimmed block. */
  ghost predicate Accepts(domains: seq<string>, b: string, lines: seq<string>)
    requires |lines| > 0
  {
    && DomainsOk(domains) && '\0' !in b && HeaderOk(domains, TrimSpace(lines[0]))
    && HasBrace(lines, |lines|) && Neutral(b + "\n") && NothingAfterClose(lines, |lines|)
  }

  lemma AcceptsIff(domains: seq<string>, b: string)
    requires TrimSpace(b) == b && b != ""
    ensures Acceptable(domains, b) <==> Accepts(domains, b, Split(b, '\n'))
  {
  }

  lemma LongerAccepts(domains: seq<string>, b: string, lines: seq<string>, c: string, longer: seq<string>)
    requires |lines| == |longer| > 1 && longer[..|lines| - 1] == lines[..|lines| - 1]
    requires Accepts(domains, b, lines) && '\0' !in c && Neutral(c + "\n")
    requires Closes(lines, |lines| - 1) && !Skipped(lines[0]) && HasSuffix(TrimSpace(lines[0]), "{")
    ensures Accepts(domains, c, longer)
  {
    assert longer[0] == longer[..|lines| - 1][0] == lines[0];
    BraceStays(lines, longer);
    NoEarlierClose(lines, longer, |lines| - 1);
  }

  /** Balanced text behind the closing brace is accepted. */
  lemma TailAccepted(domains: seq<string>, block: string, tail: string)
    requires TrimSpace(block) == block && block != "" && Acceptable(domains, block)
    requires Closes(Split(block, '\n'), |Split(block, '\n')| - 1)
    requires '\n' !in tail && '\0' !in tail && tail != "" && !IsSpace(tail[|tail| - 1])
    requires Run(State(0, Code), tail).depth == 0 && Stays(State(0, Code), tail, 0)
    ensures Acceptable(domains, block + tail)
  {
    var lines, longer := Split(block, '\n'), Split(block + tail, '\n');
    hide *;
    AcceptableParts(domains, block);
    FirstLineOpens(domains, lines);
    CloserCounts(lines, |lines| - 1);
    SplitTail(block, tail);
    AppendedLines(lines, longer, tail);
    TrimmedAppend(block, tail);
    EndsInCode(block);
    NeutralState(block);
    NeutralTail(block, tail);
    AcceptsIff(domains, block);
    AcceptsIff(domains, block + tail);
    LongerAccepts(domains, block, lines, block + tail, longer);
  }

  lemma TailBalanced(block: string, tail: string)
    requires Run(BEGIN, block) == State(0, Code) && Neutral(block + tail + "\n")
    ensures Run(State(0, Code), tail).depth == 0 && Stays(State(0, Code), tail, 0)
  {
    Append(BEGIN, block + tail, "\n", 0);
    Append(BEGIN, block, tail, 0);
    OneStep(Run(BEGIN, block + tail), '\n', 0);
  }

  /** And nothing else is. */
  lemma TailRefused(domains: seq<string>, block: string, tail: string)
    requires TrimSpace(block) == block && block != "" && Acceptable(domains, block)
    requires Closes(Split(block, '\n'), |Split(block, '\n')| - 1)
    requires '\n' !in tail && tail != "" && !IsSpace(tail[|tail| - 1]) && Acceptable(domains, block + tail)
    ensures '\0' !in tail && Run(State(0, Code), tail).depth == 0 && Stays(State(0, Code), tail, 0)
  {
    var lines := Split(block, '\n');
    hide *;
    AcceptableParts(domains, block);
    FirstLineOpens(domains, lines);
    CloserCounts(lines, |lines| - 1);
    TrimmedAppend(block, tail);
    EndsInCode(block);
    NeutralState(block);
    AcceptableParts(domains, block + tail);
    assert forall c | c in tail :: c in block + tail;
    TailBalanced(block, tail);
  }

  lemma AcceptableTrimmed(domains: seq<string>, block: string)
    ensures Acceptable(domains, block) <==> Acceptable(domains, TrimSpace(block))
  {
    KeyOfTrimmed(block);
  }

  lemma {:induction false} TrimRightConcat(s: string, r: string)
    requires Blank(r) && s != "" && !IsSpace(s[|s| - 1])
    ensures TrimRight(s + r) == s
    decreases |r|
  {
    var x := s + r;
    if r != "" {
      assert r[|r| - 1] in r && x[..|x| - 1] == s + r[..|r| - 1];
      assert forall c | c in r[..|r| - 1] :: c in r;
      TrimRightConcat(s, r[..|r| - 1]);
    } else {
      assert x == s;
    }
  }

  lemma TrimmedBehind(block: string, t: string, r: string)
    requires block != "" && TrimSpace(block) == block && Blank(r) && (t == "" || !IsSpace(t[|t| - 1]))
    ensures TrimSpace(block + t + r) == block + t
  {
    TrimSpaceTrimmed(block);
    TrimRightConcat(block + t, r);
    assert (block + t + r)[0] == block[0];
  }

  lemma BlanksBehind(t: string, r: string)
    requires Blank(r) && '\n' !in r
    ensures Run(State(0, Code), t + r).depth == Run(State(0, Code), t).depth
    ensures Stays(State(0, Code), t + r, 0) <==> Stays(State(0, Code), t, 0)
    ensures '\0' in t + r <==> '\0' in t
  {
    var s := Run(State(0, Code), t);
    Append(State(0, Code), t, r, 0);
    BlankRun(s, r);
    if Stays(State(0, Code), t, 0) {
      StaysEnd(State(0, Code), t, 0);
      StaysLower(s, r, s.depth, 0);
    }
  }

  lemma {:induction false} TrimRightKept(s: string)
    ensures var t := TrimRight(s); t == "" || !IsSpace(t[|t| - 1])
  {
    if s != "" && IsSpace(s[|s| - 1]) { TrimRightKept(s[..|s| - 1]); }
  }

  /**
   * The rule against content after the closing brace is about lines: on the line of that brace exactly the
   * balanced texts are accepted, another site included.
   */
  lemma TailAcceptedIff(domains: seq<string>, block: string, tail: string)
    requires TrimSpace(block) == block && block != "" && Acceptable(domains, block)
    requires Closes(Split(block, '\n'), |Split(block, '\n')| - 1) && '\n' !in tail
    ensures Acceptable(domains, block + tail) <==>
              '\0' !in tail && Run(State(0, Code), tail).depth == 0 && Stays(State(0, Code), tail, 0)
  {
    var r := TrimRightParts(tail);
    var t := TrimRight(tail);
    TrimRightKept(tail);
    assert block + tail == block + t + r;
    assert forall c | c in t || c in r :: c in tail;
    assert '\0' !in "" && Stays(State(0, Code), "", 0) && Run(State(0, Code), "").depth == 0;
    hide Acceptable, Closes, Split, TrimSpace, TrimRight, Run, Stays;
    TrimmedBehind(block, t, r);
    AcceptableTrimmed(domains, block + tail);
    BlanksBehind(t, r);
    if t == "" {
      assert block + t == block;
    } else if Acceptable(domains, block + t) {
      TailRefused(domains, block, t);
    } else if '\0' !in t && Run(State(0, Code), t).depth == 0 && Stays(State(0, Code), t, 0) {
      TailAccepted(domains, block, t);
    }
  }

  // ---------------------------------------------------------------------------------------------
  // A smallest block, and one with another site behind it
  // ---------------------------------------------------------------------------------------------

  /** "d {" and "}" */
  function SmallBlock(d: string): string { d + " {\n}" }

  lemma SmallLines(d: string)
    requires d != "" && Plain(d) && !IsSpace(d[0])
    ensures Split(SmallBlock(d), '\n') == [d + " {", "}"] && TrimSpace(SmallBlock(d)) == SmallBlock(d)
    ensures TrimSpace(d + " {") == d + " {" && TrimSpace("}") == "}"
  {
    PlainMembers(d);
    assert SmallBlock(d) == (d + " {") + ['\n'] + "}";
    SplitAtSep(d + " {", "}", '\n');
    SplitNoSep("}", '\n');
    TrimmedStays(SmallBlock(d));
    TrimmedStays(d + " {");
    TrimmedStays("}");
  }

  lemma SmallNeutral(d: string)
    requires Plain(d) && d != "" && !IsSpace(d[0]) && d[0] != '#'
    ensures Neutral(SmallBlock(d) + "\n") && Run(BEGIN, Unlines([d + " {"])) == State(1, Start)
    ensures Unlines([d + " {"]) == d + " {\n"
  {
    assert Plain(" ");
    PlainConcat(d, " ");
    assert (d + " ")[0] == d[0] && Heads(d + " ");
    OpenLine(0, d + " ");
    assert (d + " ") + "{\n" == d + " {\n";
    assert Plain("") && Heads("") && "" + "}\n" == "}\n";
    CloseLine(1, "");
    OpensConcat(d + " {\n", "}\n", 1, 0);
    assert SmallBlock(d) + "\n" == d + " {\n" + "}\n";
    UnlinesCons(d + " {", []);
    assert [d + " {"] + [] == [d + " {"] && Unlines([]) == "";
    assert (d + " {") + "\n" + "" == d + " {\n";
  }

  lemma SmallAddresses(d: string)
    requires ',' !in d && TrimSpace(d + " ") == d
    ensures HasSuffix(d + " {", "{") && HeaderAddresses(d + " {") == [d]
  {
    var f := d + " {";
    assert f[..|f| - 1] == d + " " && f[|f| - 1..] == "{";
    SplitNoSep(d, ',');
  }

  lemma SmallHeader(domains: seq<string>, d: string)
    requires ',' !in d && TrimSpace(d + " ") == d
    ensures HeaderOk(domains, d + " {") <==> Granted(domains, d)
  {
    SmallAddresses(d);
    hide Granted, TrimSpace, Split, HeaderAddresses;
    assert d in HeaderAddresses(d + " {");
  }

  lemma SmallCloses(d: string)
    ensures var lines := [d + " {", "}"];
            Run(BEGIN, Unlines([d + " {"])) == State(1, Start) ==> Closes(lines, 1)
  {
    var lines := [d + " {", "}"];
    assert lines[..1] == [d + " {"];
    TrimmedStays("}");
    if Run(BEGIN, Unlines([d + " {"])) == State(1, Start) {
      OneStep(State(1, Start), '}', 0);
      assert "}"[..1] == ['}'];
      assert ClosesAt(1, "}", 0);
    }
  }

  /** One word that starts no comment. */
  ghost predicate OneWord(d: string) {
    && Plain(d) && d != "" && d[0] != '#' && !IsSpace(d[0]) && TrimSpace(d + " ") == d
    && ',' !in d && '\0' !in d && '\n' !in d
  }

  lemma SmallNothingAfter(lines: seq<string>)
    requires |lines| == 2 && !Closes(lines, 0)
    ensures NothingAfterClose(lines, 2)
  {
    hide Closes;
  }

  lemma SmallNoNull(d: string)
    requires '\0' !in d
    ensures '\0' !in SmallBlock(d) && SmallBlock(d) != ""
  {
  }

  /** The block of one granted address is accepted. */
  lemma SmallAccepted(domains: seq<string>, d: string)
    requires DomainsOk(domains) && Granted(domains, d) && OneWord(d)
    ensures Acceptable(domains, SmallBlock(d))
    ensures var lines := Split(SmallBlock(d), '\n'); Closes(lines, |lines| - 1)
  {
    var lines := [d + " {", "}"];
    SmallLines(d);
    SmallNeutral(d);
    SmallHeader(domains, d);
    SmallCloses(d);
    SmallBrace(d);
    SmallNoNull(d);
    assert '\n' !in lines[0] && TrimSpace(lines[0]) == lines[0];
    hide *;
    FirstLineOpens(domains, lines);
    SmallNothingAfter(lines);
    SmallParts(domains, SmallBlock(d), lines);
    AcceptsIff(domains, SmallBlock(d));
  }

  lemma SmallParts(domains: seq<string>, b: string, lines: seq<string>)
    requires DomainsOk(domains) && '\0' !in b && |lines| == 2 && TrimSpace(lines[0]) == lines[0]
    requires HeaderOk(domains, lines[0]) && HasBrace(lines, 2) && Neutral(b + "\n") && NothingAfterClose(lines, 2)
    ensures Accepts(domains, b, lines)
  {
    hide DomainsOk, HeaderOk, HasBrace, Neutral, NothingAfterClose;
  }

  lemma SmallBrace(d: string)
    requires TrimSpace(d + " {") == d + " {" && d != "" && d[0] != '#'
    ensures HasBrace([d + " {", "}"], 2)
  {
    var lines := [d + " {", "}"];
    var t := TrimSpace(lines[0]);
    assert t[|t| - 1] == '{' && '{' in t && !Skipped(lines[0]);
  }

  /** A second site behind the closing brace of an accepted one. */
  lemma SecondSiteAccepted(domains: seq<string>, d: string, e: string)
    requires DomainsOk(domains) && Granted(domains, d) && OneWord(d) && OneWord(e)
    ensures Acceptable(domains, SmallBlock(d) + (" " + e + " { }"))
  {
    hide *;
    WordParts(d);
    SmallAccepted(domains, d);
    SmallLines(d);
    SecondSite(e);
    TailChars(e);
    SmallFilled(d);
    TailAcceptedIff(domains, SmallBlock(d), " " + e + " { }");
  }

  lemma WordParts(d: string)
    requires OneWord(d)
    ensures d != "" && Plain(d) && !IsSpace(d[0])
  {
  }

  lemma SmallFilled(d: string)
    ensures SmallBlock(d) != ""
  {
  }

  lemma TailChars(e: string)
    requires OneWord(e)
    ensures var tail := " " + e + " { }"; '\n' !in tail && '\0' !in tail
  {
    hide TrimSpace;
  }

  lemma SecondSite(e: string)
    requires OneWord(e)
    ensures var tail := " " + e + " { }"; Run(State(0, Code), tail) == State(0, Code) && Stays(State(0, Code), tail, 0)
  {
    var v := " " + e + " ";
    assert Plain(" ");
    PlainConcat(" ", e);
    PlainConcat(" " + e, " ");
    assert Step(State(0, Code), '{') == State(1, Code) && Step(State(1, Code), ' ') == State(1, Code);
    assert Step(State(1, Code), '}') == State(0, Code);
    hide Run, Stays, Plain, Step;
    PlainRun(State(0, Code), v);
    assert "{ }" == ['{'] + ([' '] + ['}']);
    OneStep(State(0, Code), '{', 0);
    OneStep(State(1, Code), ' ', 0);
    OneStep(State(1, Code), '}', 0);
    Append(State(1, Code), [' '], ['}'], 0);
    Append(State(0, Code), ['{'], [' '] + ['}'], 0);
    Append(State(0, Code), v, "{ }", 0);
    assert " " + e + " { }" == v + "{ }";
  }

  lemma AcceptableParts(domains: seq<string>, b: string)
    requires TrimSpace(b) == b && b != "" && Acceptable(domains, b)
    ensures
      var lines := Split(b, '\n');
      |lines| > 0 && '\n' !in lines[0] && HeaderOk(domains, TrimSpace(lines[0]))
    ensures Neutral(b + "\n") && '\0' !in b
  {
    assert Split(b, '\n')[0] in Split(b, '\n');
  }

  lemma CloserCounts(lines: seq<string>, k: nat)
    requires k < |lines| && Closes(lines, k)
    ensures !Skipped(lines[k])
  {
  }

  lemma AppendedLines(lines: seq<string>, longer: seq<string>, tail: string)
    requires |lines| > 0 && longer == AppendLast(lines, tail)
    ensures |lines| == |longer| && longer[..|lines| - 1] == lines[..|lines| - 1]
  {
  }

  lemma NeutralState(s: string)
    requires Neutral(s + "\n")
    ensures Run(BEGIN, s + "\n").depth == 0
  {
  }

  lemma BraceStays(lines: seq<string>, longer: seq<string>)
    requires |lines| == |longer| > 0 && longer[0] == lines[0] && !Skipped(lines[0])
    requires HasSuffix(TrimSpace(lines[0]), "{")
    ensures HasBrace(longer, |longer|)
  {
    var t := TrimSpace(lines[0]);
    assert t[|t| - 1] == '{' && '{' in t;
  }
}
