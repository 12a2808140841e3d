/** internal/plugin/coreapi.go: printing a port rule for iptables and reading it back. */
module Iptables {
  import opened Optional
  import opened Text
  import opened Words

  // ---------------------------------------------------------------------------------------------
  // Ports
  // ---------------------------------------------------------------------------------------------

  predicate DigitRun(s: string) { s != "" && Digits(s) }

  /** ^\d+(-\d+)?$ */
  predicate PortShape(port: string) {
    var i := IndexOf(port, '-');
    if i == |port| then DigitRun(port) else DigitRun(port[..i]) && DigitRun(port[i + 1..])
  }

  predicate Protocol(p: string) { p == "tcp" || p == "udp" }

  predicate InRange(s: string) { DigitRun(s) && 1 <= Number(s) <= 65535 }

  /** firewallValidatePort accepts the pair. */
  predicate ValidPort(port: string, protocol: string) {
    var i := IndexOf(port, '-');
    PortShape(port) && Protocol(protocol) &&
    if i == |port| then InRange(port) else InRange(port[..i]) && InRange(port[i + 1..])
  }

  function Replace(s: string, from: char, to: char): string {
    seq(|s|, i requires 0 <= i < |s| => if s[i] == from then to else s[i])
  }

  // ---------------------------------------------------------------------------------------------
  // Printing and parsing
  // ---------------------------------------------------------------------------------------------

  function RuleArgs(port: string, protocol: string): seq<string> {
    ["-p", protocol] +
    (if '-' in port then ["-m", "multiport", "--dports", Replace(port, '-', ':')] else ["--dport", port]) +
    ["-j", "ACCEPT"]
  }

  predicate IsKey(f: string) { f == "-p" || f == "--dport" || f == "--dports" }

  /** The value after the last key of a kind; "" when there is none. */
  function LastValue(fields: seq<string>, key: string -> bool, n: nat): string
    requires n <= |fields|
  {
    if n == 0 then ""
    else if key(fields[n - 1]) && n < |fields| then fields[n]
    else LastValue(fields, key, n - 1)
  }

  predicate ProtocolKey(f: string) { f == "-p" }

  predicate PortKey(f: string) { f == "--dport" || f == "--dports" }

  /** The protocol and the port that the fields of a line name last. */
  ghost function Parsed(fields: seq<string>): Option<string> {
    var protocol := LastValue(fields, ProtocolKey, |fields|);
    var port := Replace(LastValue(fields, PortKey, |fields|), ':', '-');
    if Protocol(protocol) && PortShape(port) then Some(port + "/" + protocol) else None
  }

  method ParsePortRule(line: string) returns (rule: Option<string>)
    ensures rule == Parsed(Fields(line))
  {
    var fields := Fields(line);
    var protocol, port := "", "";
    var i := 0;
    while i < |fields|
      invariant 0 <= i <= |fields|
      invariant protocol == LastValue(fields, ProtocolKey, i)
      invariant port == Replace(LastValue(fields, PortKey, i), ':', '-')
    {
      if fields[i] == "-p" {
        if i + 1 < |fields| {
          protocol := fields[i + 1];
        }
      } else if fields[i] == "--dport" || fields[i] == "--dports" {
        if i + 1 < |fields| {
          port := Replace(fields[i + 1], ':', '-');
        }
      }
      i := i + 1;
    }
    if protocol == "" || port == "" || !Protocol(protocol) || !PortShape(port) {
      return None;
    }
    return Some(port + "/" + protocol);
  }

  // ---------------------------------------------------------------------------------------------
  // Round trip
  // ---------------------------------------------------------------------------------------------

  lemma ReplaceBack(s: string)
    requires ':' !in s
    ensures Replace(Replace(s, '-', ':'), ':', '-') == s
  {
    forall i | 0 <= i < |s| ensures Replace(Replace(s, '-', ':'), ':', '-')[i] == s[i] {
      assert s[i] in s;
    }
  }

  lemma PortChars(port: string)
    requires PortShape(port)
    ensures port != "" && Solid(port) && Solid(Replace(port, '-', ':')) && ':' !in port && !IsKey(port) &&
              !IsKey(Replace(port, '-', ':'))
  {
    var i := IndexOf(port, '-');
    forall j | 0 <= j < |port| ensures port[j] == '-' || '0' <= port[j] <= '9' {
      if j < i { assert port[j] == port[..i][j]; }
      if j > i { assert port[j] == port[i + 1..][j - i - 1]; }
    }
    assert i > 0;
    assert '0' <= port[0] <= '9' by { assert port[0] == if i == |port| then port[0] else port[..i][0]; }
  }

  /** No field of the list is a key. */
  ghost predicate KeyFree(fields: seq<string>) {
    forall f | f in fields :: !IsKey(f)
  }

  lemma {:induction false} ValueOf(a: seq<string>, k: string, v: string, b: seq<string>, key: string -> bool, n: nat)
    requires key(k) && !key(v) && |a| + 1 <= n <= |a| + 2 + |b|
    requires forall i | 0 <= i < |b| :: !key(b[i])
    ensures LastValue(a + [k, v] + b, key, n) == v
  {
    var fields := a + [k, v] + b;
    if n > |a| + 1 {
      assert !key(fields[n - 1]) by {
        if n > |a| + 2 { assert fields[n - 1] == b[n - |a| - 3]; } else { assert fields[n - 1] == v; }
      }
      ValueOf(a, k, v, b, key, n - 1);
    } else {
      assert fields[n - 1] == k && fields[n] == v;
    }
  }

  /**
   * A rule with the pair's protocol and port is read as that pair, whatever else iptables prints before,
   * between and after them, as long as none of it is a key.
   */
  lemma FieldsParse(port: string, protocol: string, pre: seq<string>, mid: seq<string>, post: seq<string>,
      key: string, value: string)
    requires PortShape(port) && Protocol(protocol) && KeyFree(pre) && KeyFree(mid) && KeyFree(post)
    requires PortKey(key) && value == (if '-' in port then Replace(port, '-', ':') else port)
    ensures Parsed(pre + ["-p", protocol] + mid + [key, value] + post) == Some(port + "/" + protocol)
  {
    var fields := pre + ["-p", protocol] + mid + [key, value] + post;
    PortChars(port);
    ReplaceBack(port);
    assert Replace(value, ':', '-') == port by {
      if '-' !in port {
        assert Replace(port, '-', ':') == port by {
          forall i | 0 <= i < |port| ensures port[i] != '-' { assert port[i] in port; }
        }
      }
    }
    var tail := mid + [key, value] + post;
    forall i | 0 <= i < |tail| ensures !ProtocolKey(tail[i]) {
      assert tail[i] in mid || tail[i] == key || tail[i] == value || tail[i] in post;
    }
    assert fields == pre + ["-p", protocol] + tail;
    ValueOf(pre, "-p", protocol, tail, ProtocolKey, |fields|);
    forall i | 0 <= i < |post| ensures !PortKey(post[i]) { assert post[i] in post; }
    ValueOf(pre + ["-p", protocol] + mid, key, value, post, PortKey, |fields|);
  }

  /** The words of a line: no spaces inside, not empty. */
  ghost predicate AreWords(fields: seq<string>) {
    forall f | f in fields :: Solid(f) && f != ""
  }

  lemma Keywords()
    ensures Solid("-p") && Solid("-m") && Solid("multiport") && Solid("--dports") && Solid("--dport")
    ensures Solid("-j") && Solid("ACCEPT") && Solid("-A") && Solid("INPUT") && Solid("tcp") && Solid("udp")
  {
  }

  lemma NoKeys(protocol: string)
    requires Protocol(protocol)
    ensures !IsKey("-m") && !IsKey("multiport") && !IsKey("-j") && !IsKey("ACCEPT")
    ensures !IsKey("-A") && !IsKey("INPUT") && !IsKey(protocol)
  {
  }

  /** What is printed between the protocol and the port. */
  function Match(port: string): seq<string> { if '-' in port then ["-m", "multiport"] else [] }

  function KeyFor(port: string): string { if '-' in port then "--dports" else "--dport" }

  function ValueFor(port: string): string { if '-' in port then Replace(port, '-', ':') else port }

  lemma ArgsAre(port: string, protocol: string)
    ensures RuleArgs(port, protocol) ==
            ["-p", protocol] + Match(port) + [KeyFor(port), ValueFor(port)] + ["-j", "ACCEPT"]
  {
  }

  lemma ArgsWords(port: string, protocol: string)
    requires PortShape(port) && Protocol(protocol)
    ensures AreWords(RuleArgs(port, protocol))
  {
    PortChars(port);
    Keywords();
    hide Solid, PortShape, Replace;
    forall f | f in RuleArgs(port, protocol) ensures Solid(f) && f != "" {
      if '-' in port { assert |Replace(port, '-', ':')| == |port| by { SameLength(port); } }
    }
  }

  lemma SameLength(port: string)
    ensures |Replace(port, '-', ':')| == |port|
  {
  }

  lemma WordsConcat(a: seq<string>, b: seq<string>)
    requires AreWords(a) && AreWords(b)
    ensures AreWords(a + b)
  {
    hide Solid;
  }

  lemma KeyFreeConcat(a: seq<string>, b: seq<string>)
    requires KeyFree(a) && KeyFree(b)
    ensures KeyFree(a + b)
  {
    hide IsKey;
  }

  lemma KeyFreeMatch(port: string, protocol: string)
    requires Protocol(protocol)
    ensures KeyFree(Match(port)) && KeyFree(["-j", "ACCEPT"]) && KeyFree(["-A", "INPUT"]) && KeyFree(["-m", protocol])
  {
    NoKeys(protocol);
    hide IsKey, Protocol;
  }

  lemma Regroup(pre: seq<string>, p: seq<string>, m: seq<string>, k: seq<string>, j: seq<string>, post: seq<string>)
    ensures pre + (p + m + k + j) + post == pre + p + m + k + (j + post)
  {
  }

  /** Every accepted pair, ranges included, survives being printed, joined, split and parsed. */
  lemma PrintParse(port: string, protocol: string, pre: seq<string>, post: seq<string>)
    requires ValidPort(port, protocol) && KeyFree(pre) && KeyFree(post) && AreWords(pre) && AreWords(post)
    ensures Parsed(Fields(Join(pre + RuleArgs(port, protocol) + post, ' '))) == Some(port + "/" + protocol)
  {
    hide *;
    ValidShape(port, protocol);
    ArgsAre(port, protocol);
    ArgsWords(port, protocol);
    WordsConcat(pre, RuleArgs(port, protocol));
    WordsConcat(pre + RuleArgs(port, protocol), post);
    JoinedWords(pre + RuleArgs(port, protocol) + post);
    KeyFreeMatch(port, protocol);
    KeyFreeConcat(["-j", "ACCEPT"], post);
    KeyForIsKey(port);
    FieldsParse(port, protocol, pre, Match(port), ["-j", "ACCEPT"] + post, KeyFor(port), ValueFor(port));
    Regroup(pre, ["-p", protocol], Match(port), [KeyFor(port), ValueFor(port)], ["-j", "ACCEPT"], post);
  }

  lemma JoinedWords(fields: seq<string>)
    requires AreWords(fields)
    ensures Fields(Join(fields, ' ')) == fields
  {
    FieldsJoined(fields);
  }

  lemma ValidShape(port: string, protocol: string)
    requires ValidPort(port, protocol)
    ensures PortShape(port) && Protocol(protocol)
  {
  }

  lemma KeyForIsKey(port: string)
    ensures PortKey(KeyFor(port)) && ValueFor(port) == (if '-' in port then Replace(port, '-', ':') else port)
  {
  }

  /** As iptables lists it, with its own match between protocol and port. */
  function Listed(port: string, protocol: string): seq<string> {
    ["-A", "INPUT"] + ["-p", protocol] + ["-m", protocol] + ["--dport", port] + ["-j", "ACCEPT"]
  }

  lemma ListedWords(port: string, protocol: string)
    requires PortShape(port) && Protocol(protocol)
    ensures AreWords(Listed(port, protocol))
  {
    PortChars(port);
    Keywords();
    hide Solid, PortShape;
  }

  lemma ListedRuleParses(port: string, protocol: string)
    requires ValidPort(port, protocol) && '-' !in port
    ensures Parsed(Fields(Join(Listed(port, protocol), ' '))) == Some(port + "/" + protocol)
  {
    ValidShape(port, protocol);
    ListedWords(port, protocol);
    JoinedWords(Listed(port, protocol));
    KeyFreeMatch(port, protocol);
    hide PortShape, Protocol, KeyFree, Parsed, Fields, AreWords;
    FieldsParse(port, protocol, ["-A", "INPUT"], ["-m", protocol], ["-j", "ACCEPT"], "--dport", port);
  }
}
