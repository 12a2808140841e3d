/** plugins/appstore/renderer.go: relabelHostBindMount, which appends `:Z` to host directories. */
module BindMounts {
  import opened Text
  import opened Optional
  import Compose

  /** The quote character around the text of a list item, if there is one. */
  function Quote(s: string): string {
    if |s| >= 2 && s[0] == '"' && s[|s| - 1] == '"' then "\""
    else if |s| >= 2 && s[0] == '\'' && s[|s| - 1] == '\'' then "'"
    else ""
  }

  function Unquoted(s: string): string {
    if Quote(s) == "" then s else s[1..|s| - 1]
  }

  predicate Under(host: string, root: string) {
    host == root || HasPrefix(host, root + "/")
  }

  predicate HostPath(host: string) {
    && (HasPrefix(host, "/") || HasPrefix(host, "${"))
    && !Compose.MentionsSocket(host)
    && !Under(host, "/dev") && !Under(host, "/sys") && !Under(host, "/proc") && !Under(host, "/run/udev")
  }

  predicate MountOption(last: string) {
    last == "Z" || last == "z" || last == "ro" || last == "rw"
  }

  /** A mount that gets `:Z`: a host directory, without a mount option yet. */
  predicate Eligible(spec: string) {
    var parts := Split(spec, ':');
    |parts| >= 2 && HostPath(parts[0]) && !MountOption(parts[|parts| - 1])
  }

  function Relabel(line: string, inVolumes: bool): string {
    var t := TrimSpace(line);
    if !inVolumes || !HasPrefix(t, "- ") then line
    else
      var s := t[2..];
      if !Eligible(Unquoted(s)) then line
      else if Quote(s) != "" then
        Compose.TrimLeftShortens(line);
        Compose.TrimRightShortens(TrimLeft(line));
        line[..|line| - |t|] + "- " + Quote(s) + Unquoted(s) + ":Z" + Quote(s)
      else line + ":Z"
  }

  /** A list item as YAML sees it: the blanks in front, the quote, the text. */
  datatype Item = Item(lead: string, quote: string, spec: string)

  function ReadItem(line: string): Option<Item> {
    var t := TrimSpace(line);
    if HasPrefix(t, "- ") then
      Compose.TrimLeftShortens(line);
      Some(Item(line[..|line| - |TrimLeft(line)|], Quote(t[2..]), Unquoted(t[2..])))
    else None
  }

  predicate EndsInSpace(line: string) {
    line != "" && IsSpace(line[|line| - 1])
  }

  lemma TrimRightFixed(s: string)
    ensures TrimRight(s) == s <==> !EndsInSpace(s)
  {
    if EndsInSpace(s) {
      Compose.TrimRightShortens(s[..|s| - 1]);
    }
  }

  lemma {:induction false} TrimLeftSpaces(a: string, b: string)
    requires Blank(a)
    requires b != "" && !IsSpace(b[0])
    ensures TrimLeft(a + b) == b
  {
    if a == "" {
      assert a + b == b;
    } else {
      assert a[0] in a && (a + b)[1..] == a[1..] + b;
      assert forall c | c in a[1..] :: c in a;
      TrimLeftSpaces(a[1..], b);
    }
  }

  /** Blanks followed by a text that has none at its ends. */
  lemma TrimSpaceMiddle(a: string, b: string)
    requires Blank(a)
    requires b != "" && !IsSpace(b[0]) && !IsSpace(b[|b| - 1])
    ensures TrimLeft(a + b) == b && TrimSpace(a + b) == b
  {
    TrimLeftSpaces(a, b);
  }

  /** How a list item lies in its line: `lead` + "- " + `s` + `trail`. */
  ghost predicate LaidOut(line: string, lead: string, s: string, trail: string) {
    && line == lead + ("- " + s + trail)
    && Blank(lead)
    && TrimLeft(line) == "- " + s + trail
    && TrimSpace(line) == "- " + s
    && (trail == "" <==> !EndsInSpace(line))
  }

  lemma ItemLaidOut(line: string) returns (lead: string, s: string, trail: string)
    requires HasPrefix(TrimSpace(line), "- ")
    ensures LaidOut(line, lead, s, trail)
  {
    var u := TrimLeft(line);
    var t := TrimSpace(line);
    lead := TrimLeftParts(line);
    trail := TrimRightParts(u);
    s := t[2..];
    assert t == "- " + s && u == t + trail;
    TrimRightFixed(u);
    assert line[|line| - 1] == u[|u| - 1];
  }

  lemma {:induction false} SplitLast(a: string)
    ensures var parts := Split(a + ":Z", ':'); parts[|parts| - 1] == "Z"
  {
    var t := a + ":Z";
    if a == "" {
      assert t == "" + [':'] + "Z";
      SplitAtSep("", "Z", ':');
      SplitNoSep("Z", ':');
    } else {
      assert t[1..] == a[1..] + ":Z";
      SplitLast(a[1..]);
      LongerThanOne(a[1..]);
    }
  }

  lemma {:induction false} LongerThanOne(a: string)
    ensures |Split(a + ":Z", ':')| >= 2
  {
    var t := a + ":Z";
    if a != "" {
      assert t[1..] == a[1..] + ":Z";
      LongerThanOne(a[1..]);
    } else {
      assert t[0] == ':';
    }
  }

  /** What carries `:Z` already is left alone. */
  lemma DoneAlready(a: string)
    ensures !Eligible(a + ":Z")
  {
    SplitLast(a);
  }

  lemma {:induction false} FirstPart(s: string)
    ensures Split(s, ':')[0] <= s
  {
    if s != "" && s[0] != ':' {
      FirstPart(s[1..]);
    }
  }

  predicate PathStart(c: char) { c == '/' || c == '$' }

  lemma EligibleStart(s: string)
    requires Eligible(s)
    ensures s != "" && PathStart(s[0])
  {
    var host := Split(s, ':')[0];
    FirstPart(s);
    if HasPrefix(host, "/") {
      assert host[0] == "/"[0];
    } else {
      assert host[0] == "${"[0];
    }
  }

  /** The list item that a quoted mount becomes. */
  function QuotedItem(q: string, spec: string): string {
    "- " + (q + (spec + ":Z") + q)
  }

  lemma QuotedEnds(s: string)
    requires Quote(s) != ""
    ensures |s| >= 2 && |Quote(s)| == 1 && Compose.IsQuote(Quote(s)[0])
    ensures s == Quote(s) + Unquoted(s) + Quote(s)
  {
  }

  lemma Requoted(q: string, x: string)
    requires |q| == 1 && Compose.IsQuote(q[0])
    ensures Quote(q + x + q) == q && Unquoted(q + x + q) == x
  {
    assert (q + x + q)[1..|q + x + q| - 1] == x;
  }

  lemma RelabelQuoted(line: string, lead: string, s: string, trail: string)
    requires LaidOut(line, lead, s, trail) && Eligible(Unquoted(s)) && Quote(s) != ""
    ensures |trail| <= |"- " + s + trail|
    ensures Relabel(line, true) == lead + (("- " + s + trail)[..|trail|] + QuotedItem(Quote(s), Unquoted(s)))
  {
    hide Eligible, Quote, Unquoted, TrimSpace, TrimLeft, EndsInSpace;
    var u := "- " + s + trail;
    var t := "- " + s;
    assert t[2..] == s;
    assert line[..|line| - |t|] == lead + u[..|trail|];
    var q, x := Quote(s), Unquoted(s);
    assert lead + u[..|trail|] + "- " + q + x + ":Z" + q == lead + (u[..|trail|] + ("- " + (q + (x + ":Z") + q)));
  }

  lemma RelabelPlain(line: string, lead: string, s: string, trail: string)
    requires LaidOut(line, lead, s, trail) && Eligible(Unquoted(s)) && Quote(s) == ""
    ensures Relabel(line, true) == lead + ("- " + (s + trail + ":Z"))
    ensures TrimSpace(Relabel(line, true)) == "- " + (s + trail + ":Z")
    ensures TrimLeft(Relabel(line, true)) == "- " + (s + trail + ":Z")
  {
    var t := "- " + s;
    assert t[2..] == s;
    assert lead + ("- " + s + trail) + ":Z" == lead + ("- " + (s + trail + ":Z"));
    TrimSpaceMiddle(lead, "- " + (s + trail + ":Z"));
  }

  lemma PlainEnd(x: string)
    ensures Quote(x + ":Z") == "" && Unquoted(x + ":Z") == x + ":Z"
  {
  }

  /** The trimmed text of a quoted mount after relabelling. */
  lemma QuotedTrimmed(lead: string, front: string, q: string, spec: string)
    requires Blank(lead)
    requires |q| == 1 && Compose.IsQuote(q[0])
    requires front == "" || front[0] == '-'
    ensures var b := front + QuotedItem(q, spec);
            TrimLeft(lead + b) == b && TrimSpace(lead + b) == b
  {
    var b := front + QuotedItem(q, spec);
    assert b[0] == '-' && b[|b| - 1] == q[0];
    TrimSpaceMiddle(lead, b);
  }

  /** Relabelling reads back as the same item with `:Z` behind its text, for every eligible mount,
      exactly when the line does not end in white space: the code measures the indentation with the
      trailing blanks included, and appends behind them. */
  lemma RelabelExact(line: string, item: Item)
    requires ReadItem(line) == Some(item) && Eligible(item.spec)
    ensures ReadItem(Relabel(line, true)) == Some(item.(spec := item.spec + ":Z")) <==> !EndsInSpace(line)
  {
    var lead, s, trail := ItemLaidOut(line);
    ItemParts(line, lead, s, trail, item);
    if Quote(s) == "" {
      PlainExact(line, lead, s, trail);
    } else {
      QuotedExact(line, lead, s, trail);
    }
  }

  lemma OneBlank(t: string)
    requires t != "" && !IsSpace(t[0]) && !IsSpace(t[|t| - 1])
    ensures TrimLeft(t + " ") == t + " " && TrimSpace(t + " ") == t
  {
    var line := t + " ";
    assert IsSpace(' ');
    TrimRightFixed(t);
    hide IsSpace;
    assert line[0] == t[0] && line[..|line| - 1] == t;
  }

  lemma QuotedMount(spec: string)
    ensures var t := "- " + ("\"" + spec + "\"");
            && Quote(t[2..]) == "\"" && Unquoted(t[2..]) == spec && HasPrefix(t, "- ")
            && t[0] == '-' && t[|t| - 1] == '"'
  {
    var s := "\"" + spec + "\"";
    assert ("- " + s)[2..] == s;
    Requoted("\"", spec);
  }

  lemma TwoDashes(l: string)
    requires |l| >= 2 && l[0] == '-' && l[1] == '-' && !IsSpace(l[|l| - 1])
    ensures ReadItem(l) == None
  {
    assert TrimSpace(l) == l && "- "[1] == ' ';
  }

  /** With one blank behind its quote the item loses its shape: one more dash, and no item any more. */
  lemma TrailingBlankBreaks(spec: string)
    requires Eligible(spec)
    ensures var line := "- " + ("\"" + spec + "\"") + " ";
            && ReadItem(line) == Some(Item("", "\"", spec))
            && Relabel(line, true) == "-- " + ("\"" + spec + ":Z\"") && ReadItem(Relabel(line, true)) == None
  {
    var t := "- " + ("\"" + spec + "\"");
    var line, l := t + " ", "-- " + ("\"" + spec + ":Z\"");
    QuotedMount(spec);
    OneBlank(t);
    assert line[..0] == "" && line[..1] == "-";
    TwoDashes(l);
    hide Eligible, Quote, Unquoted, TrimSpace, TrimLeft, IsSpace;
    assert "-" + "- " + "\"" + spec + ":Z" + "\"" == l;
    assert Relabel(line, true) == l;
  }

  /** Such a mount. */
  lemma TrailingBlankExample()
    ensures Relabel("- " + ("\"" + "/a:/b" + "\"") + " ", true) == "-- " + ("\"" + "/a:/b" + ":Z\"")
  {
    MountParts();
    hide *;
    TrailingBlankBreaks("/a:/b");
  }

  lemma MountParts()
    ensures Eligible("/a:/b")
  {
    assert "/a:/b" == "/a" + [':'] + "/b";
    SplitAtSep("/a", "/b", ':');
    SplitNoSep("/b", ':');
    assert Split("/a:/b", ':') == ["/a", "/b"];
    NoSocket("/a");
    assert "/a"[0] == '/' && "/a"[1] == 'a';
    assert |"/dev"| > 2 && |"/sys"| > 2 && |"/proc"| > 2 && |"/run/udev"| > 2;
    assert "/b"[0] == '/' && |"/b"| == 2 && "ro"[0] == 'r' && "rw"[0] == 'r';
  }

  lemma {:induction false} ShortWithout(s: string, sub: string)
    requires |s| < |sub|
    ensures !Contains(s, sub)
    decreases |s|
  {
    if s != "" { ShortWithout(s[1..], sub); }
  }

  lemma NoSocket(host: string)
    requires |host| == 2
    ensures !Compose.MentionsSocket(host)
  {
    ShortWithout(host, "docker.sock");
    ShortWithout(host, "podman.sock");
  }

  lemma ItemParts(line: string, lead: string, s: string, trail: string, item: Item)
    requires LaidOut(line, lead, s, trail) && ReadItem(line) == Some(item)
    ensures item == Item(lead, Quote(s), Unquoted(s))
  {
    assert ("- " + s)[2..] == s;
    assert line[..|line| - |"- " + s + trail|] == lead;
  }

  lemma PlainExact(line: string, lead: string, s: string, trail: string)
    requires LaidOut(line, lead, s, trail) && Eligible(Unquoted(s)) && Quote(s) == ""
    ensures ReadItem(Relabel(line, true)) == Some(Item(lead, Quote(s), Unquoted(s) + ":Z")) <==> trail == ""
  {
    RelabelPlain(line, lead, s, trail);
    var x := s + trail;
    PlainEnd(x);
    var l := Relabel(line, true);
    assert ("- " + (x + ":Z"))[2..] == x + ":Z";
    assert l[..|l| - |"- " + (x + ":Z")|] == lead;
    assert ReadItem(l) == Some(Item(lead, "", x + ":Z"));
    assert |x + ":Z"| == |s + ":Z"| ==> trail == "";
    assert trail == "" ==> x == s;
  }

  lemma QuotedExact(line: string, lead: string, s: string, trail: string)
    requires LaidOut(line, lead, s, trail) && Eligible(Unquoted(s)) && Quote(s) != ""
    ensures ReadItem(Relabel(line, true)) == Some(Item(lead, Quote(s), Unquoted(s) + ":Z")) <==> trail == ""
  {
    var q, x := Quote(s), Unquoted(s);
    QuotedEnds(s);
    RelabelQuoted(line, lead, s, trail);
    var front := ("- " + s + trail)[..|trail|];
    var b := front + QuotedItem(q, x);
    QuotedTrimmed(lead, front, q, x);
    var l := lead + b;
    assert l[..|l| - |b|] == lead;
    if trail == "" {
      assert b[2..] == q + (x + ":Z") + q;
      Requoted(q, x + ":Z");
    } else if HasPrefix(b, "- ") {
      UnquotedLength(b[2..]);
    }
  }

  lemma UnquotedLength(s: string)
    ensures |Unquoted(s)| == |s| - 2 * |Quote(s)|
  {
  }

  /** The text of a line after relabelling: not an item, or an item that is not eligible. */
  ghost predicate Settled(t: string) {
    HasPrefix(t, "- ") ==> !Eligible(Unquoted(t[2..]))
  }

  lemma SettledStays(line: string)
    requires Settled(TrimSpace(line))
    ensures Relabel(line, true) == line
  {
  }

  /** The pieces that end up in front of the rewritten item when the line had trailing blanks. */
  lemma FrontSettled(front: string, q: string, spec: string)
    requires |q| == 1 && Compose.IsQuote(q[0])
    requires |front| >= 1 ==> front[0] == '-'
    requires |front| >= 2 ==> front[1] == ' '
    requires |front| >= 3 ==> front[2] == q[0]
    ensures Settled(front + QuotedItem(q, spec))
  {
    var t := front + QuotedItem(q, spec);
    if |front| == 0 {
      assert t[2..] == q + (spec + ":Z") + q;
      Requoted(q, spec + ":Z");
      DoneAlready(spec);
    } else if |front| == 1 {
      assert t[1] == '-' && "- "[1] == ' ';
    } else if |front| == 2 {
      assert t[2..] == QuotedItem(q, spec) && t[2] == '-';
      DashSettled(t[2..]);
    } else {
      var inner := front[3..] + "- " + q + spec;
      assert front == front[..2] + q + front[3..];
      assert t[2..] == q + (inner + ":Z") + q;
      Requoted(q, inner + ":Z");
      DoneAlready(inner);
    }
  }

  lemma DashSettled(s: string)
    requires s != "" && s[0] == '-'
    ensures !Eligible(Unquoted(s))
  {
    if Eligible(Unquoted(s)) {
      EligibleStart(Unquoted(s));
    }
  }

  lemma RelabelChanges(line: string)
    requires Relabel(line, true) != line
    ensures "- " <= TrimSpace(line) && Eligible(Unquoted(TrimSpace(line)[2..]))
  {
    hide Eligible, Unquoted, Quote, TrimSpace;
  }

  lemma PlainSettles(line: string, lead: string, s: string, trail: string)
    requires LaidOut(line, lead, s, trail) && Eligible(Unquoted(s)) && Quote(s) == ""
    ensures Settled(TrimSpace(Relabel(line, true)))
  {
    hide Eligible, Unquoted, Quote, TrimSpace, Relabel, LaidOut;
    RelabelPlain(line, lead, s, trail);
    PlainEnd(s + trail);
    DoneAlready(s + trail);
    assert ("- " + (s + trail + ":Z"))[2..] == s + trail + ":Z";
  }

  lemma QuotedSettles(line: string, lead: string, s: string, trail: string)
    requires LaidOut(line, lead, s, trail) && Eligible(Unquoted(s)) && Quote(s) != ""
    ensures Settled(TrimSpace(Relabel(line, true)))
  {
    hide Eligible, Unquoted, Quote, TrimSpace, TrimLeft, Relabel, Settled, QuotedItem, IsSpace;
    var q := Quote(s);
    QuotedEnds(s);
    RelabelQuoted(line, lead, s, trail);
    var front := ("- " + s + trail)[..|trail|];
    QuotedTrimmed(lead, front, q, Unquoted(s));
    FrontSettled(front, q, Unquoted(s));
  }

  lemma RelabelSettles(line: string)
    requires Relabel(line, true) != line
    ensures Settled(TrimSpace(Relabel(line, true)))
  {
    RelabelChanges(line);
    var lead, s, trail := ItemLaidOut(line);
    assert TrimSpace(line)[2..] == s;
    hide *;
    if Quote(s) == "" {
      PlainSettles(line, lead, s, trail);
    } else {
      QuotedSettles(line, lead, s, trail);
    }
  }

  /** Relabelling twice is relabelling once, on every line. */
  lemma RelabelIdempotent(line: string, inVolumes: bool)
    ensures Relabel(Relabel(line, inVolumes), inVolumes) == Relabel(line, inVolumes)
  {
    if inVolumes && Relabel(line, true) != line {
      RelabelSettles(line);
      SettledStays(Relabel(line, true));
    }
  }

  // ---------------------------------------------------------------------------------------------
  // Which mounts are relabelled
  // ---------------------------------------------------------------------------------------------

  /** The part behind the host path is the option, or ends in it. */
  predicate EndsInOption(rest: string, option: string) {
    rest == option || HasSuffix(rest, ":" + option)
  }

  lemma OptionBehind(rest: string, a: string, b: string, option: string)
    requires rest == a + [':'] + b && ':' !in a && ':' !in option
    ensures EndsInOption(rest, option) <==> EndsInOption(b, option)
  {
    var x := ":" + option;
    assert rest != option by { assert rest[|a|] == ':'; }
    if |b| < |option| && |x| <= |rest| {
      assert rest[|rest| - |x|..][0] == a[|rest| - |x|];
    } else if |b| == |option| {
      assert rest[|a|..] == [':'] + b && x[1..] == option;
    } else if |b| > |option| {
      assert rest[|rest| - |x|..] == b[|b| - |x|..];
    }
  }

  lemma {:induction false} LastPart(rest: string, option: string)
    requires ':' !in option
    ensures var parts := Split(rest, ':'); parts[|parts| - 1] == option <==> EndsInOption(rest, option)
    decreases |rest|
  {
    var i := IndexOf(rest, ':');
    if i == |rest| {
      assert rest[..i] == rest;
      SplitNoSep(rest, ':');
      assert (":" + option)[0] == ':';
      assert |rest| > |option| ==> rest[|rest| - |option| - 1..][0] != ':';
    } else {
      var a, b := rest[..i], rest[i + 1..];
      assert rest == a + [':'] + b;
      SplitAtSep(a, b, ':');
      LastPart(b, option);
      OptionBehind(rest, a, b, option);
    }
  }

  lemma EligibleMeans(spec: string, host: string, rest: string)
    requires spec == host + [':'] + rest && ':' !in host
    ensures Eligible(spec) <==>
              && HostPath(host)
              && !EndsInOption(rest, "Z") && !EndsInOption(rest, "z")
              && !EndsInOption(rest, "ro") && !EndsInOption(rest, "rw")
  {
    hide HostPath, EndsInOption;
    SplitAtSep(host, rest, ':');
    LastPart(rest, "Z");
    LastPart(rest, "z");
    LastPart(rest, "ro");
    LastPart(rest, "rw");
  }

  lemma EligibleChanges(line: string)
    requires HasPrefix(TrimSpace(line), "- ") && Eligible(Unquoted(TrimSpace(line)[2..]))
    ensures Relabel(line, true) != line
  {
    hide Eligible;
    var s := TrimSpace(line)[2..];
    UnquotedLength(s);
    Compose.TrimLeftShortens(line);
    Compose.TrimRightShortens(TrimLeft(line));
    if Quote(s) != "" {
      QuotedEnds(s);
      assert |Relabel(line, true)| == |line| + 2;
    } else {
      assert |Relabel(line, true)| == |line| + 2;
    }
  }

  /** A `host:rest` item changes exactly when the host is an absolute path or a variable, names no engine
      socket, is not at or below a pseudo file system, and the rest carries no label or access option. */
  lemma RelabelsExactly(line: string, item: Item, host: string, rest: string)
    requires ReadItem(line) == Some(item) && item.spec == host + [':'] + rest && ':' !in host
    ensures Relabel(line, true) != line <==>
              && HostPath(host)
              && !EndsInOption(rest, "Z") && !EndsInOption(rest, "z")
              && !EndsInOption(rest, "ro") && !EndsInOption(rest, "rw")
  {
    EligibleMeans(item.spec, host, rest);
    hide Eligible, EndsInOption, HostPath, Quote, Unquoted, TrimLeft, TrimSpace;
    if Eligible(item.spec) {
      EligibleChanges(line);
    } else if Relabel(line, true) != line {
      RelabelChanges(line);
    }
  }
}
