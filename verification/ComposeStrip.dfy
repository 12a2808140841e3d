/** plugins/appstore/renderer.go: the pass that strips the other store's labels and network and
    relabels bind mounts, and SanitizeCompose, which runs all passes. */
module ComposeStrip {
  import opened Text
  import BindMounts
  import Compose
  import ComposeServices
  import EmptySections

  // ---------------------------------------------------------------------------------------------
  // The lines of a document as the buffered scanner yields them
  // ---------------------------------------------------------------------------------------------

  function DropReturn(x: string): string {
    if x != "" && x[|x| - 1] == '\r' then x[..|x| - 1] else x
  }

  function ScannedLines(s: string): seq<string> {
    var ls := Split(s, '\n');
    Compose.Map(DropReturn, if ls[|ls| - 1] == "" then ls[..|ls| - 1] else ls)
  }

  // ---------------------------------------------------------------------------------------------
  // What one line is
  // ---------------------------------------------------------------------------------------------

  predicate StoreName(s: string) {
    HasPrefix(s, "traefik.") || HasPrefix(s, "runtipi.")
  }

  /** A label of the other store, as a mapping entry or as a list item, quoted or not. */
  predicate StoreLabel(t: string) {
    StoreName(t) || StoreName(Compose.TrimQuotes(TrimPrefix(t, "- ")))
  }

  predicate NetworkItem(t: string) {
    t == "- tipi_main_network" || t == "- tipi-main-network"
  }

  predicate NetworkKey(t: string) {
    t == "tipi_main_network:" || t == "tipi-main-network:"
  }

  predicate Dropped(line: string) {
    var t := TrimSpace(line);
    StoreLabel(t) || NetworkItem(t)
  }

  predicate OpensNetwork(line: string) {
    NetworkKey(TrimSpace(line))
  }

  predicate Child(line: string) {
    HasPrefix(line, "  ") || HasPrefix(line, "\t")
  }

  predicate VolumesKey(line: string) {
    TrimSpace(line) == "volumes:"
  }

  predicate BlankLine(line: string) {
    TrimSpace(line) == ""
  }

  // ---------------------------------------------------------------------------------------------
  // What the pass keeps, line by line
  // ---------------------------------------------------------------------------------------------

  /** Line h opens the store's network, and all lines from there to line i are children or dropped. */
  ghost predicate NetworkFrom(lines: seq<string>, h: nat, i: nat)
    requires h <= i < |lines|
  {
    OpensNetwork(lines[h]) && forall k | h < k <= i :: Child(lines[k]) || Dropped(lines[k])
  }

  ghost predicate InNetwork(lines: seq<string>, i: nat)
    requires i < |lines|
  {
    exists h: nat :: h <= i && NetworkFrom(lines, h, i)
  }

  ghost predicate Removed(lines: seq<string>, i: nat)
    requires i < |lines|
  {
    Dropped(lines[i]) || InNetwork(lines, i)
  }

  /** Line h is the last `volumes:` key up to line i, and no line behind it is as shallow. */
  ghost predicate VolumesFrom(lines: seq<string>, h: nat, i: nat)
    requires h <= i < |lines|
  {
    && VolumesKey(lines[h])
    && forall k | h < k <= i :: !VolumesKey(lines[k]) && (BlankLine(lines[k]) || Indent(lines[k]) > Indent(lines[h]))
  }

  ghost predicate UnderVolumes(lines: seq<string>, i: nat)
    requires i < |lines|
  {
    exists h: nat :: h <= i && VolumesFrom(lines, h, i) && Indent(lines[i]) > Indent(lines[h])
  }

  /** What is kept of line i: nothing, or the line with its mount relabelled. */
  ghost function KeptLine(lines: seq<string>, i: nat): seq<string>
    requires i < |lines|
  {
    if Removed(lines, i) then [] else [BindMounts.Relabel(lines[i], UnderVolumes(lines, i))]
  }

  ghost function Kept(lines: seq<string>, n: nat): seq<string>
    requires n <= |lines|
  {
    if n == 0 then [] else Kept(lines, n - 1) + KeptLine(lines, n - 1)
  }

  ghost function Stripped(compose: string): string {
    var lines := ScannedLines(compose);
    var kept := Join(Kept(lines, |lines|), '\n');
    EmptySections.CleanSection(EmptySections.CleanSection(kept, "networks:"), "labels:")
  }

  ghost function Sanitized(compose: string): string {
    Compose.Inject(Stripped(compose))
  }

  // ---------------------------------------------------------------------------------------------
  // The loop: two variables stand for "in the network block" and "in a volumes block"
  // ---------------------------------------------------------------------------------------------

  lemma KeyNotDropped(line: string)
    requires OpensNetwork(line)
    ensures !Dropped(line)
  {
    var t := TrimSpace(line);
    assert t[0] == 't' && t[1] == 'i' && t[|t| - 1] == ':';
    assert "traefik."[1] == 'r' && "runtipi."[0] == 'r' && "- tipi"[0] == '-';
    assert "- "[0] == '-';
    assert TrimPrefix(t, "- ") == t;
    Unchanged(t);
    assert "- tipi_main_network"[0] == '-' && "- tipi-main-network"[0] == '-';
  }

  lemma Unchanged(t: string)
    requires t != "" && !Compose.IsQuote(t[0]) && !Compose.IsQuote(t[|t| - 1])
    ensures Compose.TrimQuotes(t) == t
  {
  }

  ghost predicate Skipping(lines: seq<string>, n: nat)
    requires n <= |lines|
  {
    n > 0 && InNetwork(lines, n - 1)
  }

  lemma NetworkStep(lines: seq<string>, i: nat)
    requires i < |lines|
    ensures InNetwork(lines, i)
            <==> OpensNetwork(lines[i]) || (Skipping(lines, i) && (Child(lines[i]) || Dropped(lines[i])))
  {
    hide OpensNetwork, Child, Dropped;
    if OpensNetwork(lines[i]) {
      assert NetworkFrom(lines, i, i);
    }
    if Skipping(lines, i) && (Child(lines[i]) || Dropped(lines[i])) {
      var h: nat :| h <= i - 1 && NetworkFrom(lines, h, i - 1);
      assert NetworkFrom(lines, h, i);
    }
    if InNetwork(lines, i) && !OpensNetwork(lines[i]) {
      var h: nat :| h <= i && NetworkFrom(lines, h, i);
      assert NetworkFrom(lines, h, i - 1);
    }
  }

  /** `v` is the indentation of the open `volumes:` key, or -1. */
  ghost predicate VolumesAt(lines: seq<string>, n: nat, v: int)
    requires n <= |lines|
  {
    if v >= 0 then n > 0 && exists h: nat :: h <= n - 1 && VolumesFrom(lines, h, n - 1) && v == Indent(lines[h])
    else v == -1 && (n > 0 ==> NoVolumes(lines, n - 1))
  }

  ghost predicate NoVolumes(lines: seq<string>, i: nat)
    requires i < |lines|
  {
    forall h: nat | h <= i :: !VolumesFrom(lines, h, i)
  }

  lemma LastKey(lines: seq<string>, g: nat, h: nat, i: nat)
    requires g <= i < |lines| && h <= i && VolumesFrom(lines, g, i) && VolumesFrom(lines, h, i)
    ensures g == h
  {
  }

  lemma VolumesBack(lines: seq<string>, h: nat, i: nat)
    requires h <= i < |lines|
    ensures VolumesFrom(lines, h, i)
            <==> if h == i then VolumesKey(lines[i])
                 else VolumesFrom(lines, h, i - 1) && !VolumesKey(lines[i])
                      && (BlankLine(lines[i]) || Indent(lines[i]) > Indent(lines[h]))
  {
  }

  function VolumesAfter(v: int, line: string): int {
    if VolumesKey(line) then Indent(line)
    else if v >= 0 && !BlankLine(line) && Indent(line) <= v then -1
    else v
  }

  lemma VolumesStep(lines: seq<string>, i: nat, v: int)
    requires i < |lines| && VolumesAt(lines, i, v)
    ensures VolumesAt(lines, i + 1, VolumesAfter(v, lines[i]))
  {
    forall h: nat | h <= i
      ensures VolumesFrom(lines, h, i)
              <==> if h == i then VolumesKey(lines[i])
                   else VolumesFrom(lines, h, i - 1) && !VolumesKey(lines[i])
                        && (BlankLine(lines[i]) || Indent(lines[i]) > Indent(lines[h]))
    {
      VolumesBack(lines, h, i);
    }
    if VolumesKey(lines[i]) {
      assert VolumesFrom(lines, i, i);
    } else if v >= 0 {
      var g: nat :| g <= i - 1 && VolumesFrom(lines, g, i - 1) && v == Indent(lines[g]);
      forall h: nat | h <= i && VolumesFrom(lines, h, i) ensures h == g {
        LastKey(lines, g, h, i - 1);
      }
    }
  }

  lemma VolumesUnder(lines: seq<string>, i: nat, v: int)
    requires i < |lines| && VolumesAt(lines, i + 1, v)
    ensures UnderVolumes(lines, i) <==> v >= 0 && Indent(lines[i]) > v
  {
    if UnderVolumes(lines, i) && v >= 0 {
      var g: nat :| g <= i && VolumesFrom(lines, g, i) && Indent(lines[i]) > Indent(lines[g]);
      var h: nat :| h <= i && VolumesFrom(lines, h, i) && v == Indent(lines[h]);
      LastKey(lines, g, h, i);
    }
  }

  lemma KeptNext(lines: seq<string>, i: nat, v: int)
    requires i < |lines| && VolumesAt(lines, i + 1, v)
    ensures Kept(lines, i + 1)
         == Kept(lines, i)
            + (if Dropped(lines[i]) || InNetwork(lines, i) then []
               else [BindMounts.Relabel(lines[i], v >= 0 && Indent(lines[i]) > v)])
  {
    VolumesUnder(lines, i, v);
  }

  /** The loop of the strip pass. */
  method StripLines(lines: seq<string>) returns (out: seq<string>)
    ensures out == Kept(lines, |lines|)
  {
    out := [];
    var skipTopNetwork := false;
    var volumesIndent: int := -1;
    assert Kept(lines, 0) == [];
    assert VolumesAt(lines, 0, -1);
    assert !Skipping(lines, 0);
    for i := 0 to |lines|
      invariant out == Kept(lines, i)
      invariant skipTopNetwork <==> Skipping(lines, i)
      invariant VolumesAt(lines, i, volumesIndent)
    {
      var line := lines[i];
      var indent := Indent(line);
      NetworkStep(lines, i);
      VolumesStep(lines, i, volumesIndent);
      assert Skipping(lines, i + 1) == InNetwork(lines, i);
      if VolumesKey(line) {
        volumesIndent := indent;
      } else if volumesIndent >= 0 && !BlankLine(line) && indent <= volumesIndent {
        volumesIndent := -1;
      }
      var inVolumes := volumesIndent >= 0 && indent > volumesIndent;
      KeptNext(lines, i, volumesIndent);
      if Dropped(line) {
        if OpensNetwork(line) { KeyNotDropped(line); }
        continue;
      }
      if skipTopNetwork {
        if Child(line) {
          continue;
        }
        skipTopNetwork := false;
      }
      if OpensNetwork(line) {
        skipTopNetwork := true;
        continue;
      }
      out := out + [BindMounts.Relabel(line, inVolumes)];
    }
  }

  method SanitizeStripAndRelabel(compose: string) returns (result: string)
    ensures result == Stripped(compose)
  {
    var out := StripLines(ScannedLines(compose));
    result := Join(out, '\n');
    result := EmptySections.CleanEmptySection(result, "networks:");
    result := EmptySections.CleanEmptySection(result, "labels:");
  }

  method SanitizeCompose(compose: string) returns (r: string)
    ensures r == Sanitized(compose)
  {
    var stripped := SanitizeStripAndRelabel(compose);
    r := Compose.InjectSocketLabelDisable(stripped);
  }

  // ---------------------------------------------------------------------------------------------
  // Nothing of the other store is left
  // ---------------------------------------------------------------------------------------------

  /** No label of the other store and no reference to its network, as item or as key. */
  predicate Own(line: string) {
    !Dropped(line) && !OpensNetwork(line)
  }

  /** Behind its item mark and quotes the text starts with a path, a reference or a dash. */
  ghost predicate StartsOther(t: string) {
    && t != "" && t[0] == '-'
    && var s := Compose.TrimQuotesLeft(TrimPrefix(t, "- "));
       s != "" && s[0] in "/$-l"
  }

  lemma {:induction false} TrimQuotesRightPrefix(s: string)
    ensures Compose.TrimQuotesRight(s) <= s
  {
    if s != "" && Compose.IsQuote(s[|s| - 1]) { TrimQuotesRightPrefix(s[..|s| - 1]); }
  }

  lemma OtherOwn(line: string)
    requires StartsOther(TrimSpace(line))
    ensures Own(line)
  {
    var t := TrimSpace(line);
    var s := Compose.TrimQuotesLeft(TrimPrefix(t, "- "));
    assert Compose.TrimQuotes(TrimPrefix(t, "- ")) <= s by {
      TrimQuotesRightPrefix(s);
    }
    assert 't' !in "/$-l" && 'r' !in "/$-l";
    assert "traefik."[0] == 't' && "runtipi."[0] == 'r';
    assert "tipi_main_network:"[0] == 't' && "tipi-main-network:"[0] == 't';
    if NetworkItem(t) {
      ItemText(t);
    }
  }

  lemma ItemText(t: string)
    requires NetworkItem(t)
    ensures var s := Compose.TrimQuotesLeft(TrimPrefix(t, "- ")); s != "" && s[0] == 't'
  {
    if t == "- tipi_main_network" {
      TextBehind(t, "tipi_main_network");
    } else {
      TextBehind(t, "tipi-main-network");
    }
  }

  lemma TextBehind(t: string, rest: string)
    requires rest != "" && rest[0] == 't' && t == "- " + rest
    ensures Compose.TrimQuotesLeft(TrimPrefix(t, "- ")) == rest
  {
    assert t[2..] == rest;
  }

  lemma PathFirst(c: char)
    requires BindMounts.PathStart(c)
    ensures c in "/$-l" && !Compose.IsQuote(c)
  {
    assert "/$-l"[0] == '/' && "/$-l"[1] == '$';
  }

  /** A text that starts with one of the characters above, possibly behind one quote. */
  lemma QuoteThen(q: string, x: string)
    requires q == "" || (|q| == 1 && Compose.IsQuote(q[0]))
    requires x != "" && x[0] in "/$-l" && !Compose.IsQuote(x[0])
    ensures Compose.TrimQuotesLeft(q + x) == x
  {
    if q != "" {
      assert (q + x)[1..] == x;
    } else {
      assert q + x == x;
    }
  }

  lemma ItemStartsOther(q: string, x: string)
    requires q == "" || (|q| == 1 && Compose.IsQuote(q[0]))
    requires x != "" && x[0] in "/$-l" && !Compose.IsQuote(x[0])
    ensures StartsOther("- " + (q + x))
  {
    var t := "- " + (q + x);
    assert t[2..] == q + x;
    QuoteThen(q, x);
  }

  lemma DashNotQuote()
    ensures '-' in "/$-l" && !Compose.IsQuote('-')
  {
    assert "/$-l"[2] == '-';
  }

  /** The front that trailing blanks put before a quoted mount does not look like the store either. */
  lemma FrontStartsOther(front: string, q: string, spec: string)
    requires |q| == 1 && Compose.IsQuote(q[0]) && spec != "" && BindMounts.PathStart(spec[0])
    requires |front| >= 1 ==> front[0] == '-'
    requires |front| >= 2 ==> front[1] == ' '
    requires |front| >= 3 ==> front[2] == q[0]
    requires |front| >= 4 ==> front[3] == spec[0]
    ensures StartsOther(front + BindMounts.QuotedItem(q, spec))
  {
    var item := BindMounts.QuotedItem(q, spec);
    var t := front + item;
    PathFirst(spec[0]);
    DashNotQuote();
    if |front| == 0 {
      var x := spec + ":Z" + q;
      assert t == "- " + (q + x);
      ItemStartsOther(q, x);
    } else if |front| == 1 {
      assert t[0] == '-' && t[1] == '-';
      TwoDashes(t);
    } else if |front| == 2 {
      assert t == "- " + ("" + item);
      ItemStartsOther("", item);
    } else {
      var x := front[3..] + item;
      assert x[0] == if |front| == 3 then '-' else spec[0];
      assert t == "- " + (q + x);
      ItemStartsOther(q, x);
    }
  }

  lemma TwoDashes(t: string)
    requires |t| >= 2 && t[0] == '-' && t[1] == '-'
    ensures StartsOther(t)
  {
    assert "- "[1] == ' ';
    DashNotQuote();
  }

  lemma RelabelOwn(line: string, inVolumes: bool)
    requires Own(line)
    ensures Own(BindMounts.Relabel(line, inVolumes))
  {
    if BindMounts.Relabel(line, inVolumes) != line {
      assert inVolumes;
      RelabelledStart(line);
      OtherOwn(BindMounts.Relabel(line, true));
    }
  }

  lemma RelabelledStart(line: string)
    requires BindMounts.Relabel(line, true) != line
    ensures StartsOther(TrimSpace(BindMounts.Relabel(line, true)))
  {
    var t := TrimSpace(line);
    assert "- " <= t;
    assert BindMounts.Eligible(BindMounts.Unquoted(t[2..]));
    var lead, s, trail := BindMounts.ItemLaidOut(line);
    assert t[2..] == s;
    BindMounts.EligibleStart(BindMounts.Unquoted(s));
    hide *;
    if BindMounts.Quote(s) == "" {
      PlainStart(line, lead, s, trail);
    } else {
      QuotedStart(line, lead, s, trail);
    }
  }

  lemma PlainStart(line: string, lead: string, s: string, trail: string)
    requires BindMounts.LaidOut(line, lead, s, trail) && BindMounts.Quote(s) == ""
    requires var spec := BindMounts.Unquoted(s);
             BindMounts.Eligible(spec) && spec != "" && BindMounts.PathStart(spec[0])
    ensures StartsOther(TrimSpace(BindMounts.Relabel(line, true)))
  {
    BindMounts.RelabelPlain(line, lead, s, trail);
    assert BindMounts.Unquoted(s) == s;
    hide *;
    PathFirst(s[0]);
    assert "" + (s + trail + ":Z") == s + trail + ":Z";
    ItemStartsOther("", s + trail + ":Z");
  }

  lemma QuotedStart(line: string, lead: string, s: string, trail: string)
    requires BindMounts.LaidOut(line, lead, s, trail) && BindMounts.Quote(s) != ""
    requires var spec := BindMounts.Unquoted(s);
             BindMounts.Eligible(spec) && spec != "" && BindMounts.PathStart(spec[0])
    ensures StartsOther(TrimSpace(BindMounts.Relabel(line, true)))
  {
    var q, spec := BindMounts.Quote(s), BindMounts.Unquoted(s);
    BindMounts.QuotedEnds(s);
    BindMounts.RelabelQuoted(line, lead, s, trail);
    var front := ("- " + s + trail)[..|trail|];
    BindMounts.QuotedTrimmed(lead, front, q, spec);
    assert s[0] == q[0] && s[1] == spec[0];
    FrontStartsOther(front, q, spec);
  }

  lemma KeptLineOwn(lines: seq<string>, i: nat)
    requires i < |lines|
    ensures forall x | x in KeptLine(lines, i) :: Own(x)
  {
    hide UnderVolumes, InNetwork, BindMounts.Relabel;
    if !Removed(lines, i) {
      NetworkStep(lines, i);
      RelabelOwn(lines[i], UnderVolumes(lines, i));
    }
  }

  lemma {:induction false} KeptOwn(lines: seq<string>, n: nat)
    requires n <= |lines|
    ensures forall x | x in Kept(lines, n) :: Own(x)
  {
    if n > 0 {
      hide Own, KeptLine;
      KeptOwn(lines, n - 1);
      KeptLineOwn(lines, n - 1);
    }
  }

  predicate OwnLines(content: string) {
    forall x | x in Split(content, '\n') :: Own(x)
  }

  lemma LettersOwn(line: string)
    requires var t := TrimSpace(line); t != "" ==> t[0] in "sh" && t[|t| - 1] == ':'
    ensures Own(line)
  {
    var t := TrimSpace(line);
    assert "traefik."[0] == 't' && "runtipi."[0] == 'r' && "- "[0] == '-';
    assert TrimPrefix(t, "- ") == t;
    if t != "" {
      assert "sh"[0] == 's' && "sh"[1] == 'h';
      Unchanged(t);
    } else {
      assert Compose.TrimQuotes(t) == "";
    }
    assert "- tipi_main_network"[0] == '-' && "- tipi-main-network"[0] == '-';
    assert "tipi_main_network:"[0] == 't' && "tipi-main-network:"[0] == 't';
  }

  lemma BlankOwn()
    ensures OwnLines("")
  {
    assert TrimSpace("") == "";
    LettersOwn("");
  }

  /** The lines of a joined text are the lines that were joined. */
  lemma JoinedOwn(ls: seq<string>)
    requires forall x | x in ls :: '\n' !in x && Own(x)
    ensures OwnLines(Join(ls, '\n'))
  {
    if ls == [] {
      BlankOwn();
    } else {
      SplitJoin(ls, '\n');
    }
  }

  lemma CleanOwn(content: string, key: string)
    requires OwnLines(content)
    ensures OwnLines(EmptySections.CleanSection(content, key))
  {
    var ls := Split(content, '\n');
    EmptySections.CleanMembers(ls, key);
    JoinedOwn(EmptySections.Clean(ls, key));
  }

  lemma RelabelOneLine(line: string, inVolumes: bool)
    requires '\n' !in line
    ensures '\n' !in BindMounts.Relabel(line, inVolumes)
  {
    if BindMounts.Relabel(line, inVolumes) != line {
      var t := TrimSpace(line);
      assert "- " <= t;
      if BindMounts.Quote(t[2..]) != "" {
        var lead, s, trail := BindMounts.ItemLaidOut(line);
        assert t[2..] == s && line == lead + ("- " + s + trail) && t == "- " + s;
        BindMounts.QuotedEnds(s);
        PartsOneLine(line, lead, s, trail);
        assert BindMounts.Quote(s)[0] in s && forall c | c in BindMounts.Unquoted(s) :: c in s;
        assert '\n' !in "- " && '\n' !in ":Z";
      } else {
        assert '\n' !in ":Z";
      }
    }
  }

  lemma PartsOneLine(line: string, lead: string, s: string, trail: string)
    requires line == lead + ("- " + s + trail) && '\n' !in line
    ensures '\n' !in s && forall n: nat | n <= |line| :: '\n' !in line[..n]
  {
    assert forall c | c in s :: c in line;
  }

  lemma {:induction false} KeptOneLine(lines: seq<string>, n: nat)
    requires n <= |lines| && forall x | x in lines :: '\n' !in x
    ensures forall x | x in Kept(lines, n) :: '\n' !in x
  {
    if n > 0 {
      hide Removed, UnderVolumes, BindMounts.Relabel;
      KeptOneLine(lines, n - 1);
      RelabelOneLine(lines[n - 1], UnderVolumes(lines, n - 1));
    }
  }

  lemma ScannedOneLine(s: string)
    ensures forall x | x in ScannedLines(s) :: '\n' !in x
  {
    var ls := Split(s, '\n');
    forall x | x in ScannedLines(s) ensures '\n' !in x {
      var i :| 0 <= i < |ScannedLines(s)| && ScannedLines(s)[i] == x;
      assert x == DropReturn(ls[i]) && ls[i] in ls;
    }
  }

  lemma StrippedOwn(compose: string)
    ensures OwnLines(Stripped(compose))
  {
    var lines := ScannedLines(compose);
    var kept := Kept(lines, |lines|);
    ScannedOneLine(compose);
    KeptOneLine(lines, |lines|);
    KeptOwn(lines, |lines|);
    JoinedOwn(kept);
    var text := Join(kept, '\n');
    CleanOwn(text, "networks:");
    CleanOwn(EmptySections.CleanSection(text, "networks:"), "labels:");
  }

  lemma EditOwn(x: string)
    requires Compose.IsEditLine(x)
    ensures Own(x)
  {
    var n: nat :| x == Compose.LabelLine(n) || x == Compose.KeyLine(n);
    if x == Compose.LabelLine(n) {
      LabelLineText(n);
      OtherOwn(x);
    } else {
      KeyLineText(n);
      LettersOwn(x);
    }
  }

  lemma LabelLineText(n: nat)
    ensures StartsOther(TrimSpace(Compose.LabelLine(n)))
  {
    var rest := "label=disable";
    var t := "- " + ("" + rest);
    assert t == "- label=disable";
    Compose.TrimmedLine(n, t);
    assert "/$-l"[3] == 'l' && !Compose.IsQuote('l');
    ItemStartsOther("", rest);
  }

  lemma KeyLineText(n: nat)
    ensures var t := TrimSpace(Compose.KeyLine(n)); t != "" && t[0] in "sh" && t[|t| - 1] == ':'
  {
    Compose.TrimmedLine(n, "security_opt:");
    assert "sh"[0] == 's';
  }

  lemma {:induction false} AddedOwn(orig: seq<string>, out: seq<string>)
    requires Compose.OnlyAddsLabels(orig, out) && forall x | x in orig :: Own(x)
    ensures forall x | x in out :: Own(x)
    decreases |out|
  {
    hide Own;
    if out != [] {
      assert forall x | x in out :: x == out[0] || x in out[1..];
      if orig != [] && orig[0] == out[0] && Compose.OnlyAddsLabels(orig[1..], out[1..]) {
        assert orig[0] in orig && forall x | x in orig[1..] :: x in orig;
        AddedOwn(orig[1..], out[1..]);
      } else {
        EditOwn(out[0]);
        AddedOwn(orig, out[1..]);
      }
    }
  }

  /** Whatever the document, no line of the result is a label of the other store, quoted or not, or a
      reference to its network; and every service that mounts the engine's socket declares
      label=disable unless the stripped document is one of the misplaced kind. */
  lemma SanitizedClean(compose: string)
    ensures OwnLines(Sanitized(compose))
    ensures ComposeServices.Protected(Sanitized(compose)) <==> !ComposeServices.HasMisplaced(Stripped(compose))
  {
    var text := Stripped(compose);
    StrippedOwn(compose);
    Compose.InjectKeepsLines(text);
    assert forall x | x in Split(text, '\n') :: Own(x);
    AddedOwn(Split(text, '\n'), Split(Compose.Inject(text), '\n'));
    assert OwnLines(Sanitized(compose));
    ComposeServices.InjectProtects(text);
  }
}
