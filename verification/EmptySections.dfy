/** plugins/appstore/renderer.go: cleanEmptySection, which removes a section without content. */
module EmptySections {
  import opened Text

  /** Blank or a comment: nothing that could be the content of a section. */
  predicate Idle(line: string) {
    var t := TrimSpace(line);
    t == "" || HasPrefix(t, "#")
  }

  predicate Header(line: string, key: string) {
    TrimSpace(line) == key
  }

  /** The indentation of the first line with content, or -1. */
  function RealIndent(ls: seq<string>): int {
    if ls == [] then -1 else if Idle(ls[0]) then RealIndent(ls[1..]) else Indent(ls[0])
  }

  /** The document starts with a section that has nothing indented below it. */
  predicate HollowHead(ls: seq<string>, key: string)
    requires ls != []
  {
    Header(ls[0], key) && RealIndent(ls[1..]) <= Indent(ls[0])
  }

  function SkipIdle(ls: seq<string>): (r: seq<string>)
    ensures |r| <= |ls|
  {
    if ls != [] && Idle(ls[0]) then SkipIdle(ls[1..]) else ls
  }

  function Clean(ls: seq<string>, key: string): (r: seq<string>)
    decreases |ls|
  {
    if ls == [] then []
    else if HollowHead(ls, key) then Clean(SkipIdle(ls[1..]), key)
    else [ls[0]] + Clean(ls[1..], key)
  }

  function CleanSection(content: string, key: string): string {
    Join(Clean(Split(content, '\n'), key), '\n')
  }

  // ---------------------------------------------------------------------------------------------
  // Which lines go, line by line
  // ---------------------------------------------------------------------------------------------

  /** Line j is the first one with content behind line h. */
  ghost predicate NextReal(ls: seq<string>, h: nat, j: nat)
    requires h < |ls|
  {
    h < j < |ls| && !Idle(ls[j]) && forall k | h < k < j :: Idle(ls[k])
  }

  /** Line h is a section key, and what follows it is not indented deeper. */
  ghost predicate Hollow(ls: seq<string>, key: string, h: nat)
    requires h < |ls|
  {
    && Header(ls[h], key)
    && forall j: nat | NextReal(ls, h, j) :: Indent(ls[j]) <= Indent(ls[h])
  }

  /** Line i is a hollow key, or one of the blank and comment lines right behind one. */
  ghost predicate Gone(ls: seq<string>, key: string, i: nat)
    requires i < |ls|
  {
    exists h: nat :: h <= i && Hollow(ls, key, h) && forall k | h < k <= i :: Idle(ls[k])
  }

  ghost function Remaining(ls: seq<string>, key: string, i: nat): seq<string>
    requires i <= |ls|
    decreases |ls| - i
  {
    if i == |ls| then []
    else (if Gone(ls, key, i) then [] else [ls[i]]) + Remaining(ls, key, i + 1)
  }

  ghost predicate RealKey(key: string) {
    key != "" && !HasPrefix(key, "#")
  }

  lemma {:induction false} RealIndentFinds(ls: seq<string>, h: nat, m: nat)
    requires h < m <= |ls| && forall k | h < k < m :: Idle(ls[k])
    ensures if exists j: nat :: NextReal(ls, h, j)
            then exists j: nat :: NextReal(ls, h, j) && RealIndent(ls[m..]) == Indent(ls[j])
            else RealIndent(ls[m..]) == -1
    decreases |ls| - m
  {
    if m < |ls| {
      assert ls[m..][0] == ls[m] && ls[m..][1..] == ls[m + 1..];
      if Idle(ls[m]) {
        RealIndentFinds(ls, h, m + 1);
      } else {
        assert NextReal(ls, h, m);
      }
    }
  }

  lemma NextRealOnly(ls: seq<string>, h: nat, i: nat, j: nat)
    requires h < |ls| && NextReal(ls, h, i) && NextReal(ls, h, j)
    ensures i == j
  {
  }

  lemma HollowAt(ls: seq<string>, key: string, h: nat)
    requires h < |ls|
    ensures Hollow(ls, key, h) <==> HollowHead(ls[h..], key)
  {
    assert ls[h..][0] == ls[h] && ls[h..][1..] == ls[h + 1..];
    RealIndentFinds(ls, h, h + 1);
    forall i: nat, j: nat | NextReal(ls, h, i) && NextReal(ls, h, j) ensures i == j {
      NextRealOnly(ls, h, i, j);
    }
  }

  lemma SkipStep(ls: seq<string>, key: string, h: nat, m: nat)
    requires h < m < |ls| && Hollow(ls, key, h) && forall k | h < k < m :: Idle(ls[k])
    ensures Idle(ls[m]) ==>
              SkipIdle(ls[m..]) == SkipIdle(ls[m + 1..]) && Remaining(ls, key, m) == Remaining(ls, key, m + 1)
    ensures !Idle(ls[m]) ==> SkipIdle(ls[m..]) == ls[m..]
  {
    hide Idle, Hollow;
    assert ls[m..][0] == ls[m] && ls[m..][1..] == ls[m + 1..];
    assert Idle(ls[m]) ==> Gone(ls, key, m);
    assert [] + Remaining(ls, key, m + 1) == Remaining(ls, key, m + 1);
  }

  /** Past the blank and comment lines behind a hollow key. */
  lemma {:induction false} SkipsGone(ls: seq<string>, key: string, h: nat, m: nat) returns (j: nat)
    requires h < m <= |ls| && Hollow(ls, key, h) && forall k | h < k < m :: Idle(ls[k])
    ensures m <= j <= |ls| && SkipIdle(ls[m..]) == ls[j..]
    ensures Remaining(ls, key, m) == Remaining(ls, key, j)
    ensures j < |ls| ==> !Idle(ls[j])
    decreases |ls| - m
  {
    assert SkipIdle([]) == [] && ls[|ls|..] == [];
    hide *;
    if m < |ls| {
      SkipStep(ls, key, h, m);
    }
    if m < |ls| && Idle(ls[m]) {
      j := SkipsGone(ls, key, h, m + 1);
    } else {
      j := m;
    }
  }

  lemma HollowGone(ls: seq<string>, key: string, i: nat)
    requires i < |ls| && RealKey(key)
    requires !Idle(ls[i]) || !Gone(ls, key, i)
    ensures Gone(ls, key, i) <==> Hollow(ls, key, i)
    ensures i + 1 < |ls| && Idle(ls[i + 1]) && !Gone(ls, key, i) ==> !Gone(ls, key, i + 1)
  {
    if Hollow(ls, key, i) {
      assert Gone(ls, key, i);
    }
    if i + 1 < |ls| && Gone(ls, key, i + 1) && Idle(ls[i + 1]) {
      var h: nat :| h <= i + 1 && Hollow(ls, key, h) && forall k | h < k <= i + 1 :: Idle(ls[k]);
      assert h != i + 1;
      assert Gone(ls, key, i);
    }
  }

  lemma {:induction false} CleanFrom(ls: seq<string>, key: string, i: nat)
    requires i <= |ls| && RealKey(key)
    requires i < |ls| && Idle(ls[i]) ==> !Gone(ls, key, i)
    ensures Clean(ls[i..], key) == Remaining(ls, key, i)
    decreases |ls| - i
  {
    if i < |ls| {
      assert ls[i..][0] == ls[i] && ls[i..][1..] == ls[i + 1..];
      HollowAt(ls, key, i);
      HollowGone(ls, key, i);
      if Hollow(ls, key, i) {
        var j := SkipsGone(ls, key, i, i + 1);
        CleanFrom(ls, key, j);
      } else {
        CleanFrom(ls, key, i + 1);
      }
    }
  }

  /** The scan keeps, in order, exactly the lines that are neither a hollow key nor one of the blank
      and comment lines behind one. */
  lemma CleanExact(ls: seq<string>, key: string)
    requires RealKey(key)
    ensures Clean(ls, key) == Remaining(ls, key, 0)
  {
    assert ls[0..] == ls;
    CleanFrom(ls, key, 0);
  }

  // ---------------------------------------------------------------------------------------------
  // Cleaning twice
  // ---------------------------------------------------------------------------------------------

  /** The indentation of the first line with content that is not a hollow key, or -1. */
  function KeptIndent(ls: seq<string>, key: string): int {
    if ls == [] then -1
    else if Idle(ls[0]) || HollowHead(ls, key) then KeptIndent(ls[1..], key)
    else Indent(ls[0])
  }

  /** Some section has content, but only empty sections of the same name. */
  predicate OnlyHollowInside(ls: seq<string>, key: string) {
    && ls != []
    && (|| (&& Header(ls[0], key)
            && RealIndent(ls[1..]) > Indent(ls[0]) && KeptIndent(ls[1..], key) <= Indent(ls[0]))
        || OnlyHollowInside(ls[1..], key))
  }

  predicate HasHollow(ls: seq<string>, key: string) {
    ls != [] && (HollowHead(ls, key) || HasHollow(ls[1..], key))
  }

  lemma {:induction false} SkipIdleSame(ls: seq<string>, key: string)
    requires RealKey(key)
    ensures KeptIndent(SkipIdle(ls), key) == KeptIndent(ls, key)
    ensures OnlyHollowInside(SkipIdle(ls), key) == OnlyHollowInside(ls, key)
  {
    if ls != [] && Idle(ls[0]) {
      SkipIdleSame(ls[1..], key);
    }
  }

  lemma {:induction false} CleanIndent(ls: seq<string>, key: string)
    requires RealKey(key)
    ensures RealIndent(Clean(ls, key)) == KeptIndent(ls, key)
    decreases |ls|
  {
    if ls != [] {
      if HollowHead(ls, key) {
        CleanIndent(SkipIdle(ls[1..]), key);
        SkipIdleSame(ls[1..], key);
      } else {
        CleanIndent(ls[1..], key);
        assert Clean(ls, key)[1..] == Clean(ls[1..], key);
      }
    }
  }

  lemma {:induction false} CleanLeaves(ls: seq<string>, key: string)
    requires RealKey(key)
    ensures HasHollow(Clean(ls, key), key) <==> OnlyHollowInside(ls, key)
    decreases |ls|
  {
    if ls != [] {
      if HollowHead(ls, key) {
        CleanLeaves(SkipIdle(ls[1..]), key);
        SkipIdleSame(ls[1..], key);
      } else {
        CleanLeaves(ls[1..], key);
        CleanIndent(ls[1..], key);
        assert Clean(ls, key)[1..] == Clean(ls[1..], key);
      }
    }
  }

  lemma {:induction false} CleanShortens(ls: seq<string>, key: string)
    ensures |Clean(ls, key)| <= |ls|
    ensures HasHollow(ls, key) ==> |Clean(ls, key)| < |ls|
    ensures !HasHollow(ls, key) ==> Clean(ls, key) == ls
    decreases |ls|
  {
    if ls != [] {
      if HollowHead(ls, key) {
        CleanShortens(SkipIdle(ls[1..]), key);
      } else {
        CleanShortens(ls[1..], key);
        assert ls == [ls[0]] + ls[1..];
      }
    }
  }

  lemma {:induction false} CleanMembers(ls: seq<string>, key: string)
    ensures forall x | x in Clean(ls, key) :: x in ls
    decreases |ls|
  {
    if ls != [] {
      if HollowHead(ls, key) {
        SkipMembers(ls[1..]);
        CleanMembers(SkipIdle(ls[1..]), key);
      } else {
        CleanMembers(ls[1..], key);
      }
    }
  }

  lemma {:induction false} SkipMembers(ls: seq<string>)
    ensures forall x | x in SkipIdle(ls) :: x in ls
  {
    if ls != [] && Idle(ls[0]) { SkipMembers(ls[1..]); }
  }

  /** A second pass removes nothing exactly when no section consisted of empty sections only. */
  lemma CleanTwice(content: string, key: string)
    requires RealKey(key)
    ensures CleanSection(CleanSection(content, key), key) == CleanSection(content, key)
            <==> !OnlyHollowInside(Split(content, '\n'), key)
  {
    var ls := Split(content, '\n');
    var once := Clean(ls, key);
    CleanLeaves(ls, key);
    CleanShortens(once, key);
    CleanMembers(ls, key);
    if once == [] {
      BlankStays(key);
    } else {
      SplitJoin(once, '\n');
      var twice := Clean(once, key);
      CleanMembers(once, key);
      if twice != once && Join(twice, '\n') == Join(once, '\n') {
        SameText(once, twice, key);
      }
    }
  }

  lemma NestedLines(ls: seq<string>, key: string)
    requires |ls| == 2 && Header(ls[0], key) && Header(ls[1], key) && !Idle(ls[0]) && !Idle(ls[1])
    requires Indent(ls[0]) < Indent(ls[1])
    ensures Clean(ls, key) == [ls[0]] && Clean([ls[0]], key) == []
  {
    hide Header, Idle, Indent;
    assert ls[1..] == [ls[1]] && [ls[1]][1..] == [] && [ls[0]][1..] == [];
    assert HollowHead([ls[1]], key) && HollowHead([ls[0]], key);
    assert RealIndent([ls[1]]) == Indent(ls[1]);
    assert SkipIdle([]) == [] && Clean([], key) == [];
  }

  lemma NestedText(key: string, inner: string)
    requires Header(key, key) && Header(inner, key) && !Idle(key) && !Idle(inner) && Indent(key) < Indent(inner)
    requires '\n' !in key && '\n' !in inner
    ensures CleanSection(key + ['\n'] + inner, key) == key && CleanSection(key, key) == ""
  {
    var ls := [key, inner];
    SplitAtSep(key, inner, '\n');
    SplitNoSep(inner, '\n');
    SplitNoSep(key, '\n');
    NestedLines(ls, key);
    hide Header, Idle, Indent, Clean, Split;
    assert [key] + [inner] == ls;
  }

  /** A section that holds only an empty section of its name: the first pass leaves it, the second does not. */
  lemma NestedNeedsTwo()
    ensures var c := "networks:" + ['\n'] + "  networks:";
            CleanSection(c, "networks:") == "networks:" && CleanSection(CleanSection(c, "networks:"), "networks:") == ""
  {
    NetworkLines();
    hide TrimSpace, Indent, CleanSection, Idle;
    NestedText("networks:", "  networks:");
  }

  lemma NetworkLines()
    ensures var key, inner := "networks:", "  networks:";
            && TrimSpace(key) == key && TrimSpace(inner) == key && Indent(key) == 0 && Indent(inner) == 2
            && !Idle(key) && !Idle(inner)
  {
    var key, inner := "networks:", "  networks:";
    assert Repeat(' ', 2) == "  " && inner == Repeat(' ', 2) + key;
    TrimLeftBlanks(2, key);
    assert key[|key| - 1] == ':' && TrimRight(key) == key && TrimLeft(key) == key;
    assert key[0] == 'n' && "#"[0] == '#';
  }

  lemma BlankStays(key: string)
    requires RealKey(key)
    ensures Clean(Split("", '\n'), key) == [""]
  {
    assert [""][1..] == [];
  }

  lemma SameText(once: seq<string>, twice: seq<string>, key: string)
    requires RealKey(key) && once != [] && twice == Clean(once, key)
    requires forall x | x in once + twice :: '\n' !in x
    requires Join(twice, '\n') == Join(once, '\n')
    ensures twice == once
  {
    assert forall x | x in once :: x in once + twice;
    assert forall x | x in twice :: x in once + twice;
    SplitJoin(once, '\n');
    if twice != [] {
      SplitJoin(twice, '\n');
    } else {
      assert once == [""];
      BlankStays(key);
    }
  }

  // ---------------------------------------------------------------------------------------------
  // The two loops
  // ---------------------------------------------------------------------------------------------

  /** Looks for content below the key at line i; j is where the search stopped. */
  method FindContent(lines: seq<string>, i: nat) returns (hasContent: bool, j: nat)
    requires i < |lines|
    ensures hasContent <==> RealIndent(lines[i + 1..]) > Indent(lines[i])
    ensures i < j <= |lines| && lines[j..] == SkipIdle(lines[i + 1..])
  {
    var indent := Indent(lines[i]);
    j := i + 1;
    hasContent := false;
    while j < |lines|
      invariant i < j <= |lines| && !hasContent
      invariant RealIndent(lines[i + 1..]) == RealIndent(lines[j..])
      invariant SkipIdle(lines[i + 1..]) == SkipIdle(lines[j..])
    {
      assert lines[j..][0] == lines[j] && lines[j..][1..] == lines[j + 1..];
      if Idle(lines[j]) {
        j := j + 1;
        continue;
      }
      if Indent(lines[j]) > indent {
        hasContent := true;
      }
      break;
    }
  }

  method CleanEmptySection(content: string, sectionKey: string) returns (r: string)
    ensures r == CleanSection(content, sectionKey)
  {
    hide RealIndent, SkipIdle, Header, Join, Split;
    var lines := Split(content, '\n');
    var out: seq<string> := [];
    var i := 0;
    assert lines[0..] == lines;
    while i < |lines|
      invariant 0 <= i <= |lines|
      invariant out + Clean(lines[i..], sectionKey) == Clean(lines, sectionKey)
    {
      ghost var rest := lines[i..];
      assert rest[0] == lines[i] && rest[1..] == lines[i + 1..];
      if Header(lines[i], sectionKey) {
        var hasContent, j := FindContent(lines, i);
        if !hasContent {
          i := j;
          continue;
        }
      }
      out := out + [lines[i]];
      i := i + 1;
    }
    assert lines[i..] == [] && out + [] == out;
    r := Join(out, '\n');
  }
}
