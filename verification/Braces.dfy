/** How the Caddyfile validators see braces: line by line, comment lines not counted. */
module Braces {
  import opened Text

  // ---------------------------------------------------------------------------------------------
  // The scanner, character by character
  // ---------------------------------------------------------------------------------------------

  /** Whether the line has shown nothing but space so far, or code, or is a comment. */
  datatype Mode = Start | Code | Comment

  datatype State = State(depth: int, mode: Mode)

  const BEGIN := State(0, Start)

  function Delta(c: char): int {
    if c == '{' then 1 else if c == '}' then -1 else 0
  }

  function Step(s: State, c: char): State {
    if c == '\n' then State(s.depth, Start)
    else match s.mode
      case Comment => s
      case Start =>
        if IsSpace(c) then s
        else if c == '#' then State(s.depth, Comment)
        else State(s.depth + Delta(c), Code)
      case Code => State(s.depth + Delta(c), Code)
  }

  function Run(s: State, text: string): State
    decreases |text|
  {
    if text == "" then s else Run(Step(s, text[0]), text[1..])
  }

  /** The depth is at least `m` before, after and everywhere within the text. */
  ghost predicate Stays(s: State, text: string, m: int)
    decreases |text|
  {
    s.depth >= m && (text != "" ==> Stays(Step(s, text[0]), text[1..], m))
  }

  lemma {:induction false} StaysMeans(s: State, text: string, m: int)
    ensures Stays(s, text, m) <==> forall i | 0 <= i <= |text| :: Run(s, text[..i]).depth >= m
    decreases |text|
  {
    if text == "" {
      assert text[..0] == "";
    } else {
      var next := Step(s, text[0]);
      StaysMeans(next, text[1..], m);
      assert Run(s, text[..0]) == s;
      forall i | 0 <= i < |text| ensures Run(s, text[..i + 1]) == Run(next, text[1..][..i]) {
        assert text[..i + 1][1..] == text[1..][..i];
      }
      if forall i | 0 <= i <= |text| :: Run(s, text[..i]).depth >= m {
        forall i | 0 <= i <= |text[1..]| ensures Run(next, text[1..][..i]).depth >= m {
          assert Run(s, text[..i + 1]).depth >= m;
        }
      }
      if Stays(s, text, m) {
        forall i | 0 <= i <= |text| ensures Run(s, text[..i]).depth >= m {
          if i > 0 { assert Run(s, text[..(i - 1) + 1]) == Run(next, text[1..][..i - 1]); }
        }
      }
    }
  }

  lemma {:induction false} Append(s: State, a: string, b: string, m: int)
    ensures Run(s, a + b) == Run(Run(s, a), b)
    ensures Stays(s, a + b, m) <==> Stays(s, a, m) && Stays(Run(s, a), b, m)
    decreases |a|
  {
    if a == "" {
      assert a + b == b;
      assert Stays(s, b, m) ==> s.depth >= m;
    } else {
      assert (a + b)[1..] == a[1..] + b;
      Append(Step(s, a[0]), a[1..], b, m);
    }
  }

  lemma {:induction false} Shift(s: State, text: string, k: int, m: int)
    ensures Run(State(s.depth + k, s.mode), text) == State(Run(s, text).depth + k, Run(s, text).mode)
    ensures Stays(State(s.depth + k, s.mode), text, m + k) <==> Stays(s, text, m)
    decreases |text|
  {
    if text != "" {
      assert Step(State(s.depth + k, s.mode), text[0]) == State(Step(s, text[0]).depth + k, Step(s, text[0]).mode);
      Shift(Step(s, text[0]), text[1..], k, m);
    }
  }

  // ---------------------------------------------------------------------------------------------
  // Pieces of a file
  // ---------------------------------------------------------------------------------------------

  /** Whole lines that open `k` blocks on balance and never close one that they did not open. */
  ghost predicate Opens(text: string, k: int) {
    Run(BEGIN, text) == State(k, Start) && Stays(BEGIN, text, 0)
  }

  ghost predicate Neutral(text: string) {
    Opens(text, 0)
  }

  /** No braces and no line break. */
  predicate Plain(v: string) {
    forall i | 0 <= i < |v| :: v[i] != '\n' && v[i] != '{' && v[i] != '}'
  }

  lemma PlainMembers(v: string)
    ensures Plain(v) <==> '\n' !in v && '{' !in v && '}' !in v
  {
    if !Plain(v) {
      var i :| 0 <= i < |v| && (v[i] == '\n' || v[i] == '{' || v[i] == '}');
      assert v[i] in v;
    }
  }

  lemma PlainConcat(a: string, b: string)
    ensures Plain(a + b) <==> Plain(a) && Plain(b)
  {
    assert forall i | 0 <= i < |a| :: (a + b)[i] == a[i];
    assert forall i | 0 <= i < |b| :: (a + b)[|a| + i] == b[i];
  }

  lemma OpensAt(text: string, d: int, k: int)
    requires Opens(text, k)
    ensures Run(State(d, Start), text) == State(d + k, Start) && Stays(State(d, Start), text, d)
  {
    Shift(BEGIN, text, d, 0);
  }

  lemma OpensConcat(a: string, b: string, j: int, k: int)
    requires Opens(a, j) && Run(State(j, Start), b) == State(k, Start) && Stays(State(j, Start), b, 0)
    ensures Opens(a + b, k)
  {
    Append(BEGIN, a, b, 0);
  }

  lemma {:induction false} PlainRun(s: State, v: string)
    requires Plain(v)
    ensures Run(s, v).depth == s.depth && Stays(s, v, s.depth)
    ensures s.mode == Code ==> Run(s, v).mode == Code
    ensures s.mode == Comment ==> Run(s, v).mode == Comment
    decreases |v|
  {
    if v != "" {
      assert v[0] in v && forall c | c in v[1..] :: c in v;
      PlainRun(Step(s, v[0]), v[1..]);
    }
  }

  /** The line is not a comment, whatever follows `head` on it. */
  predicate Heads(head: string) {
    var t := TrimLeft(head);
    t == "" || t[0] != '#'
  }

  lemma {:induction false} HeadRun(d: int, head: string)
    requires Plain(head) && Heads(head)
    ensures Run(State(d, Start), head).depth == d && Run(State(d, Start), head).mode != Comment
    ensures Stays(State(d, Start), head, d)
  {
    if head != "" {
      assert head[0] in head && forall c | c in head[1..] :: c in head;
      if IsSpace(head[0]) {
        HeadRun(d, head[1..]);
      } else {
        PlainRun(State(d, Code), head[1..]);
      }
    }
  }

  /** "v\n" */
  lemma PlainLine(d: int, v: string)
    requires Plain(v)
    ensures Run(State(d, Start), v + "\n") == State(d, Start) && Stays(State(d, Start), v + "\n", d)
  {
    PlainRun(State(d, Start), v);
    Append(State(d, Start), v, "\n", d);
    OneStep(Run(State(d, Start), v), '\n', d);
  }

  lemma OneStep(s: State, c: char, m: int)
    ensures Run(s, [c]) == Step(s, c)
    ensures Stays(s, [c], m) <==> s.depth >= m && Step(s, c).depth >= m
  {
    assert [c][1..] == "";
  }

  /** "head {name} tail\n", with a Caddy placeholder. */
  lemma PlaceholderLine(d: int, head: string, name: string, tail: string)
    requires Plain(head) && Plain(name) && Plain(tail)
    ensures
      var line := head + "{" + name + "}" + tail + "\n";
      Run(State(d, Start), line) == State(d, Start) && Stays(State(d, Start), line, d)
  {
    var s0 := State(d, Start);
    PlainRun(s0, head);
    var s1 := Run(s0, head);
    OneStep(s1, '{', d);
    var s2 := Step(s1, '{');
    PlainRun(s2, name);
    var s3 := Run(s2, name);
    OneStep(s3, '}', d);
    var s4 := Step(s3, '}');
    PlainRun(s4, tail);
    StaysLower(s2, name, s2.depth, d);
    Append(s0, head, "{", d);
    Append(s0, head + "{", name, d);
    Append(s0, head + "{" + name, "}", d);
    Append(s0, head + "{" + name + "}", tail, d);
    Append(s0, head + "{" + name + "}" + tail, "\n", d);
    OneStep(Run(s4, tail), '\n', d);
  }

  lemma {:induction false} StaysLower(s: State, text: string, m: int, n: int)
    requires Stays(s, text, m) && n <= m
    ensures Stays(s, text, n)
    decreases |text|
  {
    if text != "" { StaysLower(Step(s, text[0]), text[1..], m, n); }
  }

  /** "head {\n" */
  lemma OpenLine(d: int, head: string)
    requires Plain(head) && Heads(head)
    ensures Run(State(d, Start), head + "{\n") == State(d + 1, Start) && Stays(State(d, Start), head + "{\n", d)
  {
    HeadRun(d, head);
    var s1 := Run(State(d, Start), head);
    OneStep(s1, '{', d);
    Append(State(d, Start), head, "{", d);
    Append(State(d, Start), head + "{", "\n", d);
    OneStep(Step(s1, '{'), '\n', d);
    assert head + "{\n" == head + "{" + "\n";
  }

  /** "tabs }\n" */
  lemma CloseLine(d: int, tabs: string)
    requires Plain(tabs) && Heads(tabs)
    ensures Run(State(d, Start), tabs + "}\n") == State(d - 1, Start) && Stays(State(d, Start), tabs + "}\n", d - 1)
  {
    HeadRun(d, tabs);
    var s1 := Run(State(d, Start), tabs);
    StaysLower(State(d, Start), tabs, d, d - 1);
    OneStep(s1, '}', d - 1);
    Append(State(d, Start), tabs, "}", d - 1);
    Append(State(d, Start), tabs + "}", "\n", d - 1);
    OneStep(Step(s1, '}'), '\n', d - 1);
    assert tabs + "}\n" == tabs + "}" + "\n";
  }

  // ---------------------------------------------------------------------------------------------
  // Surrounding space does not count
  // ---------------------------------------------------------------------------------------------

  lemma {:induction false} BlankRun(s: State, v: string)
    requires Blank(v)
    ensures Run(s, v).depth == s.depth && Stays(s, v, s.depth)
    ensures s.mode == Start || '\n' !in v ==> Run(s, v) == s
    decreases |v|
  {
    if v != "" {
      assert v[0] in v && IsSpace(v[0]) && forall c | c in v[1..] :: c in v;
      BlankRun(Step(s, v[0]), v[1..]);
    }
  }

  /** Trimming a text or a line does not change what the scanner makes of it. */
  lemma TrimRun(d: int, s: string, m: int)
    requires m <= d
    ensures Run(State(d, Start), s + "\n") == State(Run(State(d, Start), TrimSpace(s)).depth, Start)
    ensures Stays(State(d, Start), s + "\n", m) <==> Stays(State(d, Start), TrimSpace(s), m)
  {
    var s0, t := State(d, Start), TrimSpace(s);
    var l, r := TrimParts(s);
    BlankRun(s0, l);
    StaysLower(s0, l, d, m);
    var s1 := Run(s0, t);
    BlankRun(s1, r);
    Append(s0, l, t, m);
    Append(s0, l + t, r, m);
    Append(s0, s, "\n", m);
    OneStep(Run(s1, r), '\n', m);
    if Stays(s0, t, m) {
      StaysEnd(s0, t, m);
      StaysLower(s1, r, s1.depth, m);
    }
  }

  lemma {:induction false} StaysEnd(s: State, text: string, m: int)
    requires Stays(s, text, m)
    ensures Run(s, text).depth >= m
    decreases |text|
  {
    if text != "" { StaysEnd(Step(s, text[0]), text[1..], m); }
  }

  lemma TrimNeutral(s: string)
    ensures Neutral(s + "\n") <==> Neutral(TrimSpace(s) + "\n")
  {
    TrimRun(0, s, 0);
    var t := TrimSpace(s);
    Append(BEGIN, t, "\n", 0);
    OneStep(Run(BEGIN, t), '\n', 0);
    if Stays(BEGIN, t, 0) { StaysEnd(BEGIN, t, 0); }
  }

  // ---------------------------------------------------------------------------------------------
  // Lines
  // ---------------------------------------------------------------------------------------------

  /** The lines with a line break after each. */
  function Unlines(lines: seq<string>): string {
    if lines == [] then "" else lines[0] + "\n" + Unlines(lines[1..])
  }

  lemma UnlinesCons(x: string, xs: seq<string>)
    ensures Unlines([x] + xs) == x + "\n" + Unlines(xs)
  {
    assert ([x] + xs)[1..] == xs;
  }

  lemma {:induction false} UnlinesSplit(s: string)
    ensures Unlines(Split(s, '\n')) == s + "\n"
  {
    if s == "" {
      UnlinesCons("", []);
      assert Split(s, '\n') == [""] + [];
    } else {
      var rest := Split(s[1..], '\n');
      UnlinesSplit(s[1..]);
      hide Unlines;
      assert s == [s[0]] + s[1..];
      if s[0] == '\n' {
        UnlinesCons("", rest);
      } else {
        assert rest == [rest[0]] + rest[1..];
        UnlinesCons(rest[0], rest[1..]);
        UnlinesCons([s[0]] + rest[0], rest[1..]);
        assert s[1..] + "\n" == rest[0] + "\n" + Unlines(rest[1..]);
        assert [s[0]] + (rest[0] + "\n" + Unlines(rest[1..])) == [s[0]] + rest[0] + "\n" + Unlines(rest[1..]);
        assert s + "\n" == [s[0]] + (s[1..] + "\n");
      }
    }
  }

  lemma {:induction false} UnlinesAppend(lines: seq<string>, line: string)
    ensures Unlines(lines + [line]) == Unlines(lines) + line + "\n"
  {
    if lines == [] {
      assert ([line])[1..] == [];
    } else {
      assert (lines + [line])[1..] == lines[1..] + [line];
      UnlinesAppend(lines[1..], line);
    }
  }

  /** A line that the validators pass over. */
  predicate Skipped(line: string) {
    var t := TrimSpace(line);
    t == "" || t[0] == '#'
  }

  lemma SkippedRun(d: int, line: string)
    requires Skipped(line) && '\n' !in line
    ensures Run(State(d, Start), line + "\n") == State(d, Start) && Stays(State(d, Start), line + "\n", d)
  {
    TrimRun(d, line, d);
    var t := TrimSpace(line);
    if t != "" {
      var l, r := TrimParts(line);
      assert forall c | c in t :: c in line;
      CommentRun(State(d, Comment), t[1..]);
    }
  }

  lemma {:induction false} CommentRun(s: State, v: string)
    requires s.mode == Comment && '\n' !in v
    ensures Run(s, v) == s && Stays(s, v, s.depth)
    decreases |v|
  {
    if v != "" {
      assert v[0] in v && forall c | c in v[1..] :: c in v;
      CommentRun(s, v[1..]);
    }
  }
}
