/** internal/plugin/coreapi.go: escaping a string for a SQL literal, and scanning past literals. */
module SqlLiteral {
  import opened Optional

  // ---------------------------------------------------------------------------------------------
  // The scanner
  // ---------------------------------------------------------------------------------------------

  /** Outside a literal, inside one, or inside one right after a backslash. */
  datatype Mode = Outside | Inside | Escaped

  function Next(m: Mode, c: char): Mode {
    match m
    case Outside => if c == '\'' then Inside else Outside
    case Inside => if c == '\'' then Outside else if c == '\\' then Escaped else Inside
    case Escaped => Inside
  }

  /** The mode after the text. */
  function After(m: Mode, s: string): Mode
    decreases |s|
  {
    if s == "" then m else After(Next(m, s[0]), s[1..])
  }

  /** The text has a semicolon outside literals. */
  predicate Finds(m: Mode, s: string)
    decreases |s|
  {
    s != "" && ((m == Outside && s[0] == ';') || Finds(Next(m, s[0]), s[1..]))
  }

  lemma {:induction false} Concat(m: Mode, a: string, b: string)
    ensures After(m, a + b) == After(After(m, a), b)
    ensures Finds(m, a + b) <==> Finds(m, a) || Finds(After(m, a), b)
    decreases |a|
  {
    if a == "" {
      assert a + b == b;
    } else {
      assert (a + b)[1..] == a[1..] + b;
      Concat(Next(m, a[0]), a[1..], b);
    }
  }

  lemma Step(m: Mode, c: char, s: string)
    ensures After(m, [c] + s) == After(Next(m, c), s)
    ensures Finds(m, [c] + s) <==> (m == Outside && c == ';') || Finds(Next(m, c), s)
  {
    assert ([c] + s)[1..] == s;
  }

  lemma Unread(s: string, i: nat)
    requires i < |s|
    ensures s[i..] == [s[i]] + s[i + 1..]
  {
  }

  /** The lookahead for doubled quotes finds what a scanner without lookahead finds. */
  method ContainsUnquotedSemicolon(s: string) returns (found: bool)
    ensures found <==> Finds(Outside, s)
  {
    hide Finds, After;
    var inQuote := false;
    var i := 0;
    assert s[0..] == s;
    while i < |s|
      invariant 0 <= i <= |s|
      invariant Finds(Outside, s) <==> Finds(if inQuote then Inside else Outside, s[i..])
    {
      var ch := s[i];
      Unread(s, i);
      Step(if inQuote then Inside else Outside, ch, s[i + 1..]);
      if i + 1 < |s| {
        Unread(s, i + 1);
        Step(Next(if inQuote then Inside else Outside, ch), s[i + 1], s[i + 2..]);
      } else {
        NothingLeft(s[i + 1..]);
      }
      if ch == '\'' {
        if inQuote && i + 1 < |s| && s[i + 1] == '\'' {
          i := i + 2;
        } else {
          inQuote := !inQuote;
          i := i + 1;
        }
      } else if ch == '\\' && inQuote {
        if i + 1 == |s| {
          return false;
        }
        i := i + 2;
      } else if ch == ';' && !inQuote {
        return true;
      } else {
        i := i + 1;
      }
    }
    NothingLeft(s[i..]);
    return false;
  }

  lemma NothingLeft(s: string)
    requires s == ""
    ensures forall m :: !Finds(m, s)
  {
  }

  // ---------------------------------------------------------------------------------------------
  // Escaping
  // ---------------------------------------------------------------------------------------------

  /** strings.ReplaceAll of one character. */
  function ReplaceAll(s: string, c: char, sub: string): string {
    if s == "" then "" else (if s[0] == c then sub else [s[0]]) + ReplaceAll(s[1..], c, sub)
  }

  /** dbEscapeString: backslashes first, then quotes. */
  function EscapeString(s: string): string {
    ReplaceAll(ReplaceAll(s, '\\', "\\\\"), '\'', "''")
  }

  function Piece(c: char): string { if c == '\\' then "\\\\" else if c == '\'' then "''" else [c] }

  /** Both at once. */
  function Escape(s: string): string {
    if s == "" then "" else Piece(s[0]) + Escape(s[1..])
  }

  lemma {:induction false} ReplaceConcat(a: string, b: string, c: char, sub: string)
    ensures ReplaceAll(a + b, c, sub) == ReplaceAll(a, c, sub) + ReplaceAll(b, c, sub)
  {
    if a == "" {
      assert a + b == b;
    } else {
      assert (a + b)[1..] == a[1..] + b;
      ReplaceConcat(a[1..], b, c, sub);
      var x := if a[0] == c then sub else [a[0]];
      assert x + (ReplaceAll(a[1..], c, sub) + ReplaceAll(b, c, sub)) ==
             x + ReplaceAll(a[1..], c, sub) + ReplaceAll(b, c, sub);
    }
  }

  /** The two passes do not disturb each other. */
  lemma {:induction false} TwoPasses(s: string)
    ensures EscapeString(s) == Escape(s)
  {
    if s != "" {
      TwoPasses(s[1..]);
      var x := if s[0] == '\\' then "\\\\" else [s[0]];
      ReplaceConcat(x, ReplaceAll(s[1..], '\\', "\\\\"), '\'', "''");
      assert [s[0]][1..] == "" && "\\\\"[1..] == "\\" && "\\"[1..] == "";
      assert ReplaceAll("\\", '\'', "''") == "\\";
      assert ReplaceAll("\\\\", '\'', "''") == "\\\\";
      assert ReplaceAll([s[0]], '\'', "''") == if s[0] == '\'' then "''" else [s[0]];
    }
  }

  /** An escaped string stays inside the literal. */
  lemma {:induction false} EscapedStaysInside(s: string)
    ensures After(Inside, Escape(s)) == Inside && !Finds(Inside, Escape(s))
  {
    if s != "" {
      EscapedStaysInside(s[1..]);
      var x := Piece(s[0]);
      Concat(Inside, x, Escape(s[1..]));
      Pair(x);
    }
  }

  lemma Pair(x: string)
    requires x == "\\\\" || x == "''" || (|x| == 1 && x[0] != '\\' && x[0] != '\'')
    ensures After(Inside, x) == Inside && !Finds(Inside, x)
  {
    if |x| == 2 {
      assert x == [x[0]] + [x[1]] && [x[1]] == [x[1]] + "";
      Step(Inside, x[0], [x[1]]);
      Step(Next(Inside, x[0]), x[1], "");
    } else {
      assert x == [x[0]] + "";
      Step(Inside, x[0], "");
    }
  }

  function Literal(s: string): string { "'" + EscapeString(s) + "'" }

  /** From outside, and from the middle of an escape, a literal is read as one piece without a semicolon. */
  lemma LiteralRead(m: Mode, s: string)
    requires m != Inside
    ensures After(m, Literal(s)) == Outside && !Finds(m, Literal(s))
  {
    TwoPasses(s);
    EscapedStaysInside(s);
    Concat(m, "'" + Escape(s), "'");
    Concat(m, "'", Escape(s));
    assert "'" == ['\''] + "";
    Step(m, '\'', "");
    Step(Inside, '\'', "");
  }

  /** The check on a query with an embedded literal does not depend on the string in it. */
  lemma CheckIgnoresLiteral(pre: string, s: string, post: string)
    requires After(Outside, pre) != Inside
    ensures Finds(Outside, pre + Literal(s) + post) <==> Finds(Outside, pre) || Finds(Outside, post)
  {
    Concat(Outside, pre + Literal(s), post);
    Concat(Outside, pre, Literal(s));
    LiteralRead(After(Outside, pre), s);
  }

  /** Read from outside, an escaped string shows its semicolons and ends outside again. */
  lemma {:induction false} EscapedOutside(s: string)
    ensures After(Outside, Escape(s)) == Outside && (Finds(Outside, Escape(s)) <==> ';' in s)
  {
    if s != "" {
      EscapedOutside(s[1..]);
      PieceOutside(s[0], Escape(s[1..]));
      assert s == [s[0]] + s[1..];
    }
  }

  lemma PieceOutside(c: char, t: string)
    ensures After(Outside, Piece(c) + t) == After(Outside, t)
    ensures Finds(Outside, Piece(c) + t) <==> c == ';' || Finds(Outside, t)
  {
    if c == '\'' {
      assert "''" + t == ['\''] + (['\''] + t);
      Step(Outside, '\'', ['\''] + t);
      Step(Inside, '\'', t);
    } else if c == '\\' {
      assert "\\\\" + t == ['\\'] + (['\\'] + t);
      Step(Outside, '\\', ['\\'] + t);
      Step(Outside, '\\', t);
    } else {
      Step(Outside, c, t);
    }
  }

  /** Behind a text that ends within another literal the quotes are misread: the check sees the string. */
  lemma CheckSees(pre: string, s: string, post: string)
    requires After(Outside, pre) == Inside
    ensures Finds(Outside, pre + Literal(s) + post) <==> Finds(Outside, pre) || ';' in s || Finds(Inside, post)
  {
    Concat(Outside, pre + Literal(s), post);
    Concat(Outside, pre, Literal(s));
    TwoPasses(s);
    EscapedOutside(s);
    Concat(Inside, "'" + Escape(s), "'");
    Concat(Inside, "'", Escape(s));
    assert "'" == ['\''] + "";
    Step(Inside, '\'', "");
    Step(Outside, '\'', "");
  }

  /** The check does not depend on the string exactly when the text before the literal is rejected already
      or does not end within another literal, or the text after it is rejected when read from inside one. */
  lemma CheckIgnoresIff(pre: string, post: string)
    ensures (forall s, t :: Finds(Outside, pre + Literal(s) + post) <==> Finds(Outside, pre + Literal(t) + post)) <==>
              Finds(Outside, pre) || After(Outside, pre) != Inside || Finds(Inside, post)
  {
    if After(Outside, pre) == Inside {
      forall s
        ensures Finds(Outside, pre + Literal(s) + post) <==> Finds(Outside, pre) || ';' in s || Finds(Inside, post)
      {
        CheckSees(pre, s, post);
      }
      assert ';' in ";" && ';' !in "";
      assert (Finds(Outside, pre + Literal("") + post) <==> Finds(Outside, pre + Literal(";") + post)) <==>
               Finds(Outside, pre) || Finds(Inside, post);
    } else {
      forall s ensures Finds(Outside, pre + Literal(s) + post) <==> Finds(Outside, pre) || Finds(Outside, post) {
        CheckIgnoresLiteral(pre, s, post);
      }
    }
  }

  // ---------------------------------------------------------------------------------------------
  // Reading a literal back
  // ---------------------------------------------------------------------------------------------

  datatype Reading = Reading(content: string, rest: string)

  function Prepend(c: char, r: Option<Reading>): Option<Reading> {
    if r.None? then None else Some(Reading([c] + r.value.content, r.value.rest))
  }

  /** What stands between the quotes, and what follows them; with `backslash`, a backslash escapes. */
  function ReadRest(t: string, backslash: bool): Option<Reading>
    decreases |t|
  {
    if t == "" then None
    else if backslash && t[0] == '\\' then if |t| == 1 then None else Prepend(t[1], ReadRest(t[2..], backslash))
    else if t[0] == '\'' then
      if |t| > 1 && t[1] == '\'' then Prepend('\'', ReadRest(t[2..], backslash)) else Some(Reading("", t[1..]))
    else Prepend(t[0], ReadRest(t[1..], backslash))
  }

  function Doubled(s: string): string { ReplaceAll(s, '\\', "\\\\") }

  /** How one escaped character reads. */
  lemma ReadPieces(c: char, t: string, backslash: bool)
    ensures backslash ==> ReadRest(['\\', c] + t, backslash) == Prepend(c, ReadRest(t, backslash))
    ensures ReadRest("''" + t, backslash) == Prepend('\'', ReadRest(t, backslash))
    ensures c != '\'' && !(backslash && c == '\\') ==>
              ReadRest([c] + t, backslash) == Prepend(c, ReadRest(t, backslash))
  {
    assert (['\\', c] + t)[2..] == t && ("''" + t)[2..] == t && ([c] + t)[1..] == t;
  }

  lemma ReadEnd(post: string, backslash: bool)
    requires post == "" || post[0] != '\''
    ensures ReadRest("'" + post, backslash) == Some(Reading("", post))
  {
    assert ("'" + post)[1..] == post;
  }

  /** The text of a literal with its first character apart. */
  lemma FirstPiece(s: string, post: string)
    requires s != ""
    ensures Escape(s) + "'" + post == Piece(s[0]) + (Escape(s[1..]) + "'" + post)
  {
  }

  lemma PieceReads(c: char, t: string)
    ensures ReadRest(Piece(c) + t, true) == Prepend(c, ReadRest(t, true))
    ensures ReadRest(Piece(c) + t, false) ==
            if c == '\\' then Prepend(c, Prepend(c, ReadRest(t, false))) else Prepend(c, ReadRest(t, false))
  {
    ReadPieces(c, t, true);
    ReadPieces(c, t, false);
    ReadPieces('\\', "\\" + t, false);
    ReadPieces('\\', t, false);
    assert "\\\\" + t == ['\\', '\\'] + t == "\\" + ("\\" + t);
  }

  lemma PrependFirst(s: string, post: string)
    requires s != ""
    ensures Prepend(s[0], Some(Reading(s[1..], post))) == Some(Reading(s, post))
  {
    assert s == [s[0]] + s[1..];
  }

  /** A MySQL literal made by EscapeString reads back as the original. */
  lemma {:induction false} ReadsBack(s: string, post: string)
    requires post == "" || post[0] != '\''
    ensures ReadRest(Escape(s) + "'" + post, true) == Some(Reading(s, post))
  {
    if s == "" {
      assert Escape(s) + "'" + post == "'" + post;
      ReadEnd(post, true);
    } else {
      ReadsBack(s[1..], post);
      FirstPiece(s, post);
      PieceReads(s[0], Escape(s[1..]) + "'" + post);
      PrependFirst(s, post);
    }
  }

  /** Only what follows can spoil it: a quote right after the literal. */
  lemma ReadsBackIff(s: string, post: string)
    ensures ReadRest(EscapeString(s) + "'" + post, true) == Some(Reading(s, post)) <==> post == "" || post[0] != '\''
  {
    TwoPasses(s);
    if post == "" || post[0] != '\'' {
      ReadsBack(s, post);
    } else {
      RunsOn(s, post);
    }
  }

  /** With a quote after it the literal goes on. */
  lemma {:induction false} RunsOn(s: string, post: string)
    requires post != "" && post[0] == '\''
    ensures var r := ReadRest(Escape(s) + "'" + post, true); r.Some? ==> |r.value.content| > |s|
  {
    if s == "" {
      assert Escape(s) + "'" + post == "''" + post[1..];
      ReadPieces('\'', post[1..], true);
    } else {
      RunsOn(s[1..], post);
      FirstPiece(s, post);
      PieceReads(s[0], Escape(s[1..]) + "'" + post);
    }
  }

  lemma DoubledFirst(s: string, post: string)
    requires s != ""
    ensures var r := Some(Reading(Doubled(s[1..]), post));
            Some(Reading(Doubled(s), post)) ==
            if s[0] == '\\' then Prepend(s[0], Prepend(s[0], r)) else Prepend(s[0], r)
  {
    assert "\\\\" + Doubled(s[1..]) == ['\\'] + (['\\'] + Doubled(s[1..]));
  }

  /** Where a backslash is an ordinary character, as in a PostgreSQL string constant, it reads back doubled. */
  lemma {:induction false} StandardReading(s: string, post: string)
    requires post == "" || post[0] != '\''
    ensures ReadRest(Escape(s) + "'" + post, false) == Some(Reading(Doubled(s), post))
  {
    if s == "" {
      assert Escape(s) + "'" + post == "'" + post;
      ReadEnd(post, false);
    } else {
      StandardReading(s[1..], post);
      FirstPiece(s, post);
      PieceReads(s[0], Escape(s[1..]) + "'" + post);
      DoubledFirst(s, post);
    }
  }

  lemma {:induction false} DoubledSize(s: string)
    ensures |Doubled(s)| >= |s| && (Doubled(s) == s <==> '\\' !in s)
  {
    if s != "" {
      DoubledSize(s[1..]);
      assert s == [s[0]] + s[1..];
      assert '\\' in s <==> s[0] == '\\' || '\\' in s[1..];
      if s[0] != '\\' && Doubled(s) == s {
        assert Doubled(s)[1..] == Doubled(s[1..]);
      }
    }
  }

  /** There the literal stands for the original exactly when that has no backslash. */
  lemma StandardReadsBackIff(s: string, post: string)
    requires post == "" || post[0] != '\''
    ensures ReadRest(EscapeString(s) + "'" + post, false) == Some(Reading(s, post)) <==> '\\' !in s
  {
    TwoPasses(s);
    StandardReading(s, post);
    DoubledSize(s);
  }

  /** A single backslash comes back as two. */
  lemma BackslashDoubles()
    ensures ReadRest(EscapeString("\\") + "'", false) == Some(Reading("\\\\", ""))
  {
    var s := "\\";
    TwoPasses(s);
    StandardReading(s, "");
    assert s[1..] == "" && Doubled("") == "";
    assert Doubled(s) == "\\\\" + "" == "\\\\";
    hide Escape, EscapeString, ReadRest, Doubled;
    assert Escape(s) + "'" + "" == EscapeString(s) + "'";
  }
}
