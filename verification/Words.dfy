/** Go's strings.Fields: the words of a text. */
module Words {
  import opened Text

  function FieldsFrom(word: string, s: string): seq<string>
    decreases |s|
  {
    if s == "" then if word == "" then [] else [word]
    else if IsSpace(s[0]) then (if word == "" then [] else [word]) + FieldsFrom("", s[1..])
    else FieldsFrom(word + [s[0]], s[1..])
  }

  function Fields(s: string): seq<string> { FieldsFrom("", s) }

  predicate Solid(w: string) {
    forall i | 0 <= i < |w| :: !IsSpace(w[i])
  }

  /** Nothing, or space next to the word. */
  predicate EndsSpace(a: string) { a == "" || IsSpace(a[|a| - 1]) }

  predicate StartsSpace(b: string) { b == "" || IsSpace(b[0]) }

  lemma {:induction false} FieldsWord(word: string, w: string, b: string)
    requires Solid(w) && word + w != "" && StartsSpace(b)
    ensures word + w in FieldsFrom(word, w + b)
    decreases |w|
  {
    if w == "" {
      assert w + b == b && word + w == word;
    } else {
      assert (w + b)[1..] == w[1..] + b;
      assert (word + [w[0]]) + w[1..] == word + w;
      FieldsWord(word + [w[0]], w[1..], b);
    }
  }

  lemma {:induction false} FieldsSkip(word: string, a: string, rest: string, w: string)
    requires a != "" && EndsSpace(a) && w in FieldsFrom("", rest)
    ensures w in FieldsFrom(word, a + rest)
    decreases |a|
  {
    assert (a + rest)[1..] == a[1..] + rest;
    if |a| == 1 {
      assert a[1..] + rest == rest;
    } else if IsSpace(a[0]) {
      FieldsSkip("", a[1..], rest, w);
    } else {
      FieldsSkip(word + [a[0]], a[1..], rest, w);
    }
  }

  /** A word between spaces is a field. */
  lemma FieldsFind(a: string, w: string, b: string)
    requires Solid(w) && w != "" && EndsSpace(a) && StartsSpace(b)
    ensures w in Fields(a + w + b)
  {
    assert "" + w == w;
    FieldsWord("", w, b);
    assert a + w + b == a + (w + b);
    if a != "" {
      FieldsSkip("", a, w + b, w);
    } else {
      assert a + (w + b) == w + b;
    }
  }

  lemma SpaceApart(w: string, s: string)
    requires Solid(w) && w != ""
    ensures Fields(w + [' '] + s) == [w] + Fields(s)
  {
    SolidFirst("", w, [' '] + s);
    assert w + [' '] + s == w + ([' '] + s) && ([' '] + s)[1..] == s && "" + w == w;
  }

  lemma {:induction false} SolidFirst(word: string, w: string, s: string)
    requires Solid(w)
    ensures FieldsFrom(word, w + s) == FieldsFrom(word + w, s)
    decreases |w|
  {
    if w == "" {
      assert w + s == s && word + w == word;
    } else {
      assert (w + s)[1..] == w[1..] + s;
      assert (word + [w[0]]) + w[1..] == word + w;
      SolidFirst(word + [w[0]], w[1..], s);
    }
  }

  /** Words joined by single spaces come apart again. */
  lemma {:induction false} FieldsJoined(words: seq<string>)
    requires forall w | w in words :: Solid(w) && w != ""
    ensures Fields(Join(words, ' ')) == words
  {
    if |words| == 1 {
      assert words[0] in words;
      SolidFirst("", words[0], "");
      assert words[0] + "" == words[0] && "" + words[0] == words[0];
    } else if |words| > 1 {
      assert words[0] in words && forall w | w in words[1..] :: w in words;
      FieldsJoined(words[1..]);
      SpaceApart(words[0], Join(words[1..], ' '));
      assert words == [words[0]] + words[1..];
    }
  }
}
