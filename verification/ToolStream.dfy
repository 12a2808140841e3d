/** plugins/ai/client_tools.go: putting streamed tool calls together again. */
module ToolStream {
  import opened Optional
  import opened Text

  datatype ToolCall = ToolCall(id: string, name: string, arguments: string)

  /** What the callback receives. */
  datatype Event =
    | Delta(content: string)
    | Call(call: ToolCall)
    | Done

  datatype Outcome =
    | Finished
    | CallbackFailed
    | ReadFailed
    | StreamError(data: string)
    | NotSSE(raw: string)
    | NoEvents

  /** The callback fails at its event number `failAt`, if it is ever called that often. */
  ghost function Seen(wanted: seq<Event>, failAt: Option<nat>): seq<Event> {
    if failAt.Some? && failAt.value < |wanted| then wanted[..failAt.value + 1] else wanted
  }

  ghost function Ending(wanted: seq<Event>, failAt: Option<nat>, ending: Outcome): Outcome {
    if failAt.Some? && failAt.value < |wanted| then CallbackFailed else ending
  }

  /** The callback has not failed yet. */
  predicate Unharmed(events: seq<Event>, failAt: Option<nat>) {
    failAt.Some? ==> |events| <= failAt.value
  }

  lemma SeenPrefix(events: seq<Event>, wanted: seq<Event>, failAt: Option<nat>)
    requires failAt.Some? && |events| == failAt.value + 1 && events <= wanted
    ensures events == Seen(wanted, failAt) && forall e :: Ending(wanted, failAt, e) == CallbackFailed
  {
  }

  lemma SeenAll(events: seq<Event>, failAt: Option<nat>, ending: Outcome)
    requires Unharmed(events, failAt)
    ensures Seen(events, failAt) == events && Ending(events, failAt, ending) == ending
  {
  }

  // ---------------------------------------------------------------------------------------------
  // Fragments of OpenAI tool calls
  // ---------------------------------------------------------------------------------------------

  datatype Fragment = Fragment(index: int, id: string, name: string, arguments: string)

  /** The fragments of one call. */
  function Of(fs: seq<Fragment>, i: int): seq<Fragment> {
    if fs == [] then []
    else Of(fs[..|fs| - 1], i) + if fs[|fs| - 1].index == i then [fs[|fs| - 1]] else []
  }

  function Arguments(fs: seq<Fragment>): string {
    if fs == [] then "" else Arguments(fs[..|fs| - 1]) + fs[|fs| - 1].arguments
  }

  /** The last id that was sent, the last name that was sent. */
  function ID(fs: seq<Fragment>): string {
    if fs == [] then ""
    else if fs[|fs| - 1].id != "" then fs[|fs| - 1].id
    else ID(fs[..|fs| - 1])
  }

  function Name(fs: seq<Fragment>): string {
    if fs == [] then ""
    else if fs[|fs| - 1].name != "" then fs[|fs| - 1].name
    else Name(fs[..|fs| - 1])
  }

  function Whole(fs: seq<Fragment>): ToolCall {
    ToolCall(ID(fs), Name(fs), Arguments(fs))
  }

  function Assembled(fs: seq<Fragment>, i: int): ToolCall {
    Whole(Of(fs, i))
  }

  function Indices(fs: seq<Fragment>): set<int> {
    set f | f in fs :: f.index
  }

  /** The calls with an index below `n`, in index order. */
  ghost function Below(fs: seq<Fragment>, n: nat): seq<Event> {
    if n == 0 then []
    else Below(fs, n - 1) + if n - 1 in Indices(fs) then [Call(Assembled(fs, n - 1))] else []
  }

  /** As many indices are tried as there are calls. */
  ghost function Emitted(fs: seq<Fragment>): seq<Event> {
    Below(fs, |Indices(fs)|)
  }

  // ---------------------------------------------------------------------------------------------
  // The accumulator
  // ---------------------------------------------------------------------------------------------

  ghost predicate Tracks(calls: map<int, ToolCall>, fs: seq<Fragment>) {
    calls.Keys == Indices(fs) && forall i | i in calls :: calls[i] == Assembled(fs, i)
  }

  method Accumulate(calls0: map<int, ToolCall>, f: Fragment, ghost fs: seq<Fragment>)
    returns (calls: map<int, ToolCall>)
    requires Tracks(calls0, fs)
    ensures Tracks(calls, fs + [f])
  {
    var call := if f.index in calls0 then calls0[f.index] else ToolCall("", "", "");
    ghost var mine := Of(fs, f.index);
    if f.index !in calls0 { NoneOf(fs, f.index); }
    assert call == Whole(mine);
    if f.id != "" {
      call := call.(id := f.id);
    }
    if f.name != "" {
      call := call.(name := f.name);
    }
    call := call.(arguments := call.arguments + f.arguments);
    assert (mine + [f])[..|mine|] == mine;
    assert call == Whole(mine + [f]);
    calls := calls0[f.index := call];
    TracksOneMore(calls0, calls, fs, f);
  }

  lemma {:induction false} NoneOf(fs: seq<Fragment>, i: int)
    requires i !in Indices(fs)
    ensures Of(fs, i) == []
  {
    if fs != [] {
      assert fs[|fs| - 1] in fs && forall f | f in fs[..|fs| - 1] :: f in fs;
      NoneOf(fs[..|fs| - 1], i);
    }
  }

  lemma OfAppend(fs: seq<Fragment>, f: Fragment, i: int)
    ensures Of(fs + [f], i) == Of(fs, i) + if f.index == i then [f] else []
    ensures Indices(fs + [f]) == Indices(fs) + {f.index}
  {
    assert (fs + [f])[..|fs|] == fs;
  }

  lemma TracksOneMore(calls0: map<int, ToolCall>, calls: map<int, ToolCall>, fs: seq<Fragment>, f: Fragment)
    requires Tracks(calls0, fs) && calls == calls0[f.index := Whole(Of(fs, f.index) + [f])]
    ensures Tracks(calls, fs + [f])
  {
    hide Of, Whole, Indices;
    OfAppend(fs, f, f.index);
    forall i | i in calls ensures calls[i] == Assembled(fs + [f], i) {
      OfAppend(fs, f, i);
      assert Of(fs, i) + [] == Of(fs, i);
    }
  }

  /** The emission loop. */
  method EmitCalls(calls: map<int, ToolCall>, events0: seq<Event>, failAt: Option<nat>, ghost fs: seq<Fragment>)
    returns (events: seq<Event>, ok: bool)
    requires Tracks(calls, fs) && Unharmed(events0, failAt)
    ensures ok ==> events == events0 + Emitted(fs) && Unharmed(events, failAt)
    ensures !ok ==> failAt.Some? && |events| == failAt.value + 1 && events <= events0 + Emitted(fs)
  {
    hide Assembled, Indices, Below;
    events := events0;
    assert |calls| == |calls.Keys|;
    BelowStep(fs, 0);
    var i := 0;
    while i < |calls|
      invariant 0 <= i <= |calls|
      invariant events == events0 + Below(fs, i) && Unharmed(events, failAt)
    {
      BelowStep(fs, i);
      if i in calls {
        events := events + [Call(calls[i])];
        if failAt == Some(|events| - 1) {
          BelowPrefix(fs, i + 1, |calls|);
          assert events == events0 + Below(fs, i + 1);
          return events, false;
        }
      }
      i := i + 1;
    }
    return events, true;
  }

  lemma BelowStep(fs: seq<Fragment>, i: nat)
    ensures Below(fs, 0) == []
    ensures Below(fs, i + 1) == if i in Indices(fs) then Below(fs, i) + [Call(Assembled(fs, i))] else Below(fs, i)
  {
  }

  lemma {:induction false} BelowPrefix(fs: seq<Fragment>, m: nat, n: nat)
    requires m <= n
    ensures Below(fs, m) <= Below(fs, n)
  {
    if m < n { BelowPrefix(fs, m, n - 1); }
  }

  // ---------------------------------------------------------------------------------------------
  // The OpenAI stream
  // ---------------------------------------------------------------------------------------------

  datatype Choice = Choice(content: string, fragments: seq<Fragment>, finish: Option<string>)

  /** A line of the response: no event or not JSON, the end marker, or a chunk. */
  datatype Line = Ignored | End | Chunk(choices: seq<Choice>)

  function Choices(lines: seq<Line>): seq<Choice> {
    if lines == [] || lines[0].End? then []
    else (if lines[0].Chunk? then lines[0].choices else []) + Choices(lines[1..])
  }

  predicate Finishes(c: Choice) {
    c.finish == Some("tool_calls") || c.finish == Some("stop")
  }

  /** The choices up to the first one that finishes. */
  function UpToFinish(cs: seq<Choice>): seq<Choice> {
    if cs == [] then []
    else [cs[0]] + if Finishes(cs[0]) then [] else UpToFinish(cs[1..])
  }

  function Texts(cs: seq<Choice>): seq<Event> {
    if cs == [] then []
    else Texts(cs[..|cs| - 1]) + if cs[|cs| - 1].content == "" then [] else [Delta(cs[|cs| - 1].content)]
  }

  function Fragments(cs: seq<Choice>): seq<Fragment> {
    if cs == [] then [] else Fragments(cs[..|cs| - 1]) + cs[|cs| - 1].fragments
  }

  ghost predicate Stopped(cs: seq<Choice>) {
    cs != [] && cs[|cs| - 1].finish == Some("stop")
  }

  /** The stream breaks off: the reader fails before any end. */
  ghost predicate BreaksOff(lines: seq<Line>, readError: bool) {
    readError && End !in lines && var cs := UpToFinish(Choices(lines)); cs == [] || !Finishes(cs[|cs| - 1])
  }

  /** The events of a stream whose callback never fails. */
  ghost function Wanted(lines: seq<Line>, readError: bool): seq<Event> {
    var cs := UpToFinish(Choices(lines));
    Texts(cs)
    + (if Stopped(cs) then [] else Emitted(Fragments(cs)))
    + (if BreaksOff(lines, readError) then [] else [Done])
  }

  ghost predicate NoFinish(cs: seq<Choice>) {
    forall i | 0 <= i < |cs| :: !Finishes(cs[i])
  }

  lemma HeadFirst<T>(s: seq<T>, t: seq<T>)
    requires s != []
    ensures s + t == [s[0]] + (s[1..] + t)
  {
  }

  lemma LastLast<T>(s: seq<T>, t: seq<T>)
    requires s != []
    ensures s + t == s[..|s| - 1] + ([s[|s| - 1]] + t)
  {
  }

  lemma UpToCons(c: Choice, rest: seq<Choice>)
    ensures UpToFinish([c] + rest) == [c] + if Finishes(c) then [] else UpToFinish(rest)
  {
    assert ([c] + rest)[1..] == rest;
  }

  lemma {:induction false} FinishAfter(cs: seq<Choice>, rest: seq<Choice>)
    requires NoFinish(cs)
    ensures UpToFinish(cs + rest) == cs + UpToFinish(rest)
  {
    if cs == [] {
      assert cs + rest == rest;
      assert cs + UpToFinish(rest) == UpToFinish(rest);
    } else {
      FinishAfter(cs[1..], rest);
      UpToCons(cs[0], cs[1..] + rest);
      HeadFirst(cs, rest);
      HeadFirst(cs, UpToFinish(rest));
    }
  }

  lemma {:induction false} TextsConcat(a: seq<Choice>, b: seq<Choice>)
    ensures Texts(a + b) == Texts(a) + Texts(b)
  {
    if b == [] {
      assert a + b == a;
    } else {
      var n := |b| - 1;
      assert (a + b)[..|a + b| - 1] == a + b[..n];
      TextsConcat(a, b[..n]);
    }
  }

  /** Whatever the stream holds later, the texts of what was read come first. */
  lemma TextsFirst(lines: seq<Line>, readError: bool, cs: seq<Choice>, rest: seq<Choice>)
    requires Choices(lines) == cs + rest && (cs == [] || NoFinish(cs[..|cs| - 1]))
    ensures Texts(cs) <= Wanted(lines, readError)
  {
    var tail := ReadSoFar(lines, cs, rest);
    hide UpToFinish, Choices, Emitted, BreaksOff, Stopped;
    TextsConcat(cs, tail);
  }

  lemma ReadSoFar(lines: seq<Line>, cs: seq<Choice>, rest: seq<Choice>) returns (tail: seq<Choice>)
    requires Choices(lines) == cs + rest && (cs == [] || NoFinish(cs[..|cs| - 1]))
    ensures UpToFinish(Choices(lines)) == cs + tail
    ensures tail == if cs != [] && Finishes(cs[|cs| - 1]) then [] else UpToFinish(rest)
  {
    if cs == [] {
      assert cs + rest == rest;
      tail := UpToFinish(rest);
      assert cs + tail == tail;
    } else {
      var n := |cs| - 1;
      var last := cs[n];
      tail := if Finishes(last) then [] else UpToFinish(rest);
      FinishAfter(cs[..n], [last] + rest);
      UpToCons(last, rest);
      LastLast(cs, rest);
      LastLast(cs, tail);
    }
  }

  // ---------------------------------------------------------------------------------------------
  // parseOpenAIToolStream
  // ---------------------------------------------------------------------------------------------

  /** How the reading of a part of the stream ends: it goes on, the callback failed, or all was said. */
  datatype Progress = More | Broke | Over

  /** The events of a stream whose choices end with a finish. */
  ghost function Final(cs: seq<Choice>): seq<Event> {
    Texts(cs) + (if Stopped(cs) then [] else Emitted(Fragments(cs))) + [Done]
  }

  ghost predicate Holds(p: Progress, cs: seq<Choice>, calls: map<int, ToolCall>, events: seq<Event>,
      failAt: Option<nat>)
  {
    match p
    case More => NoFinish(cs) && events == Texts(cs) && Tracks(calls, Fragments(cs)) && Unharmed(events, failAt)
    case Over => AtFinish(cs) && events == Final(cs) && Unharmed(events, failAt)
    case Broke =>
      && failAt.Some? && |events| == failAt.value + 1
      && ((cs != [] && NoFinish(cs[..|cs| - 1]) && events <= Texts(cs)) || (AtFinish(cs) && events <= Final(cs)))
  }

  /** The last choice is the first to finish. */
  ghost predicate AtFinish(cs: seq<Choice>) {
    cs != [] && NoFinish(cs[..|cs| - 1]) && Finishes(cs[|cs| - 1])
  }

  method AccumulateAll(calls0: map<int, ToolCall>, more: seq<Fragment>, ghost fs: seq<Fragment>)
    returns (calls: map<int, ToolCall>)
    requires Tracks(calls0, fs)
    ensures Tracks(calls, fs + more)
  {
    hide Tracks;
    calls := calls0;
    assert fs + more[..0] == fs;
    for i := 0 to |more|
      invariant Tracks(calls, fs + more[..i])
    {
      calls := Accumulate(calls, more[i], fs + more[..i]);
      assert (fs + more[..i]) + [more[i]] == fs + more[..i + 1];
    }
    assert more[..|more|] == more;
  }

  lemma OneMoreChoice(cs: seq<Choice>, c: Choice)
    ensures Texts(cs + [c]) == if c.content == "" then Texts(cs) else Texts(cs) + [Delta(c.content)]
    ensures Fragments(cs + [c]) == Fragments(cs) + c.fragments
    ensures NoFinish(cs) ==> (NoFinish(cs + [c]) <==> !Finishes(c)) && (AtFinish(cs + [c]) <==> Finishes(c))
    ensures (cs + [c])[..|cs + [c]| - 1] == cs
    ensures Stopped(cs + [c]) <==> c.finish == Some("stop")
  {
    assert (cs + [c])[..|cs|] == cs;
  }

  method ReadChoice(c: Choice, calls0: map<int, ToolCall>, events0: seq<Event>, failAt: Option<nat>,
      ghost cs: seq<Choice>)
    returns (p: Progress, calls: map<int, ToolCall>, events: seq<Event>)
    requires Holds(More, cs, calls0, events0, failAt)
    ensures Holds(p, cs + [c], calls, events, failAt)
  {
    ghost var now := cs + [c];
    OneMoreChoice(cs, c);
    hide Texts, Tracks, Fragments, Emitted, Finishes, NoFinish, Stopped;
    calls, events := calls0, events0;
    if c.content != "" {
      events := events + [Delta(c.content)];
      if failAt == Some(|events| - 1) {
        return Broke, calls, events;
      }
    }
    calls := AccumulateAll(calls0, c.fragments, Fragments(cs));
    FinishKinds(c);
    if c.finish == Some("tool_calls") {
      var ok;
      events, ok := EmitCalls(calls, events, failAt, Fragments(now));
      if !ok {
        return Broke, calls, events;
      }
      events := events + [Done];
      return if failAt == Some(|events| - 1) then Broke else Over, calls, events;
    }
    if c.finish == Some("stop") {
      events := events + [Done];
      assert Texts(now) + [] == Texts(now);
      return if failAt == Some(|events| - 1) then Broke else Over, calls, events;
    }
    return More, calls, events;
  }

  lemma FinishKinds(c: Choice)
    ensures Finishes(c) <==> c.finish == Some("tool_calls") || c.finish == Some("stop")
  {
  }

  /** The choices of one chunk; `n` of them are read. */
  method ReadChunk(choices: seq<Choice>, calls0: map<int, ToolCall>, events0: seq<Event>, failAt: Option<nat>,
      ghost cs: seq<Choice>) returns (p: Progress, calls: map<int, ToolCall>, events: seq<Event>, ghost n: nat)
    requires Holds(More, cs, calls0, events0, failAt)
    ensures n <= |choices| && (p.More? ==> n == |choices|)
    ensures Holds(p, cs + choices[..n], calls, events, failAt)
  {
    hide Holds;
    p, calls, events := More, calls0, events0;
    var i := 0;
    assert cs + choices[..0] == cs;
    while i < |choices|
      invariant 0 <= i <= |choices| && p.More?
      invariant Holds(More, cs + choices[..i], calls, events, failAt)
    {
      p, calls, events := ReadChoice(choices[i], calls, events, failAt, cs + choices[..i]);
      assert (cs + choices[..i]) + [choices[i]] == cs + choices[..i + 1];
      i := i + 1;
      if !p.More? {
        return p, calls, events, i;
      }
    }
    return p, calls, events, i;
  }

  lemma NextChunk(lines: seq<Line>, i: nat)
    requires i < |lines| && End !in lines[..i + 1]
    ensures Choices(lines[i..]) == (if lines[i].Chunk? then lines[i].choices else []) + Choices(lines[i + 1..])
  {
    assert lines[i] == lines[..i + 1][i];
    assert lines[i..][1..] == lines[i + 1..];
  }

  /** Reading broke off or was over within the choices of the stream. */
  lemma Concludes(lines: seq<Line>, readError: bool, failAt: Option<nat>, p: Progress, cs: seq<Choice>,
      rest: seq<Choice>, calls: map<int, ToolCall>, events: seq<Event>)
    requires Choices(lines) == cs + rest && !p.More? && Holds(p, cs, calls, events, failAt)
    ensures events == Seen(Wanted(lines, readError), failAt)
    ensures p == Over ==> Ending(Wanted(lines, readError), failAt, Finished) == Finished && !BreaksOff(lines, readError)
    ensures p == Broke ==> Ending(Wanted(lines, readError), failAt, Finished) == CallbackFailed
  {
    if AtFinish(cs) {
      var tail := ReadSoFar(lines, cs, rest);
      assert cs + tail == cs;
      WantedAtFinish(lines, readError, cs);
      if p == Broke {
        hide Wanted, Texts, Final, UpToFinish, Choices;
        if !(events <= Final(cs)) { TextsInFinal(cs, events); }
        SeenPrefix(events, Wanted(lines, readError), failAt);
      }
    } else {
      TextsFirst(lines, readError, cs, rest);
      hide Wanted, Texts, UpToFinish, Choices;
      SeenPrefix(events, Wanted(lines, readError), failAt);
    }
  }

  lemma TextsInFinal(cs: seq<Choice>, events: seq<Event>)
    requires events <= Texts(cs)
    ensures events <= Final(cs)
  {
  }

  lemma WantedAtFinish(lines: seq<Line>, readError: bool, cs: seq<Choice>)
    requires UpToFinish(Choices(lines)) == cs && AtFinish(cs)
    ensures Wanted(lines, readError) == Final(cs) && !BreaksOff(lines, readError)
  {
  }

  lemma WantedAtEnd(lines: seq<Line>, readError: bool, cs: seq<Choice>)
    requires Choices(lines) == cs && NoFinish(cs)
    ensures BreaksOff(lines, readError) <==> readError && End !in lines
    ensures var told := Texts(cs) + Emitted(Fragments(cs));
            Wanted(lines, readError) == if BreaksOff(lines, readError) then told else told + [Done]
  {
    FinishAfter(cs, []);
    assert cs + [] == cs;
    var told := Texts(cs) + Emitted(Fragments(cs));
    assert told + [] == told;
  }

  /** The scan loop, up to the end of the input, the end marker, a finish or a failing callback. */
  method ReadLines(lines: seq<Line>, failAt: Option<nat>)
    returns (p: Progress, calls: map<int, ToolCall>, events: seq<Event>, ended: bool, ghost cs: seq<Choice>,
      ghost rest: seq<Choice>)
    ensures Choices(lines) == cs + rest && Holds(p, cs, calls, events, failAt)
    ensures p.More? ==> rest == [] && (ended <==> End in lines)
  {
    hide Choices, Holds;
    p, calls, events, ended := More, map[], [], false;
    cs := [];
    NothingRead(lines, failAt);
    var i := 0;
    assert lines[0..] == lines && lines[..0] == [];
    while i < |lines|
      invariant 0 <= i <= |lines| && Holds(More, cs, calls, events, failAt)
      invariant End !in lines[..i] && Choices(lines) == cs + Choices(lines[i..])
    {
      if lines[i].End? {
        EndsHere(lines, i);
        assert lines[i] in lines;
        return More, calls, events, true, cs, [];
      }
      assert lines[..i + 1] == lines[..i] + [lines[i]];
      NextChunk(lines, i);
      ghost var later := Choices(lines[i + 1..]);
      if lines[i].Chunk? {
        ghost var n;
        p, calls, events, n := ReadChunk(lines[i].choices, calls, events, failAt, cs);
        ChunkSplit(cs, lines[i].choices, n, later);
        if !p.More? {
          return p, calls, events, false, cs + lines[i].choices[..n], lines[i].choices[n..] + later;
        }
        cs := cs + lines[i].choices[..n];
      } else {
        assert [] + later == later;
      }
      i := i + 1;
    }
    assert lines[..i] == lines;
    NothingLeft(lines[i..]);
    return More, calls, events, false, cs, [];
  }

  lemma ChunkSplit(cs: seq<Choice>, choices: seq<Choice>, n: nat, later: seq<Choice>)
    requires n <= |choices|
    ensures cs + (choices + later) == (cs + choices[..n]) + (choices[n..] + later)
    ensures n == |choices| ==> choices[n..] + later == later
  {
    assert choices == choices[..n] + choices[n..];
  }

  lemma PrefixMore<T>(e: seq<T>, told: seq<T>, more: seq<T>)
    requires e <= told
    ensures e <= told + more
  {
  }

  lemma HoldsMore(cs: seq<Choice>, calls: map<int, ToolCall>, events: seq<Event>, failAt: Option<nat>)
    requires Holds(More, cs, calls, events, failAt)
    ensures NoFinish(cs) && events == Texts(cs) && Tracks(calls, Fragments(cs)) && Unharmed(events, failAt)
  {
  }

  /** After the loop: emit what was accumulated, then report the reader's error or finish. */
  method AfterLines(lines: seq<Line>, readError: bool, failAt: Option<nat>, calls: map<int, ToolCall>,
      events0: seq<Event>, ended: bool, ghost cs: seq<Choice>) returns (events: seq<Event>, outcome: Outcome)
    requires Choices(lines) == cs && Holds(More, cs, calls, events0, failAt) && (ended <==> End in lines)
    ensures events == Seen(Wanted(lines, readError), failAt)
    ensures outcome == Ending(Wanted(lines, readError), failAt,
                              if BreaksOff(lines, readError) then ReadFailed else Finished)
  {
    HoldsMore(cs, calls, events0, failAt);
    WantedAtEnd(lines, readError, cs);
    hide Wanted, BreaksOff, Texts, Tracks, Fragments, Emitted, NoFinish, Choices, Holds, Seen, Ending;
    hide UpToFinish, Finishes, Below, Indices, Assembled;
    var ok;
    events, ok := EmitCalls(calls, events0, failAt, Fragments(cs));
    if !ok {
      PrefixMore(events, Texts(cs) + Emitted(Fragments(cs)), [Done]);
      SeenPrefix(events, Wanted(lines, readError), failAt);
      return events, CallbackFailed;
    }
    assert events == Texts(cs) + Emitted(Fragments(cs));
    if readError && !ended {
      SeenAll(events, failAt, ReadFailed);
      return events, ReadFailed;
    }
    events := events + [Done];
    if failAt == Some(|events| - 1) {
      SeenPrefix(events, Wanted(lines, readError), failAt);
      return events, CallbackFailed;
    }
    SeenAll(events, failAt, Finished);
    return events, Finished;
  }

  method ParseOpenAI(lines: seq<Line>, readError: bool, failAt: Option<nat>)
    returns (events: seq<Event>, outcome: Outcome)
    ensures events == Seen(Wanted(lines, readError), failAt)
    ensures outcome == Ending(Wanted(lines, readError), failAt,
                              if BreaksOff(lines, readError) then ReadFailed else Finished)
  {
    hide Wanted, BreaksOff, Holds, Choices;
    var p, calls, ended;
    ghost var cs, rest;
    p, calls, events, ended, cs, rest := ReadLines(lines, failAt);
    if !p.More? {
      Concludes(lines, readError, failAt, p, cs, rest, calls, events);
      return events, if p.Over? then Finished else CallbackFailed;
    }
    assert cs + [] == cs;
    events, outcome := AfterLines(lines, readError, failAt, calls, events, ended, cs);
  }

  lemma NothingRead(lines: seq<Line>, failAt: Option<nat>)
    ensures Holds(More, [], map[], [], failAt) && Choices(lines) == [] + Choices(lines)
  {
  }

  lemma EndsHere(lines: seq<Line>, i: nat)
    requires i < |lines| && lines[i].End?
    ensures Choices(lines[i..]) == []
  {
  }

  lemma NothingLeft(lines: seq<Line>)
    requires lines == []
    ensures Choices(lines) == []
  {
  }

  // ---------------------------------------------------------------------------------------------
  // What the events of a stream are worth
  // ---------------------------------------------------------------------------------------------

  predicate NoDone(es: seq<Event>) {
    forall i | 0 <= i < |es| :: !es[i].Done?
  }

  lemma {:induction false} TextsNoDone(cs: seq<Choice>)
    ensures NoDone(Texts(cs))
  {
    if cs != [] { TextsNoDone(cs[..|cs| - 1]); }
  }

  lemma {:induction false} BelowNoDone(fs: seq<Fragment>, n: nat)
    ensures NoDone(Below(fs, n))
  {
    if n > 0 { BelowNoDone(fs, n - 1); }
  }

  /** A run without errors ends with one final "done". */
  lemma OneFinalDone(lines: seq<Line>, readError: bool, failAt: Option<nat>)
    requires !BreaksOff(lines, readError)
    requires Ending(Wanted(lines, readError), failAt, Finished) == Finished
    ensures var es := Seen(Wanted(lines, readError), failAt); |es| > 0 && es[|es| - 1].Done? && NoDone(es[..|es| - 1])
  {
    var cs := UpToFinish(Choices(lines));
    TextsNoDone(cs);
    BelowNoDone(Fragments(cs), |Indices(Fragments(cs))|);
    var before := Texts(cs) + if Stopped(cs) then [] else Emitted(Fragments(cs));
    assert NoDone(before);
    assert Wanted(lines, readError) == before + [Done];
    assert (before + [Done])[..|before|] == before;
  }

  ghost predicate Full(fs: seq<Fragment>, n: nat) {
    forall i | 0 <= i < n :: i in Indices(fs)
  }

  /** The indices of the calls are 0, 1, 2 and so on. */
  ghost predicate Contiguous(fs: seq<Fragment>) {
    Full(fs, |Indices(fs)|)
  }

  lemma FullStep(fs: seq<Fragment>, n: nat)
    ensures Full(fs, 0)
    ensures Full(fs, n + 1) <==> Full(fs, n) && n in Indices(fs)
  {
    hide Indices;
    if Full(fs, n) && n in Indices(fs) {
      forall i | 0 <= i < n + 1 ensures i in Indices(fs) {
        assert i < n || i == n;
      }
    }
  }

  lemma {:induction false} BelowSize(fs: seq<Fragment>, n: nat)
    ensures |Below(fs, n)| <= n
    ensures |Below(fs, n)| == n <==> Full(fs, n)
  {
    FullStep(fs, 0);
    if n > 0 {
      BelowSize(fs, n - 1);
      FullStep(fs, n - 1);
      BelowStep(fs, n - 1);
      hide Below, Full, Indices, Assembled;
      assert n - 1 + 1 == n;
    }
  }

  /** All calls are emitted exactly when their indices are contiguous; otherwise some are dropped. */
  lemma AllEmittedIff(fs: seq<Fragment>)
    ensures |Emitted(fs)| <= |Indices(fs)|
    ensures |Emitted(fs)| == |Indices(fs)| <==> Contiguous(fs)
  {
    BelowSize(fs, |Indices(fs)|);
  }

  lemma {:induction false} BelowAt(fs: seq<Fragment>, n: nat, i: nat)
    requires i < n && Full(fs, n)
    ensures |Below(fs, n)| == n && Below(fs, n)[i] == Call(Assembled(fs, i))
  {
    BelowSize(fs, n);
    FullStep(fs, n - 1);
    BelowStep(fs, n - 1);
    BelowSize(fs, n - 1);
    hide Below, Full, Indices, Assembled;
    assert n - 1 + 1 == n;
    if i < n - 1 { BelowAt(fs, n - 1, i); }
  }

  /** Contiguous calls come out in index order, each with all its fragments. */
  lemma EmittedInOrder(fs: seq<Fragment>, i: nat)
    requires Contiguous(fs) && i < |Indices(fs)|
    ensures |Emitted(fs)| == |Indices(fs)| && Emitted(fs)[i] == Call(Assembled(fs, i))
  {
    BelowAt(fs, |Indices(fs)|, i);
  }

  /** The last of the values that is not empty, if there is one. */
  ghost predicate LastSent(values: seq<string>, v: string) {
    || (v == "" && forall i | 0 <= i < |values| :: values[i] == "")
    || (v != "" && exists i :: SentAt(values, v, i))
  }

  ghost predicate SentAt(values: seq<string>, v: string, i: nat) {
    i < |values| && values[i] == v && forall j | i < j < |values| :: values[j] == ""
  }

  lemma LastSentMore(values: seq<string>, v: string, w: string)
    requires LastSent(values, v)
    ensures LastSent(values + [w], if w != "" then w else v)
  {
    if w != "" {
      assert SentAt(values + [w], w, |values|);
    } else if v != "" {
      var i :| SentAt(values, v, i);
      assert SentAt(values + [w], v, i);
    }
  }

  function IDs(fs: seq<Fragment>): seq<string> { seq(|fs|, i requires 0 <= i < |fs| => fs[i].id) }

  function Names(fs: seq<Fragment>): seq<string> { seq(|fs|, i requires 0 <= i < |fs| => fs[i].name) }

  /** A call is assembled from its fragments: the last id and the last name that were sent. */
  lemma {:induction false} WholeMeans(fs: seq<Fragment>)
    ensures LastSent(IDs(fs), Whole(fs).id) && LastSent(Names(fs), Whole(fs).name)
    ensures |fs| == 1 ==> Whole(fs) == ToolCall(fs[0].id, fs[0].name, fs[0].arguments)
  {
    if fs != [] {
      var init, last := fs[..|fs| - 1], fs[|fs| - 1];
      WholeMeans(init);
      LastSentMore(IDs(init), ID(init), last.id);
      LastSentMore(Names(init), Name(init), last.name);
      assert IDs(fs) == IDs(init) + [last.id] && Names(fs) == Names(init) + [last.name];
    }
  }

  /** What the user reads: the texts of the events, in order. */
  function TextOf(es: seq<Event>): string {
    if es == [] then "" else (if es[0].Delta? then es[0].content else "") + TextOf(es[1..])
  }

  /** What the model wrote: the texts of the choices, in order. */
  function Written(cs: seq<Choice>): string {
    if cs == [] then "" else cs[0].content + Written(cs[1..])
  }

  lemma {:induction false} TextConcat(es: seq<Event>, more: seq<Event>)
    ensures TextOf(es + more) == TextOf(es) + TextOf(more)
  {
    if es == [] {
      assert es + more == more;
    } else {
      assert (es + more)[1..] == es[1..] + more;
      TextConcat(es[1..], more);
    }
  }

  lemma {:induction false} TextOfChoices(cs: seq<Choice>)
    ensures TextOf(Texts(cs)) == Written(cs)
  {
    if cs != [] {
      assert cs == [cs[0]] + cs[1..];
      TextsConcat([cs[0]], cs[1..]);
      TextConcat(Texts([cs[0]]), Texts(cs[1..]));
      TextOfChoices(cs[1..]);
      OneText(cs[0]);
    }
  }

  lemma OneText(c: Choice)
    ensures TextOf(Texts([c])) == c.content
  {
    assert Texts([c]) == if c.content == "" then [] else [Delta(c.content)];
  }

  lemma {:induction false} TextOfCalls(fs: seq<Fragment>, n: nat)
    ensures TextOf(Below(fs, n)) == ""
  {
    if n > 0 {
      TextOfCalls(fs, n - 1);
      BelowStep(fs, n - 1);
      if n - 1 in Indices(fs) {
        TextConcat(Below(fs, n - 1), [Call(Assembled(fs, n - 1))]);
      }
    }
  }

  /** The texts of all events of a stream are what the model wrote up to the finish, whatever became of the calls. */
  lemma TextWhole(lines: seq<Line>, readError: bool)
    ensures TextOf(Wanted(lines, readError)) == Written(UpToFinish(Choices(lines)))
  {
    var cs := UpToFinish(Choices(lines));
    var calls := if Stopped(cs) then [] else Emitted(Fragments(cs));
    TextOfChoices(cs);
    TextOfCalls(Fragments(cs), |Indices(Fragments(cs))|);
    TextConcat(Texts(cs), calls);
    TextConcat(Texts(cs) + calls, if BreaksOff(lines, readError) then [] else [Done]);
  }

  /** Only the assembled calls matter. */
  lemma {:induction false} BelowSame(fs: seq<Fragment>, gs: seq<Fragment>, n: nat)
    requires Indices(fs) == Indices(gs) && forall i :: Assembled(fs, i) == Assembled(gs, i)
    ensures Below(fs, n) == Below(gs, n)
  {
    if n > 0 { BelowSame(fs, gs, n - 1); }
  }

  lemma {:induction false} IndexHasFragments(fs: seq<Fragment>, i: int)
    ensures i in Indices(fs) <==> Of(fs, i) != []
  {
    if fs != [] {
      var n := |fs| - 1;
      IndexHasFragments(fs[..n], i);
      assert fs == fs[..n] + [fs[n]];
      OfAppend(fs[..n], fs[n], i);
    }
  }

  /** How the fragments of different calls interleave does not matter. */
  lemma InterleavingIrrelevant(fs: seq<Fragment>, gs: seq<Fragment>)
    requires forall i :: Of(fs, i) == Of(gs, i)
    ensures Emitted(fs) == Emitted(gs)
  {
    forall i ensures i in Indices(fs) <==> i in Indices(gs) {
      IndexHasFragments(fs, i);
      IndexHasFragments(gs, i);
    }
    assert Indices(fs) == Indices(gs);
    BelowSame(fs, gs, |Indices(fs)|);
  }

  lemma {:induction false} OfConcat(a: seq<Fragment>, b: seq<Fragment>, i: int)
    ensures Of(a + b, i) == Of(a, i) + Of(b, i)
  {
    if b == [] {
      assert a + b == a;
    } else {
      var n := |b| - 1;
      assert (a + b)[..|a + b| - 1] == a + b[..n];
      OfConcat(a, b[..n], i);
    }
  }

  lemma WholeAppend(xs: seq<Fragment>, f: Fragment)
    ensures Whole(xs + [f]) == ToolCall(
              if f.id != "" then f.id else ID(xs), if f.name != "" then f.name else Name(xs),
              Arguments(xs) + f.arguments)
  {
    assert (xs + [f])[..|xs|] == xs;
  }

  lemma LastApart<T>(a: seq<T>, b: seq<T>)
    requires b != []
    ensures a + b == (a + b[..|b| - 1]) + [b[|b| - 1]] && b == b[..|b| - 1] + [b[|b| - 1]]
  {
  }

  /** The fragments in pieces: concatenated arguments, the last id and the last name. */
  lemma {:induction false} WholeConcat(a: seq<Fragment>, b: seq<Fragment>)
    ensures Whole(a + b) == ToolCall(
              if ID(b) != "" then ID(b) else ID(a), if Name(b) != "" then Name(b) else Name(a),
              Arguments(a) + Arguments(b))
  {
    if b == [] {
      assert a + b == a;
    } else {
      var init, last := b[..|b| - 1], b[|b| - 1];
      WholeConcat(a, init);
      WholeAppend(a + init, last);
      WholeAppend(init, last);
      LastApart(a, b);
      hide ID, Name, Arguments;
      assert Arguments(a) + Arguments(init) + last.arguments == Arguments(a) + (Arguments(init) + last.arguments);
    }
  }

  /** One fragment, or the same text in two, with the second anywhere before the next fragment of the call. */
  lemma SplittingIrrelevant(a: seq<Fragment>, b: seq<Fragment>, c: seq<Fragment>, f: Fragment, x: string, y: string)
    requires f.arguments == x + y && Of(b, f.index) == []
    ensures Emitted(a + [f] + b + c) ==
            Emitted(a + [f.(arguments := x)] + b + [Fragment(f.index, "", "", y)] + c)
  {
    var head, tail := f.(arguments := x), Fragment(f.index, "", "", y);
    var fs, gs := a + [f] + b + c, a + [head] + b + [tail] + c;
    forall i ensures Assembled(fs, i) == Assembled(gs, i) && (i in Indices(fs) <==> i in Indices(gs)) {
      SplitOf(a, b, c, f, head, tail, i);
      IndexHasFragments(fs, i);
      IndexHasFragments(gs, i);
    }
    hide Assembled;
    assert Indices(fs) == Indices(gs);
    BelowSame(fs, gs, |Indices(fs)|);
  }

  lemma SplitOf(a: seq<Fragment>, b: seq<Fragment>, c: seq<Fragment>, f: Fragment, head: Fragment, tail: Fragment,
      i: int)
    requires head == f.(arguments := head.arguments) && tail == Fragment(f.index, "", "", tail.arguments)
    requires f.arguments == head.arguments + tail.arguments && Of(b, f.index) == []
    ensures Assembled(a + [f] + b + c, i) == Assembled(a + [head] + b + [tail] + c, i)
    ensures Of(a + [f] + b + c, i) == [] <==> Of(a + [head] + b + [tail] + c, i) == []
  {
    OfConcat(a + [f] + b, c, i);
    OfConcat(a + [f], b, i);
    OfConcat(a, [f], i);
    OfConcat(a + [head] + b + [tail], c, i);
    OfConcat(a + [head] + b, [tail], i);
    OfConcat(a + [head], b, i);
    OfConcat(a, [head], i);
    OneOf(f, i);
    OneOf(head, i);
    OneOf(tail, i);
    if i == f.index {
      SplitWhole(Of(a, i), Of(c, i), f, head, tail);
    } else {
      assert Of(a, i) + [] + Of(b, i) + [] == Of(a, i) + [] + Of(b, i);
    }
  }

  lemma OneOf(f: Fragment, i: int)
    ensures Of([f], i) == if f.index == i then [f] else []
  {
    assert [f][..0] == [];
  }

  lemma SplitWhole(p: seq<Fragment>, q: seq<Fragment>, f: Fragment, head: Fragment, tail: Fragment)
    requires head == f.(arguments := head.arguments) && tail == Fragment(f.index, "", "", tail.arguments)
    requires f.arguments == head.arguments + tail.arguments
    ensures Whole(p + [f] + [] + q) == Whole(p + [head] + [] + [tail] + q)
  {
    assert p + [f] + [] == p + [f] && p + [head] + [] == p + [head];
    WholeConcat(p + [f], q);
    WholeConcat(p + [head] + [tail], q);
    WholeConcat(p + [head], [tail]);
    WholeConcat(p, [f]);
    WholeConcat(p, [head]);
    assert [f][..0] == [] && [head][..0] == [] && [tail][..0] == [];
    assert Whole([f]) == ToolCall(f.id, f.name, "" + f.arguments) &&
      Whole([head]) == ToolCall(f.id, f.name, "" + head.arguments);
    assert Whole([tail]) == ToolCall("", "", "" + tail.arguments);
    assert Arguments(p) + head.arguments + tail.arguments == Arguments(p) + (head.arguments + tail.arguments);
  }

  /** The fragments assemble to the same calls, however each call is cut and the calls interleave. */
  ghost predicate SameCalls(fs: seq<Fragment>, gs: seq<Fragment>) {
    Indices(fs) == Indices(gs) && forall i :: Assembled(fs, i) == Assembled(gs, i)
  }

  /** Streams that say the same are told the same, however they are cut into lines and fragments. */
  lemma StreamsAgree(lines: seq<Line>, lines': seq<Line>, readError: bool)
    requires
      var cs, cs' := UpToFinish(Choices(lines)), UpToFinish(Choices(lines'));
      Texts(cs) == Texts(cs') && (Stopped(cs) <==> Stopped(cs')) && SameCalls(Fragments(cs), Fragments(cs'))
    requires BreaksOff(lines, readError) <==> BreaksOff(lines', readError)
    ensures Wanted(lines, readError) == Wanted(lines', readError)
  {
    var fs, gs := Fragments(UpToFinish(Choices(lines))), Fragments(UpToFinish(Choices(lines')));
    BelowSame(fs, gs, |Indices(fs)|);
  }

  lemma {:induction false} BelowMember(fs: seq<Fragment>, n: nat, e: Event)
    ensures e in Below(fs, n) <==> exists i :: 0 <= i < n && i in Indices(fs) && e == Call(Assembled(fs, i))
  {
    hide Indices, Assembled;
    if n > 0 { BelowMember(fs, n - 1, e); }
  }

  /** Some index is below the number of calls. */
  ghost predicate SomeTried(fs: seq<Fragment>) {
    exists i :: i in Indices(fs) && 0 <= i < |Indices(fs)|
  }

  lemma CallsEmitted(fs: seq<Fragment>)
    ensures (exists c :: Call(c) in Emitted(fs)) <==> SomeTried(fs)
  {
    hide Below, Indices, Assembled;
    forall c ensures Call(c) in Emitted(fs) <==>
                     exists i :: 0 <= i < |Indices(fs)| && i in Indices(fs) && Call(c) == Call(Assembled(fs, i)) {
      BelowMember(fs, |Indices(fs)|, Call(c));
    }
    if i :| i in Indices(fs) && 0 <= i < |Indices(fs)| {
      assert Call(Assembled(fs, i)) in Emitted(fs);
    }
  }

  lemma WantedCall(lines: seq<Line>, readError: bool, c: ToolCall)
    ensures var cs := UpToFinish(Choices(lines));
            Call(c) in Wanted(lines, readError) <==> !Stopped(cs) && Call(c) in Emitted(Fragments(cs))
  {
    TextsNoCalls(UpToFinish(Choices(lines)));
    hide Texts, Emitted, Fragments, UpToFinish, Choices, Stopped, BreaksOff;
  }

  /** A call is reported exactly when the stream does not finish with "stop" and some index is below the
      number of calls; "stop" drops whatever was accumulated. */
  lemma StopDropsCalls(lines: seq<Line>, readError: bool)
    ensures var cs := UpToFinish(Choices(lines));
            (exists c :: Call(c) in Wanted(lines, readError)) <==> !Stopped(cs) && SomeTried(Fragments(cs))
  {
    CallsEmitted(Fragments(UpToFinish(Choices(lines))));
    forall c: ToolCall { WantedCall(lines, readError, c); }
    hide Wanted, Emitted, SomeTried, Fragments, UpToFinish, Choices, Stopped;
  }

  // ---------------------------------------------------------------------------------------------
  // Streams that lose calls
  // ---------------------------------------------------------------------------------------------

  lemma TwoIndices(f: Fragment, g: Fragment)
    ensures Indices([f, g]) == {f.index, g.index}
  {
    assert [f, g][0] == f && [f, g][1] == g;
  }

  /** Calls 0 and 2: two indices are tried, so call 2 is lost. */
  lemma GapLosesCall(f: Fragment, g: Fragment)
    requires f.index == 0 && g.index == 2
    ensures Emitted([f, g]) == [Call(Assembled([f, g], 0))]
  {
    TwoIndices(f, g);
    assert |{0, 2}| == 2;
    BelowStep([f, g], 0);
    BelowStep([f, g], 1);
  }

  /** Calls 1 and 2: call 1 is reported although there is no call 0. */
  lemma LateStartKeepsCall(f: Fragment, g: Fragment)
    requires f.index == 1 && g.index == 2
    ensures Emitted([f, g]) == [Call(Assembled([f, g], 1))]
  {
    TwoIndices(f, g);
    assert |{1, 2}| == 2;
    BelowStep([f, g], 0);
    BelowStep([f, g], 1);
  }

  /** One complete call and then "stop": only the end is reported. */
  lemma StoppedCallIsLost(f: Fragment)
    ensures Wanted([Chunk([Choice("", [f], Some("stop"))])], false) == [Done]
  {
    var c := Choice("", [f], Some("stop"));
    var lines := [Chunk([c])];
    assert lines[1..] == [] && [c] + [] == [c];
    assert Choices(lines) == [c];
    assert UpToFinish([c]) == [c];
    assert [c][..0] == [];
    assert Texts([c]) == [];
  }

  lemma {:induction false} TextsNoCalls(cs: seq<Choice>)
    ensures forall e | e in Texts(cs) :: !e.Call?
  {
    if cs != [] { TextsNoCalls(cs[..|cs| - 1]); }
  }
}
