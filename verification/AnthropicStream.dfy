/** plugins/ai/client_tools.go: tool calls from the block events of an Anthropic stream. */
module AnthropicStream {
  import opened Optional
  import opened Text
  import opened ToolStream

  datatype BlockInfo = BlockInfo(kind: string, id: string, name: string)

  datatype Part =
    | TextDelta(text: string)
    | JsonDelta(partial: string)
    | OtherDelta

  /** A line of the response: no event, not JSON, or an event by its type. */
  datatype Item =
    | NotEvent(line: string)
    | BadJSON
    | BlockStart(index: int, info: Option<BlockInfo>)
    | BlockDelta(index: int, part: Option<Part>)
    | BlockStop(index: int)
    | MessageStop
    | ErrorEvent(data: string)
    | OtherEvent

  // ---------------------------------------------------------------------------------------------
  // Blocks and events, item by item
  // ---------------------------------------------------------------------------------------------

  datatype Block = Block(kind: string, id: string, name: string, input: string)

  function Opened(info: BlockInfo): Block { Block(info.kind, info.id, info.name, "") }

  /** What an item does to block `i`. */
  function After(open: Option<Block>, e: Item, i: int): Option<Block> {
    match e
    case BlockStart(j, info) => if j == i && info.Some? then Some(Opened(info.value)) else open
    case BlockStop(j) => if j == i then None else open
    case BlockDelta(j, part) =>
      if j == i && part.Some? && part.value.JsonDelta? && open.Some? then
        Some(open.value.(input := open.value.input + part.value.partial))
      else open
    case _ => open
  }

  /** What an item tells the callback, given the block it refers to. */
  function Says(open: Option<Block>, e: Item): seq<Event> {
    match e
    case BlockDelta(_, part) =>
      if open.Some? && part.Some? && part.value.TextDelta? && part.value.text != "" then [Delta(part.value.text)]
      else []
    case BlockStop(_) =>
      if open.Some? && open.value.kind == "tool_use" then
        [Call(ToolCall(open.value.id, open.value.name, open.value.input))]
      else []
    case _ => []
  }

  function Subject(e: Item): int {
    match e
    case BlockStart(j, _) => j
    case BlockDelta(j, _) => j
    case BlockStop(j) => j
    case _ => 0
  }

  /** Block `i` after the items. */
  function Open(es: seq<Item>, i: int): Option<Block> {
    if es == [] then None else After(Open(es[..|es| - 1], i), es[|es| - 1], i)
  }

  function Told(es: seq<Item>): seq<Event> {
    if es == [] then []
    else
      var init, last := es[..|es| - 1], es[|es| - 1];
      Told(init) + Says(Open(init, Subject(last)), last)
  }

  // ---------------------------------------------------------------------------------------------
  // The whole stream
  // ---------------------------------------------------------------------------------------------

  predicate Ends(e: Item) { e.MessageStop? || e.ErrorEvent? }

  function UpToEnd(items: seq<Item>): seq<Item> {
    if items == [] then []
    else [items[0]] + if Ends(items[0]) then [] else UpToEnd(items[1..])
  }

  predicate IsEvent(e: Item) { !e.NotEvent? && !e.BadJSON? }

  ghost predicate AnyEvent(es: seq<Item>) {
    exists i :: 0 <= i < |es| && IsEvent(es[i])
  }

  /** What is kept of a response without events: its first lines. */
  function Raw(es: seq<Item>): string {
    if es == [] then ""
    else
      var raw, last := Raw(es[..|es| - 1]), es[|es| - 1];
      if last.NotEvent? && last.line != "" && |raw| < 2048 then raw + last.line + "\n" else raw
  }

  ghost predicate EndsWell(items: seq<Item>, readError: bool) {
    var es := UpToEnd(items);
    if es != [] && Ends(es[|es| - 1]) then es[|es| - 1].MessageStop?
    else !readError && AnyEvent(es)
  }

  ghost function Wanted(items: seq<Item>, readError: bool): seq<Event> {
    Told(UpToEnd(items)) + if EndsWell(items, readError) then [Done] else []
  }

  ghost function Verdict(items: seq<Item>, readError: bool): Outcome {
    var es := UpToEnd(items);
    if EndsWell(items, readError) then Finished
    else if es != [] && es[|es| - 1].ErrorEvent? then StreamError(es[|es| - 1].data)
    else if readError then ReadFailed
    else if TrimSpace(Raw(es)) != "" then NotSSE(TrimSpace(Raw(es)))
    else NoEvents
  }

  // ---------------------------------------------------------------------------------------------
  // parseAnthropicToolStream
  // ---------------------------------------------------------------------------------------------

  ghost predicate Mirrors(blocks: map<int, Block>, es: seq<Item>) {
    forall i :: if i in blocks then Open(es, i) == Some(blocks[i]) else Open(es, i) == None
  }

  lemma OneMoreItem(es: seq<Item>, e: Item, i: int)
    ensures Open(es + [e], i) == After(Open(es, i), e, i)
    ensures Told(es + [e]) == Told(es) + Says(Open(es, Subject(e)), e)
    ensures Raw(es + [e]) ==
            if e.NotEvent? && e.line != "" && |Raw(es)| < 2048 then Raw(es) + e.line + "\n" else Raw(es)
    ensures AnyEvent(es + [e]) <==> AnyEvent(es) || IsEvent(e)
  {
    var now := es + [e];
    assert now[..|es|] == es;
    if i :| 0 <= i < |es| && IsEvent(es[i]) { assert IsEvent(now[i]); }
    if i :| 0 <= i < |now| && IsEvent(now[i]) { assert i < |es| ==> IsEvent(es[i]); }
    assert now[|es|] == e;
  }

  /** The item turns the blocks into the next ones. */
  ghost predicate Follows(blocks: map<int, Block>, next: map<int, Block>, e: Item) {
    forall i :: (if i in next then Some(next[i]) else None) ==
                After(if i in blocks then Some(blocks[i]) else None, e, i)
  }

  lemma MirrorsNext(blocks: map<int, Block>, next: map<int, Block>, es: seq<Item>, e: Item)
    requires Mirrors(blocks, es)
    requires Follows(blocks, next, e)
    ensures Mirrors(next, es + [e])
  {
    hide After;
    forall i ensures if i in next then Open(es + [e], i) == Some(next[i]) else Open(es + [e], i) == None {
      OneMoreItem(es, e, i);
      assert Open(es, i) == if i in blocks then Some(blocks[i]) else None;
    }
  }

  /** One event of the stream; what it says to the callback and how it changes the blocks. */
  method ReadEvent(e: Item, blocks0: map<int, Block>) returns (blocks: map<int, Block>, said: seq<Event>)
    ensures Follows(blocks0, blocks, e)
    ensures said == Says(if Subject(e) in blocks0 then Some(blocks0[Subject(e)]) else None, e)
  {
    blocks, said := blocks0, [];
    match e {
      case BlockStart(index, info) =>
        if info.Some? {
          blocks := blocks[index := Block(info.value.kind, info.value.id, info.value.name, "")];
        }
      case BlockDelta(index, part) =>
        if index !in blocks || part.None? {
          return;
        }
        match part.value {
          case TextDelta(text) =>
            if text != "" {
              said := [Delta(text)];
            }
          case JsonDelta(partial) =>
            blocks := blocks[index := blocks[index].(input := blocks[index].input + partial)];
          case OtherDelta =>
        }
      case BlockStop(index) =>
        if index !in blocks {
          return;
        }
        if blocks[index].kind == "tool_use" {
          said := [Call(ToolCall(blocks[index].id, blocks[index].name, blocks[index].input))];
        }
        blocks := blocks - {index};
      case _ =>
    }
  }

  lemma SaysAtMostOne(open: Option<Block>, e: Item)
    ensures |Says(open, e)| <= 1 && NoDone(Says(open, e))
  {
  }

  ghost predicate NoEnd(es: seq<Item>) {
    forall i | 0 <= i < |es| :: !Ends(es[i])
  }

  lemma {:induction false} EndAfter(es: seq<Item>, rest: seq<Item>)
    requires NoEnd(es)
    ensures UpToEnd(es + rest) == es + UpToEnd(rest)
  {
    if es == [] {
      assert es + rest == rest && es + UpToEnd(rest) == UpToEnd(rest);
    } else {
      EndAfter(es[1..], rest);
      HeadFirst(es, rest);
      HeadFirst(es, UpToEnd(rest));
      assert ([es[0]] + (es[1..] + rest))[1..] == es[1..] + rest;
    }
  }

  lemma ReadTo(items: seq<Item>, i: nat) returns (rest: seq<Item>)
    requires i < |items| && NoEnd(items[..i])
    ensures UpToEnd(items) == items[..i + 1] + rest && (Ends(items[i]) ==> rest == [])
  {
    var x, later := items[i], items[i + 1..];
    rest := if Ends(x) then [] else UpToEnd(later);
    SplitAround(items, i);
    EndAfter(items[..i], [x] + later);
    EndCons(x, later);
    hide UpToEnd, Ends;
    Shift(items[..i], x, rest);
  }

  lemma EndCons(x: Item, later: seq<Item>)
    ensures UpToEnd([x] + later) == [x] + if Ends(x) then [] else UpToEnd(later)
  {
    assert ([x] + later)[1..] == later;
  }

  lemma SplitAround<T>(s: seq<T>, i: nat)
    requires i < |s|
    ensures s == s[..i] + ([s[i]] + s[i + 1..]) && s[..i + 1] == s[..i] + [s[i]]
  {
  }

  lemma Shift<T>(a: seq<T>, x: T, b: seq<T>)
    ensures a + ([x] + b) == (a + [x]) + b
  {
  }

  lemma {:induction false} ToldFirst(es: seq<Item>, rest: seq<Item>)
    ensures Told(es) <= Told(es + rest)
  {
    if rest == [] {
      assert es + rest == es;
    } else {
      var init, last := rest[..|rest| - 1], rest[|rest| - 1];
      ToldFirst(es, init);
      LastApart(es, rest);
      OneMoreItem(es + init, last, 0);
      PrefixMore(Told(es), Told(es + init), Says(Open(es + init, Subject(last)), last));
    }
  }

  lemma StartOfStream()
    ensures Mirrors(map[], []) && Told([]) == [] && !AnyEvent([]) && Raw([]) == "" && NoEnd([])
  {
  }

  /** A line that is no event, or one that says nothing and changes nothing. */
  lemma QuietItem(blocks: map<int, Block>, es: seq<Item>, e: Item)
    requires Mirrors(blocks, es) && !IsEvent(e)
    ensures Mirrors(blocks, es + [e]) && Told(es + [e]) == Told(es)
  {
    OneMoreItem(es, e, 0);
    assert Told(es) + [] == Told(es);
    MirrorsNext(blocks, blocks, es, e);
  }

  lemma StopsHere(items: seq<Item>, i: nat, readError: bool)
    requires i < |items| && NoEnd(items[..i]) && items[i].MessageStop?
    ensures Wanted(items, readError) == Told(items[..i]) + [Done] && Verdict(items, readError) == Finished
  {
    hide UpToEnd, Told, AnyEvent, Raw, TrimSpace, Open, NoEnd;
    var rest := ReadTo(items, i);
    assert items[..i + 1] + [] == items[..i + 1] == items[..i] + [items[i]];
    OneMoreItem(items[..i], items[i], 0);
    assert Told(items[..i]) + [] == Told(items[..i]);
  }

  lemma ErrorHere(items: seq<Item>, i: nat, readError: bool)
    requires i < |items| && NoEnd(items[..i]) && items[i].ErrorEvent?
    ensures Wanted(items, readError) == Told(items[..i]) && Verdict(items, readError) == StreamError(items[i].data)
  {
    hide UpToEnd, Told, AnyEvent, Raw, TrimSpace, Open, NoEnd;
    var rest := ReadTo(items, i);
    assert items[..i + 1] + [] == items[..i + 1] == items[..i] + [items[i]];
    OneMoreItem(items[..i], items[i], 0);
    assert Told(items[..i]) + [] + [] == Told(items[..i]);
  }

  lemma ToldWanted(items: seq<Item>, i: nat, readError: bool)
    requires i < |items| && NoEnd(items[..i]) && !Ends(items[i])
    ensures Told(items[..i + 1]) <= Wanted(items, readError)
  {
    var rest := ReadTo(items, i);
    ToldFirst(items[..i + 1], rest);
    PrefixMore(Told(items[..i + 1]), Told(UpToEnd(items)), if EndsWell(items, readError) then [Done] else []);
  }

  lemma EndOfInput(items: seq<Item>, readError: bool)
    requires NoEnd(items)
    ensures Wanted(items, readError) == if readError || !AnyEvent(items) then Told(items) else Told(items) + [Done]
    ensures Verdict(items, readError) ==
            if readError then ReadFailed
            else if AnyEvent(items) then Finished
            else if TrimSpace(Raw(items)) != "" then NotSSE(TrimSpace(Raw(items)))
            else NoEvents
  {
    EndAfter(items, []);
    assert items + [] == items && Told(items) + [] == Told(items);
  }

  /** An event that does not end the stream. */
  method Process(e: Item, blocks0: map<int, Block>, events0: seq<Event>, failAt: Option<nat>, ghost es: seq<Item>)
    returns (blocks: map<int, Block>, events: seq<Event>, ok: bool)
    requires Mirrors(blocks0, es) && events0 == Told(es) && Unharmed(events0, failAt)
    ensures Mirrors(blocks, es + [e]) && events == Told(es + [e])
    ensures ok ==> Unharmed(events, failAt)
    ensures !ok ==> failAt.Some? && |events| == failAt.value + 1
  {
    OneMoreItem(es, e, 0);
    SaysAtMostOne(Open(es, Subject(e)), e);
    SubjectBlock(blocks0, es, Subject(e));
    hide Told, Open, After, Says, Follows, Mirrors;
    var said;
    blocks, said := ReadEvent(e, blocks0);
    MirrorsNext(blocks0, blocks, es, e);
    events := events0 + said;
    ok := said == [] || failAt != Some(|events| - 1);
  }

  lemma SubjectBlock(blocks: map<int, Block>, es: seq<Item>, i: int)
    requires Mirrors(blocks, es)
    ensures Open(es, i) == if i in blocks then Some(blocks[i]) else None
  {
  }

  /** The last event of a run without errors. */
  method Conclude(events: seq<Event>, failAt: Option<nat>) returns (outcome: Outcome)
    requires |events| > 0 && Unharmed(events[..|events| - 1], failAt)
    ensures events == Seen(events, failAt) && outcome == Ending(events, failAt, Finished)
  {
    outcome := if failAt == Some(|events| - 1) then CallbackFailed else Finished;
  }

  method ParseAnthropic(items: seq<Item>, readError: bool, failAt: Option<nat>)
    returns (events: seq<Event>, outcome: Outcome)
    ensures events == Seen(Wanted(items, readError), failAt)
    ensures outcome == Ending(Wanted(items, readError), failAt, Verdict(items, readError))
  {
    hide Wanted, Verdict, Mirrors, Told, UpToEnd, AnyEvent, Raw, Seen, Ending;
    var blocks: map<int, Block> := map[];
    var received, raw, ok := false, "", true;
    events := [];
    assert items[..0] == [];
    StartOfStream();
    var i := 0;
    while i < |items|
      invariant 0 <= i <= |items| && NoEnd(items[..i])
      invariant Mirrors(blocks, items[..i]) && events == Told(items[..i]) && Unharmed(events, failAt)
      invariant received <==> AnyEvent(items[..i])
      invariant !received ==> raw == Raw(items[..i])
    {
      var e := items[i];
      assert items[..i + 1] == items[..i] + [e];
      OneMoreItem(items[..i], e, 0);
      if !IsEvent(e) {
        if e.NotEvent? && !received && e.line != "" && |raw| < 2048 {
          raw := raw + e.line + "\n";
        }
        QuietItem(blocks, items[..i], e);
      } else {
        received := true;
        if e.MessageStop? {
          StopsHere(items, i, readError);
          events := events + [Done];
          outcome := Conclude(events, failAt);
          return;
        }
        if e.ErrorEvent? {
          ErrorHere(items, i, readError);
          SeenAll(events, failAt, StreamError(e.data));
          return events, StreamError(e.data);
        }
        blocks, events, ok := Process(e, blocks, events, failAt, items[..i]);
        if !ok {
          ToldWanted(items, i, readError);
          SeenPrefix(events, Wanted(items, readError), failAt);
          return events, CallbackFailed;
        }
      }
      i := i + 1;
    }
    assert items[..i] == items;
    events, outcome := AfterItems(items, readError, failAt, events, received, raw);
  }

  /** After the scan loop. */
  method AfterItems(items: seq<Item>, readError: bool, failAt: Option<nat>, events0: seq<Event>, received: bool,
      raw0: string)
    returns (events: seq<Event>, outcome: Outcome)
    requires NoEnd(items) && events0 == Told(items) && Unharmed(events0, failAt)
    requires (received <==> AnyEvent(items)) && (!received ==> raw0 == Raw(items))
    ensures events == Seen(Wanted(items, readError), failAt)
    ensures outcome == Ending(Wanted(items, readError), failAt, Verdict(items, readError))
  {
    EndOfInput(items, readError);
    hide Wanted, Verdict, Told, UpToEnd, AnyEvent, Raw, Seen, Ending;
    events := events0;
    if readError {
      SeenAll(events, failAt, ReadFailed);
      return events, ReadFailed;
    }
    if !received {
      var raw := TrimSpace(raw0);
      outcome := if raw != "" then NotSSE(raw) else NoEvents;
      SeenAll(events, failAt, outcome);
      return;
    }
    events := events + [Done];
    outcome := Conclude(events, failAt);
  }

  // ---------------------------------------------------------------------------------------------
  // What the events of a stream are worth
  // ---------------------------------------------------------------------------------------------

  /** The item opens or closes block `i`. */
  predicate Resets(e: Item, i: int) {
    (e.BlockStart? && e.index == i && e.info.Some?) || (e.BlockStop? && e.index == i)
  }

  predicate Feeds(e: Item, i: int) {
    e.BlockDelta? && e.index == i && e.part.Some? && e.part.value.JsonDelta?
  }

  /** The argument fragments for block `i`, concatenated. */
  function Partials(es: seq<Item>, i: int): string {
    if es == [] then ""
    else Partials(es[..|es| - 1], i) + if Feeds(es[|es| - 1], i) then es[|es| - 1].part.value.partial else ""
  }

  /** An open block holds all fragments since its start, whatever happens to other blocks in between. */
  lemma {:induction false} OpenHolds(before: seq<Item>, i: int, info: BlockInfo, mid: seq<Item>)
    requires forall k | 0 <= k < |mid| :: !Resets(mid[k], i)
    ensures Open(before + [BlockStart(i, Some(info))] + mid, i) ==
            Some(Block(info.kind, info.id, info.name, Partials(mid, i)))
  {
    var start := before + [BlockStart(i, Some(info))];
    if mid == [] {
      assert start + mid == start;
      OneMoreItem(before, BlockStart(i, Some(info)), i);
    } else {
      var init, last := mid[..|mid| - 1], mid[|mid| - 1];
      OpenHolds(before, i, info, init);
      LastApart(start, mid);
      OneMoreItem(start + init, last, i);
      assert mid == init + [last] && mid[..|mid| - 1] == init;
      assert Partials(init, i) + "" == Partials(init, i);
    }
  }

  /** When a tool block stops, its call is reported at that place, with everything that was sent for it. */
  lemma CallAtStop(before: seq<Item>, i: int, info: BlockInfo, mid: seq<Item>)
    requires forall k | 0 <= k < |mid| :: !Resets(mid[k], i)
    ensures
      var open := before + [BlockStart(i, Some(info))] + mid;
      Told(open + [BlockStop(i)]) ==
      Told(open) + if info.kind == "tool_use" then [Call(ToolCall(info.id, info.name, Partials(mid, i)))] else []
  {
    OpenHolds(before, i, info, mid);
    OneMoreItem(before + [BlockStart(i, Some(info))] + mid, BlockStop(i), i);
  }

  /** A text for an open block is told at its place, as it is, whatever kind of block it is; for one that is not open,
      nothing is. */
  lemma TextAtDelta(before: seq<Item>, i: int, info: BlockInfo, mid: seq<Item>, text: string)
    requires (forall k | 0 <= k < |mid| :: !Resets(mid[k], i)) && text != ""
    ensures var open := before + [BlockStart(i, Some(info))] + mid;
            Told(open + [BlockDelta(i, Some(TextDelta(text)))]) == Told(open) + [Delta(text)]
    ensures var shut := before + [BlockStop(i)] + mid;
            Told(shut + [BlockDelta(i, Some(TextDelta(text)))]) == Told(shut)
  {
    OpenHolds(before, i, info, mid);
    OneMoreItem(before + [BlockStart(i, Some(info))] + mid, BlockDelta(i, Some(TextDelta(text))), i);
    ShutHolds(before, i, mid);
    OneMoreItem(before + [BlockStop(i)] + mid, BlockDelta(i, Some(TextDelta(text))), i);
  }

  lemma {:induction false} ShutHolds(before: seq<Item>, i: int, mid: seq<Item>)
    requires forall k | 0 <= k < |mid| :: !Resets(mid[k], i)
    ensures Open(before + [BlockStop(i)] + mid, i) == None
  {
    var start := before + [BlockStop(i)];
    if mid == [] {
      assert start + mid == start;
      OneMoreItem(before, BlockStop(i), i);
    } else {
      var init, last := mid[..|mid| - 1], mid[|mid| - 1];
      ShutHolds(before, i, init);
      LastApart(start, mid);
      OneMoreItem(start + init, last, i);
    }
  }

  /** Streams that agree on all blocks and on what was told agree on everything told later. */
  ghost predicate Agree(p: seq<Item>, q: seq<Item>) {
    Told(p) == Told(q) && forall i :: Open(p, i) == Open(q, i)
  }

  lemma {:induction false} AgreeLater(p: seq<Item>, q: seq<Item>, rest: seq<Item>)
    requires Agree(p, q)
    ensures Agree(p + rest, q + rest)
  {
    if rest == [] {
      assert p + rest == p && q + rest == q;
    } else {
      var init, last := rest[..|rest| - 1], rest[|rest| - 1];
      AgreeLater(p, q, init);
      LastApart(p, rest);
      LastApart(q, rest);
      forall i ensures Open(p + rest, i) == Open(q + rest, i) {
        OneMoreItem(p + init, last, i);
        OneMoreItem(q + init, last, i);
      }
      OneMoreItem(p + init, last, 0);
      OneMoreItem(q + init, last, 0);
    }
  }

  /** `q` has received everything that `p` has, but for `missing` at the end of the arguments of block `i`. */
  ghost predicate Behind(p: seq<Item>, q: seq<Item>, i: int, missing: string) {
    && Told(p) == Told(q) && (forall j | j != i :: Open(p, j) == Open(q, j))
    && (Open(q, i).None? <==> Open(p, i).None?)
    && (Open(q, i).Some? ==>
          Open(p, i).value == Open(q, i).value.(input := Open(q, i).value.input + missing))
  }

  lemma {:induction false} BehindLater(p: seq<Item>, q: seq<Item>, i: int, missing: string, mid: seq<Item>)
    requires Behind(p, q, i, missing)
    requires forall k | 0 <= k < |mid| :: !Resets(mid[k], i) && !Feeds(mid[k], i)
    ensures Behind(p + mid, q + mid, i, missing)
  {
    if mid == [] {
      assert p + mid == p && q + mid == q;
    } else {
      var init, last := mid[..|mid| - 1], mid[|mid| - 1];
      BehindLater(p, q, i, missing, init);
      LastApart(p, mid);
      LastApart(q, mid);
      BehindStep(p + init, q + init, i, missing, last);
    }
  }

  lemma BehindStep(p: seq<Item>, q: seq<Item>, i: int, missing: string, e: Item)
    requires Behind(p, q, i, missing) && !Resets(e, i) && !Feeds(e, i)
    ensures Behind(p + [e], q + [e], i, missing)
  {
    hide Open, Told, After, Says, AnyEvent, Raw;
    forall j | j != i ensures Open(p + [e], j) == Open(q + [e], j) {
      OneMoreItem(p, e, j);
      OneMoreItem(q, e, j);
    }
    OneMoreItem(p, e, i);
    OneMoreItem(q, e, i);
    Unfed(Open(p, i), e, i);
    Unfed(Open(q, i), e, i);
    if Subject(e) == i {
      SaidAlike(Open(p, i), Open(q, i), e);
    }
  }

  lemma Unfed(open: Option<Block>, e: Item, i: int)
    requires !Resets(e, i) && !Feeds(e, i)
    ensures After(open, e, i) == open
  {
  }

  /** What is said about an open block does not depend on its arguments until it stops. */
  lemma SaidAlike(one: Option<Block>, other: Option<Block>, e: Item)
    requires one.Some? == other.Some? && !Resets(e, Subject(e))
    ensures Says(one, e) == Says(other, e)
  {
  }

  /** One argument fragment, or the same text in two with anything but this block in between. */
  lemma SplittingIrrelevant(a: seq<Item>, i: int, x: string, y: string, mid: seq<Item>, rest: seq<Item>)
    requires forall k | 0 <= k < |mid| :: !Resets(mid[k], i) && !Feeds(mid[k], i)
    ensures Agree(a + [BlockDelta(i, Some(JsonDelta(x + y)))] + mid + rest,
                  a + [BlockDelta(i, Some(JsonDelta(x)))] + mid + [BlockDelta(i, Some(JsonDelta(y)))] + rest)
  {
    var whole := BlockDelta(i, Some(JsonDelta(x + y)));
    var head, tail := BlockDelta(i, Some(JsonDelta(x))), BlockDelta(i, Some(JsonDelta(y)));
    HeadBehind(a, i, x, y);
    BehindLater(a + [whole], a + [head], i, y, mid);
    CatchUp(a + [whole] + mid, a + [head] + mid, i, y);
    AgreeLater(a + [whole] + mid, a + [head] + mid + [tail], rest);
  }

  lemma Regroup(a: seq<Item>, e: Item, mid: seq<Item>, rest: seq<Item>)
    ensures a + [e] + mid + rest == a + [e] + (mid + rest) == a + ([e] + (mid + rest))
  {
  }

  lemma RegroupTail(p: seq<Item>, g: Item, rest: seq<Item>)
    ensures p + [g] + rest == p + ([g] + rest)
  {
  }

  /** The same streams in full, as far as they are read: the callback is told the same, with the same end. */
  lemma SplittingUnseen(a: seq<Item>, i: int, x: string, y: string, mid: seq<Item>, rest: seq<Item>, readError: bool)
    requires forall k | 0 <= k < |mid| :: !Resets(mid[k], i) && !Feeds(mid[k], i)
    ensures
      var p := a + [BlockDelta(i, Some(JsonDelta(x + y)))] + mid + rest;
      var q := a + [BlockDelta(i, Some(JsonDelta(x)))] + mid + [BlockDelta(i, Some(JsonDelta(y)))] + rest;
      Wanted(p, readError) == Wanted(q, readError) && Verdict(p, readError) == Verdict(q, readError)
  {
    var whole := BlockDelta(i, Some(JsonDelta(x + y)));
    var head, tail := BlockDelta(i, Some(JsonDelta(x))), BlockDelta(i, Some(JsonDelta(y)));
    hide Wanted, Verdict, NoEnd, UpToEnd;
    Regroup(a, whole, mid, rest);
    RegroupTail(a + [head] + mid, tail, rest);
    Regroup(a, head, mid, [tail] + rest);
    if !NoEnd(a) {
      EndWithin(a, [whole] + (mid + rest));
      EndWithin(a, [head] + (mid + ([tail] + rest)));
      SameRead(a + [whole] + mid + rest, a + [head] + mid + [tail] + rest, readError);
    } else {
      UpToAfter(a, whole, mid + rest);
      UpToAfter(a, head, mid + ([tail] + rest));
      if NoEnd(mid) {
        SplittingKept(a, i, x, y, mid, rest, readError);
      } else {
        SplittingCut(a, i, x, y, mid, rest, readError);
      }
    }
  }

  lemma SplittingCut(a: seq<Item>, i: int, x: string, y: string, mid: seq<Item>, rest: seq<Item>, readError: bool)
    requires forall k | 0 <= k < |mid| :: !Resets(mid[k], i) && !Feeds(mid[k], i)
    requires NoEnd(a) && !NoEnd(mid)
    ensures
      var p := a + [BlockDelta(i, Some(JsonDelta(x + y)))] + (mid + rest);
      var q := a + [BlockDelta(i, Some(JsonDelta(x)))] + (mid + ([BlockDelta(i, Some(JsonDelta(y)))] + rest));
      Wanted(p, readError) == Wanted(q, readError) && Verdict(p, readError) == Verdict(q, readError)
  {
    hide Wanted, Verdict, NoEnd, UpToEnd, Told, Open, Resets, Feeds;
    var whole := BlockDelta(i, Some(JsonDelta(x + y)));
    var head, tail := BlockDelta(i, Some(JsonDelta(x))), BlockDelta(i, Some(JsonDelta(y)));
    UpToAfter(a, whole, mid + rest);
    UpToAfter(a, head, mid + ([tail] + rest));
    EndWithin(mid, rest);
    EndWithin(mid, [tail] + rest);
    UpToPrefix(mid);
    HeadBehind(a, i, x, y);
    assert forall k | 0 <= k < |UpToEnd(mid)| :: UpToEnd(mid)[k] == mid[k];
    BehindLater(a + [whole], a + [head], i, y, UpToEnd(mid));
    SameFate(a + [whole] + (mid + rest), a + [head] + (mid + ([tail] + rest)), a, whole, head, UpToEnd(mid), readError);
  }

  lemma SplittingKept(a: seq<Item>, i: int, x: string, y: string, mid: seq<Item>, rest: seq<Item>, readError: bool)
    requires forall k | 0 <= k < |mid| :: !Resets(mid[k], i) && !Feeds(mid[k], i)
    requires NoEnd(a) && NoEnd(mid)
    ensures
      var p := a + [BlockDelta(i, Some(JsonDelta(x + y)))] + (mid + rest);
      var q := a + [BlockDelta(i, Some(JsonDelta(x)))] + (mid + ([BlockDelta(i, Some(JsonDelta(y)))] + rest));
      Wanted(p, readError) == Wanted(q, readError) && Verdict(p, readError) == Verdict(q, readError)
  {
    hide Wanted, Verdict, NoEnd, UpToEnd, Told, Open, Resets, Feeds;
    var whole := BlockDelta(i, Some(JsonDelta(x + y)));
    var head, tail := BlockDelta(i, Some(JsonDelta(x))), BlockDelta(i, Some(JsonDelta(y)));
    UpToAfter(a, whole, mid + rest);
    UpToAfter(a, head, mid + ([tail] + rest));
    EndAfter(mid, rest);
    EndAfter(mid, [tail] + rest);
    EndCons(tail, rest);
    SplittingIrrelevant(a, i, x, y, mid, UpToEnd(rest));
    SplitFate(a + [whole] + (mid + rest), a + [head] + (mid + ([tail] + rest)), a, whole, head, mid, tail,
      UpToEnd(rest), readError);
  }

  lemma SameRead(p: seq<Item>, q: seq<Item>, readError: bool)
    requires UpToEnd(p) == UpToEnd(q)
    ensures Wanted(p, readError) == Wanted(q, readError) && Verdict(p, readError) == Verdict(q, readError)
  {
  }

  lemma {:induction false} EndWithin(es: seq<Item>, rest: seq<Item>)
    requires !NoEnd(es)
    ensures UpToEnd(es + rest) == UpToEnd(es)
  {
    HeadFirst(es, rest);
    EndCons(es[0], es[1..] + rest);
    if !Ends(es[0]) {
      assert !NoEnd(es[1..]) by {
        var k :| 0 <= k < |es| && Ends(es[k]);
        assert es[1..][k - 1] == es[k];
      }
      EndWithin(es[1..], rest);
    }
  }

  lemma UpToAfter(a: seq<Item>, e: Item, later: seq<Item>)
    requires NoEnd(a) && !Ends(e)
    ensures UpToEnd(a + [e] + later) == a + [e] + UpToEnd(later)
  {
    Shift(a, e, later);
    EndAfter(a, [e] + later);
    EndCons(e, later);
    Shift(a, e, UpToEnd(later));
  }

  /** What is read is an initial part that stops at its first end. */
  lemma {:induction false} UpToPrefix(es: seq<Item>)
    requires !NoEnd(es)
    ensures var r := UpToEnd(es); |r| > 0 && r <= es && Ends(r[|r| - 1])
  {
    if !Ends(es[0]) {
      assert !NoEnd(es[1..]) by {
        var k :| 0 <= k < |es| && Ends(es[k]);
        assert es[1..][k - 1] == es[k];
      }
      UpToPrefix(es[1..]);
    }
  }

  /** Both streams are read up to the same end, and told the same until then. */
  lemma SameFate(p: seq<Item>, q: seq<Item>, a: seq<Item>, e: Item, f: Item, shared: seq<Item>, readError: bool)
    requires UpToEnd(p) == a + [e] + shared && UpToEnd(q) == a + [f] + shared
    requires Told(a + [e] + shared) == Told(a + [f] + shared) && shared != [] && Ends(shared[|shared| - 1])
    ensures Wanted(p, readError) == Wanted(q, readError) && Verdict(p, readError) == Verdict(q, readError)
  {
    hide UpToEnd, Told, AnyEvent, Raw, TrimSpace;
    var r, r' := a + [e] + shared, a + [f] + shared;
    assert r[|r| - 1] == shared[|shared| - 1] == r'[|r'| - 1];
  }

  lemma EventAmong(es: seq<Item>, k: nat)
    requires k < |es| && IsEvent(es[k])
    ensures AnyEvent(es)
  {
  }

  lemma SplitFate(p: seq<Item>, q: seq<Item>, a: seq<Item>, e: Item, f: Item, mid: seq<Item>, g: Item, end: seq<Item>,
      readError: bool)
    requires NoEnd(a) && NoEnd(mid) && e.BlockDelta? && f.BlockDelta? && g.BlockDelta?
    requires UpToEnd(p) == a + [e] + (mid + end) && UpToEnd(q) == a + [f] + (mid + ([g] + end))
    requires Told(a + [e] + mid + end) == Told(a + [f] + mid + [g] + end)
    ensures Wanted(p, readError) == Wanted(q, readError) && Verdict(p, readError) == Verdict(q, readError)
  {
    hide UpToEnd, Told, Raw;
    var r, r' := a + [e] + mid + end, a + [f] + mid + [g] + end;
    assert a + [e] + (mid + end) == r && a + [f] + (mid + ([g] + end)) == r';
    assert r[|a|] == e && r'[|a|] == f;
    EventAmong(r, |a|);
    EventAmong(r', |a|);
    if end != [] {
      assert r[|r| - 1] == end[|end| - 1] == r'[|r'| - 1];
    } else {
      assert r'[|r'| - 1] == g;
      assert r[|r| - 1] == if mid == [] then e else mid[|mid| - 1];
    }
  }

  lemma HeadBehind(a: seq<Item>, i: int, x: string, y: string)
    ensures Behind(a + [BlockDelta(i, Some(JsonDelta(x + y)))], a + [BlockDelta(i, Some(JsonDelta(x)))], i, y)
  {
    var whole, head := BlockDelta(i, Some(JsonDelta(x + y))), BlockDelta(i, Some(JsonDelta(x)));
    forall j
      ensures Open(a + [whole], j) == After(Open(a, j), whole, j) && Open(a + [head], j) == After(Open(a, j), head, j)
    {
      OneMoreItem(a, whole, j);
      OneMoreItem(a, head, j);
    }
    OneMoreItem(a, whole, 0);
    OneMoreItem(a, head, 0);
    hide Open, Told;
    if Open(a, i).Some? {
      assert Open(a, i).value.input + (x + y) == Open(a, i).value.input + x + y;
    }
  }

  lemma CatchUp(p: seq<Item>, q: seq<Item>, i: int, missing: string)
    requires Behind(p, q, i, missing)
    ensures Agree(p, q + [BlockDelta(i, Some(JsonDelta(missing)))])
  {
    var tail := BlockDelta(i, Some(JsonDelta(missing)));
    forall j ensures Open(q + [tail], j) == After(Open(q, j), tail, j) {
      OneMoreItem(q, tail, j);
    }
    OneMoreItem(q, tail, 0);
    assert Told(q) + [] == Told(q);
    hide Open, Told;
  }

  lemma {:induction false} ToldNoDone(es: seq<Item>)
    ensures NoDone(Told(es))
  {
    if es != [] {
      ToldNoDone(es[..|es| - 1]);
      SaysAtMostOne(Open(es[..|es| - 1], Subject(es[|es| - 1])), es[|es| - 1]);
    }
  }

  /** A run without errors ends with one final "done". */
  lemma OneFinalDone(items: seq<Item>, readError: bool, failAt: Option<nat>)
    requires Ending(Wanted(items, readError), failAt, Verdict(items, readError)) == Finished
    ensures var es := Seen(Wanted(items, readError), failAt); |es| > 0 && es[|es| - 1].Done? && NoDone(es[..|es| - 1])
  {
    var told := Told(UpToEnd(items));
    ToldNoDone(UpToEnd(items));
    assert EndsWell(items, readError);
    assert (told + [Done])[..|told|] == told;
  }
}
