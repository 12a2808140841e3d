/** plugins/ai/service.go: the conversation of ChatWithTools, round by round. */
module ToolLoop {
  import opened Optional
  import opened ToolStream
  import Confirmations

  datatype Tool = Tool(adminOnly: bool, needsConfirmation: bool)

  /** A message of the conversation with the model. */
  datatype Message =
    | Plain(role: string, content: string)
    | Assistant(content: string, calls: seq<ToolCall>)
    | ToolResult(content: string, callID: string, toolName: string)

  /** What the stream of a round brings: an error, or text and complete tool calls. */
  datatype Reply = Failed | Said(text: string, calls: seq<ToolCall>)

  datatype Notice =
    | Streamed(reply: Reply)
    | ConfirmRequired(pendingID: string)
    | Result(callID: string, toolName: string, content: string)
    | AllDone

  const MAX_ROUNDS: nat := 10

  const DENIED := "{\"error\": \"Permission denied: this tool requires admin privileges\"}"

  const REJECTED := "{\"status\": \"rejected\", \"message\": \"User rejected this action\"}"

  /** What happens around the loop: replies of the model, decisions of the user, outputs of the tools. */
  datatype World = World(reply: nat -> Reply, decide: (nat, nat) -> bool, output: (nat, nat) -> string)

  datatype Setting = Setting(tools: map<string, Tool>, role: string, user: nat)

  function PendingID(call: ToolCall): string { call.id + "-" + call.name }

  // ---------------------------------------------------------------------------------------------
  // What a call may do
  // ---------------------------------------------------------------------------------------------

  predicate Forbidden(s: Setting, call: ToolCall) {
    call.name in s.tools && s.tools[call.name].adminOnly && s.role != "admin" && s.role != "owner"
  }

  predicate Gated(s: Setting, call: ToolCall) {
    call.name in s.tools && s.tools[call.name].needsConfirmation && !Forbidden(s, call)
  }

  /** The call reaches the tool registry. */
  predicate MayRun(s: Setting, call: ToolCall, decision: bool) {
    !Forbidden(s, call) && (Gated(s, call) ==> decision)
  }

  function Content(s: Setting, call: ToolCall, decision: bool, output: string): string {
    if Forbidden(s, call) then DENIED else if !MayRun(s, call, decision) then REJECTED else output
  }

  /** A result belongs to a call. */
  predicate Answers(m: Message, call: ToolCall) {
    m.ToolResult? && m.callID == call.id && m.toolName == call.name
  }

  /** Each assistant message with calls is followed by exactly one result per call, in order, with its id. */
  predicate WellPaired(ms: seq<Message>)
    decreases |ms|
  {
    ms == [] ||
    (&& ms[0].Assistant? && ms[0].calls != []
     && |ms| >= 1 + |ms[0].calls|
     && (forall i | 0 <= i < |ms[0].calls| :: Answers(ms[1 + i], ms[0].calls[i]))
     && WellPaired(ms[1 + |ms[0].calls|..]))
  }

  lemma {:induction false} PairedConcat(a: seq<Message>, b: seq<Message>)
    requires WellPaired(a) && WellPaired(b)
    ensures WellPaired(a + b)
    decreases |a|
  {
    if a == [] {
      assert a + b == b;
    } else {
      var n := 1 + |a[0].calls|;
      assert (a + b)[n..] == a[n..] + b;
      PairedConcat(a[n..], b);
    }
  }

  // ---------------------------------------------------------------------------------------------
  // One round
  // ---------------------------------------------------------------------------------------------

  /** A tool call that was handed to the registry: its round and its place in the round. */
  datatype Run = Run(round: nat, index: nat, call: ToolCall)

  /** The results for the calls of a round. */
  ghost predicate Answered(s: Setting, w: World, round: nat, calls: seq<ToolCall>, results: seq<Message>) {
    |results| <= |calls| && forall i | 0 <= i < |results| ::
      results[i] == ToolResult(Content(s, calls[i], w.decide(round, i), w.output(round, i)), calls[i].id, calls[i].name)
  }

  /** Exactly the calls that may run did run, each once and in order. */
  ghost predicate RanExactly(s: Setting, w: World, round: nat, calls: seq<ToolCall>, n: nat, runs: seq<Run>)
    requires n <= |calls|
  {
    && (forall k | 0 <= k < |runs| :: runs[k].index < n && runs[k] == Run(round, runs[k].index, calls[runs[k].index])
                                   && MayRun(s, calls[runs[k].index], w.decide(round, runs[k].index)))
    && (forall j, k | 0 <= j < k < |runs| :: runs[j].index < runs[k].index)
    && (forall i | 0 <= i < n && MayRun(s, calls[i], w.decide(round, i)) :: Run(round, i, calls[i]) in runs)
  }

  lemma RanOneMore(s: Setting, w: World, round: nat, calls: seq<ToolCall>, n: nat, before: seq<Run>, runs: seq<Run>)
    requires n < |calls| && RanExactly(s, w, round, calls, n, before)
    requires runs == if MayRun(s, calls[n], w.decide(round, n)) then before + [Run(round, n, calls[n])] else before
    ensures RanExactly(s, w, round, calls, n + 1, runs)
  {
    hide MayRun;
    forall i | 0 <= i < n + 1 && MayRun(s, calls[i], w.decide(round, i)) ensures Run(round, i, calls[i]) in runs {
      if i < n { assert Run(round, i, calls[i]) in before; }
    }
  }

  // ---------------------------------------------------------------------------------------------
  // The whole conversation
  // ---------------------------------------------------------------------------------------------

  predicate AsksForTools(r: Reply) { r.Said? && r.calls != [] }

  /** The number of rounds with tool calls, at most ten. */
  function Rounds(w: World, from: nat): (n: nat)
    requires from <= MAX_ROUNDS
    ensures from <= n <= MAX_ROUNDS && (forall r: nat | from <= r < n :: AsksForTools(w.reply(r)))
    ensures n < MAX_ROUNDS ==> !AsksForTools(w.reply(n))
    decreases MAX_ROUNDS - from
  {
    if from == MAX_ROUNDS || !AsksForTools(w.reply(from)) then from else Rounds(w, from + 1)
  }

  function Results(s: Setting, w: World, round: nat, calls: seq<ToolCall>): seq<Message> {
    seq(|calls|, i requires 0 <= i < |calls| =>
      ToolResult(Content(s, calls[i], w.decide(round, i), w.output(round, i)), calls[i].id, calls[i].name))
  }

  /** What the user is sent about a call: a request for confirmation if it is gated, then the result. */
  function CallNotices(s: Setting, w: World, round: nat, index: nat, call: ToolCall): seq<Notice> {
    (if Gated(s, call) then [ConfirmRequired(PendingID(call))] else []) +
    [Result(call.id, call.name, Content(s, call, w.decide(round, index), w.output(round, index)))]
  }

  /** And about the first `n` calls of a round. */
  function RoundNotices(s: Setting, w: World, round: nat, calls: seq<ToolCall>, n: nat): seq<Notice>
    requires n <= |calls|
  {
    if n == 0 then [] else RoundNotices(s, w, round, calls, n - 1) + CallNotices(s, w, round, n - 1, calls[n - 1])
  }

  function CallsOf(w: World, r: nat): seq<ToolCall> {
    if w.reply(r).Said? then w.reply(r).calls else []
  }

  /** The notices of round `r`: its streamed reply, then those of its calls. */
  function RoundAll(s: Setting, w: World, r: nat): seq<Notice> {
    [Streamed(w.reply(r))] + RoundNotices(s, w, r, CallsOf(w, r), |CallsOf(w, r)|)
  }

  function AllNotices(s: Setting, w: World, n: nat): seq<Notice> {
    if n == 0 then [] else AllNotices(s, w, n - 1) + RoundAll(s, w, n - 1)
  }

  /** What is sent behind the rounds: a reply that asks for no tools or failed, and the final notice. */
  function ChatRest(w: World): seq<Notice> {
    var n := Rounds(w, 0);
    if n == MAX_ROUNDS then [AllDone]
    else if w.reply(n).Failed? then [Streamed(w.reply(n))]
    else [Streamed(w.reply(n)), AllDone]
  }

  function ChatNotices(s: Setting, w: World): seq<Notice> { AllNotices(s, w, Rounds(w, 0)) + ChatRest(w) }

  lemma {:induction false} NoDone(s: Setting, w: World, round: nat, calls: seq<ToolCall>, n: nat)
    requires n <= |calls|
    ensures AllDone !in RoundNotices(s, w, round, calls, n)
  {
    if n > 0 { NoDone(s, w, round, calls, n - 1); }
  }

  lemma {:induction false} NoneDone(s: Setting, w: World, n: nat)
    ensures AllDone !in AllNotices(s, w, n)
  {
    if n > 0 {
      NoneDone(s, w, n - 1);
      NoDone(s, w, n - 1, CallsOf(w, n - 1), |CallsOf(w, n - 1)|);
      hide RoundNotices, CallsOf;
    }
  }

  predicate DoneOnce(notices: seq<Notice>, ok: bool) {
    if ok then notices != [] && notices[|notices| - 1] == AllDone && AllDone !in notices[..|notices| - 1]
    else AllDone !in notices
  }

  /** The final notice is sent once and last, or not at all if a stream failed. */
  lemma DoneLast(s: Setting, w: World)
    ensures DoneOnce(ChatNotices(s, w), Rounds(w, 0) == MAX_ROUNDS || w.reply(Rounds(w, 0)).Said?)
  {
    var all, rest := AllNotices(s, w, Rounds(w, 0)), ChatRest(w);
    NoneDone(s, w, Rounds(w, 0));
    hide AllNotices, Rounds;
    assert rest != [] && rest[|rest| - 1] == AllDone ==> (all + rest)[..|all + rest| - 1] == all + rest[..|rest| - 1];
  }

  /** From `k` on the notices are about this call: with its pending id exactly if it is gated, then with its result. */
  ghost predicate ToldAt(s: Setting, call: ToolCall, content: string, notices: seq<Notice>, k: nat) {
    if Gated(s, call) then
      && k + 1 < |notices| && notices[k] == ConfirmRequired(PendingID(call))
      && notices[k + 1] == Result(call.id, call.name, content)
    else k < |notices| && notices[k] == Result(call.id, call.name, content)
  }

  /** How many notices one call needs. */
  function Told(s: Setting, call: ToolCall): nat { if Gated(s, call) then 2 else 1 }

  function ToldBefore(s: Setting, calls: seq<ToolCall>, n: nat): nat
    requires n <= |calls|
  {
    if n == 0 then 0 else ToldBefore(s, calls, n - 1) + Told(s, calls[n - 1])
  }

  lemma OneTold(s: Setting, w: World, round: nat, index: nat, call: ToolCall)
    ensures var content := Content(s, call, w.decide(round, index), w.output(round, index));
            ToldAt(s, call, content, CallNotices(s, w, round, index, call), 0)
    ensures |CallNotices(s, w, round, index, call)| == Told(s, call)
  {
    hide Gated, Content;
  }

  lemma ToldLater(s: Setting, call: ToolCall, content: string, before: seq<Notice>, last: seq<Notice>, k: nat)
    requires ToldAt(s, call, content, last, k)
    ensures ToldAt(s, call, content, before + last, |before| + k)
  {
    hide Gated;
  }

  lemma ToldSooner(s: Setting, call: ToolCall, content: string, before: seq<Notice>, last: seq<Notice>, k: nat)
    requires ToldAt(s, call, content, before, k)
    ensures ToldAt(s, call, content, before + last, k)
  {
    hide Gated;
  }

  function ResultOf(s: Setting, w: World, round: nat, index: nat, call: ToolCall): string {
    Content(s, call, w.decide(round, index), w.output(round, index))
  }

  lemma {:induction false} RoundLength(s: Setting, w: World, round: nat, calls: seq<ToolCall>, n: nat)
    requires n <= |calls|
    ensures |RoundNotices(s, w, round, calls, n)| == ToldBefore(s, calls, n)
  {
    if n > 0 {
      RoundLength(s, w, round, calls, n - 1);
      OneTold(s, w, round, n - 1, calls[n - 1]);
      hide CallNotices, Told;
    }
  }

  /**
   * The notices of a round are about its calls, one by one in order, and nothing else: for each call the request for
   * confirmation exactly if it is gated, and right behind it the result.
   */
  lemma {:induction false} RoundTells(s: Setting, w: World, round: nat, calls: seq<ToolCall>, n: nat, i: nat)
    requires i < n <= |calls|
    ensures ToldAt(s, calls[i], ResultOf(s, w, round, i, calls[i]), RoundNotices(s, w, round, calls, n),
                   ToldBefore(s, calls, i))
  {
    var before, last := RoundNotices(s, w, round, calls, n - 1), CallNotices(s, w, round, n - 1, calls[n - 1]);
    var content := ResultOf(s, w, round, i, calls[i]);
    assert RoundNotices(s, w, round, calls, n) == before + last;
    OneTold(s, w, round, n - 1, calls[n - 1]);
    assert i == n - 1 ==> ToldAt(s, calls[i], content, last, 0);
    RoundLength(s, w, round, calls, n - 1);
    hide *;
    if i == n - 1 {
      ToldLater(s, calls[i], content, before, last, 0);
    } else {
      RoundTells(s, w, round, calls, n - 1, i);
      ToldSooner(s, calls[i], content, before, last, ToldBefore(s, calls, i));
    }
  }

  /** The place of the streamed reply of round `r` among all notices. */
  function RoundStart(s: Setting, w: World, r: nat): nat {
    if r == 0 then 0 else RoundStart(s, w, r - 1) + 1 + ToldBefore(s, CallsOf(w, r - 1), |CallsOf(w, r - 1)|)
  }

  lemma {:induction false} AllLength(s: Setting, w: World, n: nat)
    ensures |AllNotices(s, w, n)| == RoundStart(s, w, n)
  {
    if n > 0 {
      AllLength(s, w, n - 1);
      RoundLength(s, w, n - 1, CallsOf(w, n - 1), |CallsOf(w, n - 1)|);
      hide CallsOf, RoundNotices, ToldBefore;
    }
  }

  lemma RoundAt(s: Setting, w: World, r: nat, i: nat)
    requires i < |CallsOf(w, r)|
    ensures var call := CallsOf(w, r)[i];
            ToldAt(s, call, ResultOf(s, w, r, i, call), RoundAll(s, w, r), 1 + ToldBefore(s, CallsOf(w, r), i))
  {
    var calls := CallsOf(w, r);
    RoundTells(s, w, r, calls, |calls|, i);
    hide ToldAt, ResultOf, RoundNotices, CallsOf, ToldBefore;
    ToldLater(s, calls[i], ResultOf(s, w, r, i, calls[i]), [Streamed(w.reply(r))],
              RoundNotices(s, w, r, calls, |calls|), ToldBefore(s, calls, i));
  }

  /** The place of the first notice about call `i` of round `r`. */
  function PlaceOf(s: Setting, w: World, r: nat, i: nat): nat
    requires i < |CallsOf(w, r)|
  {
    RoundStart(s, w, r) + (1 + ToldBefore(s, CallsOf(w, r), i))
  }

  /** The notices say about call `i` of round `r`, from place `k` on, what they should. */
  ghost predicate Tells(s: Setting, w: World, r: nat, i: nat, notices: seq<Notice>, k: nat)
    requires i < |CallsOf(w, r)|
  {
    ToldAt(s, CallsOf(w, r)[i], ResultOf(s, w, r, i, CallsOf(w, r)[i]), notices, k)
  }

  lemma TellsJoined(s: Setting, w: World, r: nat, i: nat, before: seq<Notice>, last: seq<Notice>, k: nat)
    requires i < |CallsOf(w, r)|
    ensures Tells(s, w, r, i, before, k) ==> Tells(s, w, r, i, before + last, k)
    ensures Tells(s, w, r, i, last, k) ==> Tells(s, w, r, i, before + last, |before| + k)
  {
    hide ToldAt, ResultOf, CallsOf;
    var call := CallsOf(w, r)[i];
    if ToldAt(s, call, ResultOf(s, w, r, i, call), before, k) {
      ToldSooner(s, call, ResultOf(s, w, r, i, call), before, last, k);
    }
    if ToldAt(s, call, ResultOf(s, w, r, i, call), last, k) {
      ToldLater(s, call, ResultOf(s, w, r, i, call), before, last, k);
    }
  }

  lemma RoundTold(s: Setting, w: World, r: nat, i: nat)
    requires i < |CallsOf(w, r)|
    ensures Tells(s, w, r, i, RoundAll(s, w, r), 1 + ToldBefore(s, CallsOf(w, r), i))
  {
    RoundAt(s, w, r, i);
    hide ToldAt, RoundAll;
  }

  lemma AllStep(s: Setting, w: World, n: nat)
    requires n > 0
    ensures AllNotices(s, w, n) == AllNotices(s, w, n - 1) + RoundAll(s, w, n - 1)
  {
    hide RoundAll;
  }

  lemma PlaceLast(s: Setting, w: World, r: nat, i: nat)
    requires i < |CallsOf(w, r)|
    ensures PlaceOf(s, w, r, i) == |AllNotices(s, w, r)| + (1 + ToldBefore(s, CallsOf(w, r), i))
  {
    hide AllNotices, RoundStart, ToldBefore;
    AllLength(s, w, r);
  }

  lemma {:induction false} AllTell(s: Setting, w: World, n: nat, r: nat, i: nat)
    requires r < n && i < |CallsOf(w, r)|
    ensures Tells(s, w, r, i, AllNotices(s, w, n), PlaceOf(s, w, r, i))
  {
    hide *;
    var before, last := AllNotices(s, w, n - 1), RoundAll(s, w, n - 1);
    AllStep(s, w, n);
    PlaceLast(s, w, r, i);
    if r == n - 1 {
      RoundTold(s, w, r, i);
      TellsJoined(s, w, r, i, before, last, 1 + ToldBefore(s, CallsOf(w, r), i));
    } else {
      AllTell(s, w, n - 1, r, i);
      TellsJoined(s, w, r, i, before, last, PlaceOf(s, w, r, i));
    }
  }

  /**
   * In the notices of a whole conversation: the user is asked about call `i` of round `r` exactly if it is gated, and
   * right behind that told its result.
   */
  lemma CallTold(s: Setting, w: World, r: nat, i: nat)
    requires r < Rounds(w, 0) && i < |CallsOf(w, r)|
    ensures Tells(s, w, r, i, ChatNotices(s, w), PlaceOf(s, w, r, i))
  {
    hide *;
    ChatIs(s, w);
    AllTell(s, w, Rounds(w, 0), r, i);
    TellsJoined(s, w, r, i, AllNotices(s, w, Rounds(w, 0)), ChatRest(w), PlaceOf(s, w, r, i));
  }

  lemma ChatIs(s: Setting, w: World)
    ensures ChatNotices(s, w) == AllNotices(s, w, Rounds(w, 0)) + ChatRest(w)
  {
  }

  /** The result that the user is told is the content of the call's message in the transcript. */
  lemma ContentOf(s: Setting, w: World, r: nat, i: nat)
    requires i < |CallsOf(w, r)|
    ensures |Results(s, w, r, CallsOf(w, r))| == |CallsOf(w, r)|
    ensures var m := Results(s, w, r, CallsOf(w, r))[i];
            m.ToolResult? && m.content == ResultOf(s, w, r, i, CallsOf(w, r)[i])
  {
    hide Content;
  }

  /** The messages of one round. */
  function Exchange(s: Setting, w: World, round: nat): seq<Message>
    requires AsksForTools(w.reply(round))
  {
    [Assistant(w.reply(round).text, w.reply(round).calls)] + Results(s, w, round, w.reply(round).calls)
  }

  function Exchanges(s: Setting, w: World, n: nat): seq<Message>
    requires forall r: nat | r < n :: AsksForTools(w.reply(r))
  {
    if n == 0 then [] else Exchanges(s, w, n - 1) + Exchange(s, w, n - 1)
  }

  lemma ExchangePaired(s: Setting, w: World, round: nat)
    requires AsksForTools(w.reply(round))
    ensures WellPaired(Exchange(s, w, round))
  {
    var e := Exchange(s, w, round);
    assert e[1 + |e[0].calls|..] == [];
  }

  /** Whatever the model says and the user decides, the transcript is well paired. */
  lemma {:induction false} TranscriptPaired(s: Setting, w: World, n: nat)
    requires forall r: nat | r < n :: AsksForTools(w.reply(r))
    ensures WellPaired(Exchanges(s, w, n))
  {
    if n > 0 {
      TranscriptPaired(s, w, n - 1);
      ExchangePaired(s, w, n - 1);
      PairedConcat(Exchanges(s, w, n - 1), Exchange(s, w, n - 1));
    }
  }

  /** All that is said, with the last reply if it asks for no tools. */
  function AllText(w: World, n: nat): string
    requires forall r: nat | r < n :: w.reply(r).Said?
  {
    if n == 0 then "" else AllText(w, n - 1) + w.reply(n - 1).text
  }

  /** What the assistant says in a transcript, in order. */
  function Spoken(ms: seq<Message>): string {
    if ms == [] then "" else (if ms[0].Assistant? then ms[0].content else "") + Spoken(ms[1..])
  }

  lemma {:induction false} SpokenConcat(a: seq<Message>, b: seq<Message>)
    ensures Spoken(a + b) == Spoken(a) + Spoken(b)
  {
    if a == [] {
      assert a + b == b;
    } else {
      assert (a + b)[1..] == a[1..] + b;
      SpokenConcat(a[1..], b);
    }
  }

  lemma {:induction false} ResultsSilent(ms: seq<Message>)
    requires forall m | m in ms :: m.ToolResult?
    ensures Spoken(ms) == ""
  {
    if ms != [] {
      assert ms[0].ToolResult?;
      ResultsSilent(ms[1..]);
    }
  }

  lemma ExchangeText(s: Setting, w: World, r: nat)
    requires AsksForTools(w.reply(r))
    ensures Spoken(Exchange(s, w, r)) == w.reply(r).text
  {
    var reply := w.reply(r);
    var results := Results(s, w, r, reply.calls);
    ResultsSilent(results);
    SaidFirst(reply.text, reply.calls, results);
  }

  lemma SaidFirst(text: string, calls: seq<ToolCall>, results: seq<Message>)
    ensures Spoken([Assistant(text, calls)] + results) == text + Spoken(results)
  {
    assert ([Assistant(text, calls)] + results)[1..] == results;
  }

  /** The text returned is what the assistant says in the transcript of the rounds. */
  lemma {:induction false} TranscriptText(s: Setting, w: World, n: nat)
    requires forall r: nat | r < n :: AsksForTools(w.reply(r))
    ensures (forall r: nat | r < n :: w.reply(r).Said?) && AllText(w, n) == Spoken(Exchanges(s, w, n))
  {
    if n > 0 {
      TranscriptText(s, w, n - 1);
      ExchangeText(s, w, n - 1);
      SpokenConcat(Exchanges(s, w, n - 1), Exchange(s, w, n - 1));
      hide Exchange, Spoken, Rounds;
    }
  }

  /** The text of a conversation that no stream failure ends. */
  function FullText(w: World): string
    requires Rounds(w, 0) == MAX_ROUNDS || w.reply(Rounds(w, 0)).Said?
  {
    AllText(w, Rounds(w, 0) + if Rounds(w, 0) < MAX_ROUNDS then 1 else 0)
  }

  /** The run was asked for in its round, and was allowed to happen. */
  ghost predicate Allowed(s: Setting, w: World, r: Run, rounds: nat) {
    && r.round < rounds && w.reply(r.round).Said? && r.index < |w.reply(r.round).calls|
    && r.call == w.reply(r.round).calls[r.index]
    && MayRun(s, r.call, w.decide(r.round, r.index))
  }

  ghost predicate Before(a: Run, b: Run) {
    a.round < b.round || (a.round == b.round && a.index < b.index)
  }

  /** The runs of the first `n` rounds: exactly the allowed ones, each once and in order. */
  ghost predicate RunsAre(s: Setting, w: World, n: nat, runs: seq<Run>) {
    && (forall k | 0 <= k < |runs| :: Allowed(s, w, runs[k], n))
    && (forall j, k | 0 <= j < k < |runs| :: Before(runs[j], runs[k]))
    && (forall r | Allowed(s, w, r, n) :: r in runs)
  }

  lemma RunsOneRound(s: Setting, w: World, n: nat, runs: seq<Run>, more: seq<Run>)
    requires RunsAre(s, w, n, runs) && AsksForTools(w.reply(n))
    requires RanExactly(s, w, n, w.reply(n).calls, |w.reply(n).calls|, more)
    ensures RunsAre(s, w, n + 1, runs + more)
  {
    hide MayRun;
    var all := runs + more;
    forall r | Allowed(s, w, r, n + 1) ensures r in all {
      if r.round < n {
        assert Allowed(s, w, r, n) && r in runs;
      } else {
        assert r == Run(n, r.index, w.reply(n).calls[r.index]) && r in more;
      }
    }
    forall k | 0 <= k < |all| ensures Allowed(s, w, all[k], n + 1) {
      if k < |runs| { assert Allowed(s, w, runs[k], n); } else { assert all[k] == more[k - |runs|]; }
    }
    forall j, k | 0 <= j < k < |all| ensures Before(all[j], all[k]) {
      if k < |runs| {
        assert Before(runs[j], runs[k]);
      } else if j < |runs| {
        assert Allowed(s, w, runs[j], n) && all[k] == more[k - |runs|];
      } else {
        assert all[j] == more[j - |runs|] && all[k] == more[k - |runs|];
      }
    }
  }

  lemma ResultsAre(s: Setting, w: World, round: nat, calls: seq<ToolCall>, results: seq<Message>)
    requires |results| == |calls| && Answered(s, w, round, calls, results)
    ensures results == Results(s, w, round, calls)
  {
  }

  // ---------------------------------------------------------------------------------------------
  // Together with the pending confirmations
  // ---------------------------------------------------------------------------------------------

  predicate NeedsConfirmation(s: Setting, call: ToolCall) {
    call.name in s.tools && s.tools[call.name].needsConfirmation
  }

  /** A call, by its round and its index there. */
  datatype Place = Place(round: nat, index: nat)

  /** The gate was registered by the user of the conversation under the id of the call, and came to `decision`. */
  ghost predicate AtGate(s: Setting, call: ToolCall, gate: Confirmations.Gate, decision: bool) {
    gate.user == s.user && gate.id == PendingID(call) && gate.status == Confirmations.Finished(decision)
  }

  /** The decisions of the conversation are those that its gates came to, each gated call having its own. */
  ghost predicate DecidedAt(s: Setting, w: World, n: nat, sys: Confirmations.System, gateOf: map<Place, nat>) {
    && (forall p, q | p in gateOf && q in gateOf && gateOf[p] == gateOf[q] :: p == q)
    && forall r: nat, i: nat | r < n && w.reply(r).Said? && i < |w.reply(r).calls| && Gated(s, w.reply(r).calls[i]) ::
         var p := Place(r, i);
         p in gateOf && gateOf[p] < |sys.gates| && AtGate(s, w.reply(r).calls[i], sys.gates[gateOf[p]], w.decide(r, i))
  }

  /** The gate of the call was answered with yes, on its own channel and by the user of the conversation. */
  ghost predicate ApprovedAt(s: Setting, sys: Confirmations.System, gateOf: map<Place, nat>, r: Run) {
    var p := Place(r.round, r.index);
    p in gateOf &&
    exists k :: 0 <= k < |sys.answers| && sys.answers[k] == Confirmations.Answer(s.user, gateOf[p], true, true)
  }

  /**
   * Both protocols together, in every interleaving of registrations, answers, deliveries and cancellations: no
   * tool for admins runs without that role, and no tool that needs confirmation without a yes from its user.
   */
  lemma RunsAreApproved(s: Setting, w: World, n: nat, runs: seq<Run>, acts: seq<Confirmations.Action>,
      gateOf: map<Place, nat>, k: nat)
    requires RunsAre(s, w, n, runs) && k < |runs|
    requires Confirmations.Legal(Confirmations.START, acts)
    requires DecidedAt(s, w, n, Confirmations.Run(Confirmations.START, acts), gateOf)
    ensures runs[k].call.name in s.tools && s.tools[runs[k].call.name].adminOnly ==>
              s.role == "admin" || s.role == "owner"
    ensures NeedsConfirmation(s, runs[k].call) ==>
              ApprovedAt(s, Confirmations.Run(Confirmations.START, acts), gateOf, runs[k])
  {
    var sys := Confirmations.Run(Confirmations.START, acts);
    var r := runs[k];
    assert Allowed(s, w, r, n);
    if NeedsConfirmation(s, r.call) {
      assert Gated(s, r.call) && w.decide(r.round, r.index);
      var g := gateOf[Place(r.round, r.index)];
      Confirmations.OnlyTheOwnerApproves(acts, g);
      var a: nat :| Confirmations.IsApproval(sys, a, g);
      assert sys.answers[a] == Confirmations.Answer(s.user, g, true, true);
    }
  }

  /** A gated call runs exactly if its gate came to a yes. */
  lemma GatedRunsIff(s: Setting, w: World, n: nat, runs: seq<Run>, sys: Confirmations.System,
      gateOf: map<Place, nat>, p: Place)
    requires RunsAre(s, w, n, runs) && DecidedAt(s, w, n, sys, gateOf)
    requires p.round < n && w.reply(p.round).Said? && p.index < |w.reply(p.round).calls|
    requires Gated(s, w.reply(p.round).calls[p.index])
    ensures p in gateOf && gateOf[p] < |sys.gates|
    ensures Run(p.round, p.index, w.reply(p.round).calls[p.index]) in runs <==>
              sys.gates[gateOf[p]].status == Confirmations.Finished(true)
  {
    var r := Run(p.round, p.index, w.reply(p.round).calls[p.index]);
    assert p == Place(r.round, r.index);
    assert AtGate(s, r.call, sys.gates[gateOf[p]], w.decide(p.round, p.index));
    if r in runs {
      var k :| 0 <= k < |runs| && runs[k] == r;
      assert Allowed(s, w, runs[k], n);
    }
    if w.decide(p.round, p.index) {
      assert Allowed(s, w, r, n);
    }
  }

  class Service {
    /** Who may resolve which pending confirmation. */
    var pendingConfirms: map<string, nat>

    constructor ()
      ensures pendingConfirms == map[]
    {
      pendingConfirms := map[];
    }

    /** Waits for the user; the entry is there while the call waits and gone afterwards. */
    method Confirm(s: Setting, call: ToolCall, decision: bool) returns (approved: bool, notice: Notice)
      modifies this
      ensures approved == decision && notice == ConfirmRequired(PendingID(call))
      ensures pendingConfirms == old(pendingConfirms) - {PendingID(call)}
    {
      var id := PendingID(call);
      pendingConfirms := pendingConfirms[id := s.user];
      notice := ConfirmRequired(id);
      approved := decision;
      pendingConfirms := pendingConfirms - {id};
    }

    method HandleCall(s: Setting, w: World, round: nat, index: nat, call: ToolCall)
      returns (message: Message, notices: seq<Notice>, ran: bool)
      modifies this
      ensures message ==
              ToolResult(Content(s, call, w.decide(round, index), w.output(round, index)), call.id, call.name)
      ensures ran <==> MayRun(s, call, w.decide(round, index))
      ensures notices == CallNotices(s, w, round, index, call)
      ensures notices[|notices| - 1] == Result(call.id, call.name, message.content)
      ensures pendingConfirms == old(pendingConfirms) - if Gated(s, call) then {PendingID(call)} else {}
    {
      notices, ran := [], false;
      var content;
      var tool := if call.name in s.tools then Some(s.tools[call.name]) else None;
      if tool.Some? && tool.value.adminOnly && s.role != "admin" && s.role != "owner" {
        content := DENIED;
      } else {
        var approved := true;
        if tool.Some? && tool.value.needsConfirmation {
          var notice;
          approved, notice := Confirm(s, call, w.decide(round, index));
          notices := [notice];
        }
        if approved {
          ran := true;
          content := w.output(round, index);
        } else {
          content := REJECTED;
        }
      }
      message := ToolResult(content, call.id, call.name);
      notices := notices + [Result(call.id, call.name, content)];
    }

    method HandleCalls(s: Setting, w: World, round: nat, calls: seq<ToolCall>)
      returns (results: seq<Message>, notices: seq<Notice>, runs: seq<Run>)
      modifies this
      ensures |results| == |calls| && Answered(s, w, round, calls, results)
      ensures RanExactly(s, w, round, calls, |calls|, runs)
      ensures forall id | id in pendingConfirms :: id in old(pendingConfirms)
      ensures forall c | c in calls && Gated(s, c) :: PendingID(c) !in pendingConfirms
      ensures notices == RoundNotices(s, w, round, calls, |calls|)
    {
      results, notices, runs := [], [], [];
      assert RoundNotices(s, w, round, calls, 0) == [];
      hide Content, RanExactly, Answered, RoundNotices, CallNotices, MayRun, Gated, PendingID;
      NoneYet(s, w, round, calls);
      for i := 0 to |calls|
        invariant |results| == i && Answered(s, w, round, calls, results)
        invariant RanExactly(s, w, round, calls, i, runs)
        invariant forall id | id in pendingConfirms :: id in old(pendingConfirms)
        invariant forall j | 0 <= j < i && Gated(s, calls[j]) :: PendingID(calls[j]) !in pendingConfirms
        invariant notices == RoundNotices(s, w, round, calls, i)
      {
        var message, more, ran := HandleCall(s, w, round, i, calls[i]);
        AnsweredMore(s, w, round, calls, results, message);
        RoundMore(s, w, round, calls, i);
        results := results + [message];
        notices := notices + more;
        ghost var before := runs;
        if ran {
          runs := runs + [Run(round, i, calls[i])];
        }
        RanOneMore(s, w, round, calls, i, before, runs);
      }
    }

    /** The tool calls of one round. */
    method PlayRound(s: Setting, w: World, round: nat, transcript0: seq<Message>, notices0: seq<Notice>,
        runs0: seq<Run>, ghost history: seq<Message>)
      returns (transcript: seq<Message>, notices: seq<Notice>, runs: seq<Run>)
      requires forall r: nat | r <= round :: AsksForTools(w.reply(r))
      requires transcript0 == history + Exchanges(s, w, round) && RunsAre(s, w, round, runs0)
      requires notices0 == AllNotices(s, w, round) + [Streamed(w.reply(round))]
      requires AllUnpending(s, w, round, pendingConfirms)
      modifies this
      ensures transcript == history + Exchanges(s, w, round + 1) && RunsAre(s, w, round + 1, runs)
      ensures notices == AllNotices(s, w, round + 1)
      ensures AllUnpending(s, w, round + 1, pendingConfirms)
    {
      hide RunsAre, RanExactly, Answered, AllNotices, RoundNotices, Exchanges;
      var reply := w.reply(round);
      var results, more, runs1;
      ghost var before := pendingConfirms;
      results, more, runs1 := HandleCalls(s, w, round, reply.calls);
      ResultsAre(s, w, round, reply.calls, results);
      RunsOneRound(s, w, round, runs0, runs1);
      AllMore(s, w, round);
      StayUnpending(s, w, round, before, pendingConfirms);
      runs := runs0 + runs1;
      notices := notices0 + more;
      transcript := transcript0 + [Assistant(reply.text, reply.calls)] + results;
      ExchangesGrow(s, w, history, round);
    }

    /** `ok` is false when a stream failed; nothing more is sent then, not even the final notice. */
    method ChatWithTools(s: Setting, w: World, history: seq<Message>)
      returns (ok: bool, transcript: seq<Message>, notices: seq<Notice>, runs: seq<Run>, text: string)
      modifies this
      ensures ok <==> Rounds(w, 0) == MAX_ROUNDS || w.reply(Rounds(w, 0)).Said?
      ensures transcript == history + Exchanges(s, w, Rounds(w, 0))
      ensures RunsAre(s, w, Rounds(w, 0), runs)
      ensures ok ==> text == FullText(w)
      ensures notices == ChatNotices(s, w) && DoneOnce(notices, ok)
      ensures AllUnpending(s, w, Rounds(w, 0), pendingConfirms)
    {
      hide RunsAre, Exchanges, AllUnpending, AllText, FullText, Rounds, AllNotices, ChatNotices, DoneOnce;
      transcript, notices, runs, text := history, [], [], "";
      ghost var n := Rounds(w, 0);
      NothingYet(s, w, history, pendingConfirms);
      DoneLast(s, w);
      ChatEnds(s, w);
      var round := 0;
      while round < MAX_ROUNDS
        invariant 0 <= round <= n && Rounds(w, round) == n
        invariant transcript == history + Exchanges(s, w, round)
        invariant RunsAre(s, w, round, runs)
        invariant text == AllText(w, round)
        invariant notices == AllNotices(s, w, round)
        invariant AllUnpending(s, w, round, pendingConfirms)
      {
        var reply := w.reply(round);
        notices := notices + [Streamed(reply)];
        RoundsStep(w, round);
        if reply.Failed? {
          return false, transcript, notices, runs, text;
        }
        AllTextStep(w, round);
        text := text + reply.text;
        if |reply.calls| == 0 {
          notices := notices + [AllDone];
          return true, transcript, notices, runs, text;
        }
        transcript, notices, runs := PlayRound(s, w, round, transcript, notices, runs, history);
        round := round + 1;
      }
      RoundsStep(w, round);
      AllTextFull(w);
      notices := notices + [AllDone];
      return true, transcript, notices, runs, text;
    }
  }

  lemma NoneYet(s: Setting, w: World, round: nat, calls: seq<ToolCall>)
    ensures Answered(s, w, round, calls, []) && RanExactly(s, w, round, calls, 0, [])
  {
  }

  lemma AnsweredMore(s: Setting, w: World, round: nat, calls: seq<ToolCall>, results: seq<Message>, m: Message)
    requires Answered(s, w, round, calls, results) && |results| < |calls|
    requires var i := |results|;
             m == ToolResult(Content(s, calls[i], w.decide(round, i), w.output(round, i)), calls[i].id, calls[i].name)
    ensures Answered(s, w, round, calls, results + [m])
  {
    hide Content;
  }

  lemma RoundMore(s: Setting, w: World, round: nat, calls: seq<ToolCall>, i: nat)
    requires i < |calls|
    ensures RoundNotices(s, w, round, calls, i + 1) ==
            RoundNotices(s, w, round, calls, i) + CallNotices(s, w, round, i, calls[i])
  {
    hide CallNotices;
  }

  lemma ChatEnds(s: Setting, w: World)
    ensures
      var n := Rounds(w, 0);
      var all := AllNotices(s, w, n);
      && (n == MAX_ROUNDS ==> ChatNotices(s, w) == all + [AllDone])
      && (n < MAX_ROUNDS && w.reply(n).Failed? ==> ChatNotices(s, w) == all + [Streamed(w.reply(n))])
      && (n < MAX_ROUNDS && w.reply(n).Said? ==> ChatNotices(s, w) == all + [Streamed(w.reply(n))] + [AllDone])
  {
    hide AllNotices;
  }

  lemma AllMore(s: Setting, w: World, round: nat)
    requires AsksForTools(w.reply(round))
    ensures var calls := w.reply(round).calls;
            AllNotices(s, w, round + 1) ==
            AllNotices(s, w, round) + [Streamed(w.reply(round))] + RoundNotices(s, w, round, calls, |calls|)
  {
    hide RoundNotices;
  }

  lemma RoundsStep(w: World, round: nat)
    requires round <= MAX_ROUNDS
    ensures Rounds(w, round) ==
            if round == MAX_ROUNDS || !AsksForTools(w.reply(round)) then round else Rounds(w, round + 1)
  {
  }

  lemma AllTextStep(w: World, round: nat)
    requires round < MAX_ROUNDS && Rounds(w, 0) >= round && w.reply(round).Said?
    ensures AllText(w, round + 1) == AllText(w, round) + w.reply(round).text
    ensures Rounds(w, 0) == round ==> FullText(w) == AllText(w, round + 1)
  {
  }

  lemma AllTextFull(w: World)
    requires Rounds(w, 0) == MAX_ROUNDS
    ensures FullText(w) == AllText(w, MAX_ROUNDS)
  {
  }

  /** No confirmation is pending for any of the calls. */
  ghost predicate NonePending(s: Setting, calls: seq<ToolCall>, pending: map<string, nat>) {
    forall c | c in calls && Gated(s, c) :: PendingID(c) !in pending
  }

  /** Nor for any call of the first `n` rounds. */
  ghost predicate AllUnpending(s: Setting, w: World, n: nat, pending: map<string, nat>) {
    forall r: nat | r < n :: NonePending(s, CallsOf(w, r), pending)
  }

  lemma StaysUnpending(s: Setting, calls: seq<ToolCall>, before: map<string, nat>, after: map<string, nat>)
    requires NonePending(s, calls, before) && forall id | id in after :: id in before
    ensures NonePending(s, calls, after)
  {
  }

  lemma StayUnpending(s: Setting, w: World, n: nat, before: map<string, nat>, after: map<string, nat>)
    requires AllUnpending(s, w, n, before) && forall id | id in after :: id in before
    requires NonePending(s, CallsOf(w, n), after)
    ensures AllUnpending(s, w, n + 1, after)
  {
    forall r: nat | r < n ensures NonePending(s, CallsOf(w, r), after) {
      StaysUnpending(s, CallsOf(w, r), before, after);
    }
  }

  lemma NothingYet(s: Setting, w: World, history: seq<Message>, pending: map<string, nat>)
    ensures history == history + Exchanges(s, w, 0) && RunsAre(s, w, 0, []) && AllText(w, 0) == ""
    ensures AllNotices(s, w, 0) == [] && AllUnpending(s, w, 0, pending)
  {
  }

  lemma ExchangesGrow(s: Setting, w: World, history: seq<Message>, round: nat)
    requires forall r: nat | r <= round :: AsksForTools(w.reply(r))
    ensures var reply := w.reply(round);
            history + Exchanges(s, w, round + 1) ==
            history + Exchanges(s, w, round) + [Assistant(reply.text, reply.calls)] + Results(s, w, round, reply.calls)
  {
    var e := Exchanges(s, w, round);
    var a, r := [Assistant(w.reply(round).text, w.reply(round).calls)], Results(s, w, round, w.reply(round).calls);
    assert Exchanges(s, w, round + 1) == e + (a + r);
    assert history + (e + (a + r)) == history + e + a + r;
  }
}
