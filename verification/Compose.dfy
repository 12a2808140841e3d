/** plugins/appstore/renderer.go: the line scanner that adds `label=disable` to every compose
    service that mounts the container engine's socket. */
module Compose {
  import opened Text
  import opened Optional

  // ---------------------------------------------------------------------------------------------
  // What the scanner looks at in one line
  // ---------------------------------------------------------------------------------------------

  datatype Line = Line(
    indent: nat,         // leading blanks and tabs
    blank: bool,
    comment: bool,
    headerShape: bool,   // a single key followed by ':' (an inline comment may follow)
    services: bool,      // "services:"
    volumes: bool,       // "volumes:"
    securityOpt: bool,   // "security_opt:"
    socket: bool,        // mentions docker.sock or podman.sock
    item: bool,          // starts with "- "
    labelDisable: bool)  // as an item, reads label=disable

  predicate HeaderShape(trimmed: string) {
    var code := if '#' in trimmed then TrimSpace(trimmed[..IndexOf(trimmed, '#')]) else trimmed;
    && HasSuffix(code, ":")
    && var key := code[..|code| - 1];
       key != "" && ' ' !in key && '\t' !in key
  }

  predicate IsQuote(c: char) { c == '"' || c == '\'' }

  function TrimQuotesLeft(s: string): string {
    if s != "" && IsQuote(s[0]) then TrimQuotesLeft(s[1..]) else s
  }

  function TrimQuotesRight(s: string): string {
    if s != "" && IsQuote(s[|s| - 1]) then TrimQuotesRight(s[..|s| - 1]) else s
  }

  function TrimQuotes(s: string): string {
    TrimQuotesRight(TrimQuotesLeft(s))
  }

  predicate IsLabelDisable(trimmed: string) {
    TrimQuotes(TrimSpace(TrimPrefix(trimmed, "- "))) == "label=disable"
  }

  predicate MentionsSocket(trimmed: string) {
    Contains(trimmed, "docker.sock") || Contains(trimmed, "podman.sock")
  }

  function Classify(line: string): Line {
    var t := TrimSpace(line);
    Line(Indent(line), t == "", HasPrefix(t, "#"), HeaderShape(t), t == "services:", t == "volumes:",
         t == "security_opt:", MentionsSocket(t), HasPrefix(t, "- "), IsLabelDisable(t))
  }

  /** A line the scanner reacts to is never blank or a comment. */
  ghost predicate Visible(l: Line) {
    l.services || l.volumes || l.securityOpt || l.item ==> !l.blank && !l.comment
  }

  lemma ClassifyVisible(line: string)
    ensures Visible(Classify(line))
  {
    TrimmedVisible(TrimSpace(line));
  }

  lemma TrimmedVisible(t: string)
    ensures t == "services:" || t == "volumes:" || t == "security_opt:" || HasPrefix(t, "- ")
            ==> t != "" && !HasPrefix(t, "#")
  {
    if HasPrefix(t, "- ") {
      assert t[0] == "- "[0];
    }
    if HasPrefix(t, "#") {
      assert t[0] == "#"[0];
    }
  }

  // ---------------------------------------------------------------------------------------------
  // Phase 1: the scan that segments the document into services
  // ---------------------------------------------------------------------------------------------

  datatype Svc = Svc(start: int, end: int, indent: nat, mountsSock: bool,
                     secOptIndex: int, secOptIndent: nat, listItemIndent: int, hasLabelDisable: bool)

  function NewSvc(start: int, indent: nat): Svc {
    Svc(start, 0, indent, false, -1, 0, -1, false)
  }

  datatype State = State(servicesIndent: int, svcs: seq<Svc>, cur: Option<Svc>,
                         inVolumes: bool, volIndent: int, inSecOpt: bool)

  const Initial := State(-1, [], None, false, -1, false)

  function Close(st: State, end: int): seq<Svc> {
    if st.cur.Some? then st.svcs + [st.cur.value.(end := end)] else st.svcs
  }

  predicate IsServiceHeader(st: State, l: Line) {
    && st.servicesIndent >= 0 && l.indent > st.servicesIndent
    && l.headerShape
    && (st.cur.Some? ==> l.indent == st.cur.value.indent)
  }

  function Step(st: State, i: int, l: Line): State {
    if st.servicesIndent < 0 then
      if l.services then st.(servicesIndent := l.indent) else st
    else if IsServiceHeader(st, l) then
      State(st.servicesIndent, Close(st, i - 1), Some(NewSvc(i, l.indent)), false, -1, false)
    else if st.cur.None? then
      st
    else if !l.blank && !l.comment && l.indent <= st.servicesIndent then
      st.(servicesIndent := -1, svcs := Close(st, i - 1), cur := None)
    else
      StepInside(st, i, l)
  }

  /** One line of a service body: the volumes block, then the security_opt block. */
  function StepInside(st: State, i: int, l: Line): State
    requires st.cur.Some?
  {
    if l.volumes then
      st.(inVolumes := true, volIndent := l.indent, inSecOpt := false)
    else
      var inVolumes := st.inVolumes && (l.blank || l.indent > st.volIndent);
      var c := if inVolumes && l.socket then st.cur.value.(mountsSock := true) else st.cur.value;
      if l.securityOpt then
        st.(cur := Some(c.(secOptIndex := i, secOptIndent := l.indent)), inSecOpt := true, inVolumes := false)
      else if st.inSecOpt && !l.blank && l.indent <= c.secOptIndent then
        st.(cur := Some(c), inVolumes := inVolumes, inSecOpt := false)
      else if st.inSecOpt && l.item then
        var c' := if c.listItemIndent < 0 then c.(listItemIndent := l.indent) else c;
        st.(cur := Some(if l.labelDisable then c'.(hasLabelDisable := true) else c'), inVolumes := inVolumes)
      else
        st.(cur := Some(c), inVolumes := inVolumes)
  }

  function Scan(ls: seq<Line>, i: int, st: State): State
    decreases |ls|
  {
    if ls == [] then st else Scan(ls[1..], i + 1, Step(st, i, ls[0]))
  }

  function Final(ls: seq<Line>, k: int, st: State): seq<Svc> {
    Close(Scan(ls, k, st), k + |ls| - 1)
  }

  function Map<A, B>(f: A -> B, xs: seq<A>): (ys: seq<B>)
    ensures |ys| == |xs| && forall i | 0 <= i < |xs| :: ys[i] == f(xs[i])
  {
    seq(|xs|, i requires 0 <= i < |xs| => f(xs[i]))
  }

  function Classified(lines: seq<string>): seq<Line> {
    Map(Classify, lines)
  }

  /** The services of a document, in order. */
  function Services(lines: seq<string>): seq<Svc> {
    Final(Classified(lines), 0, Initial)
  }

  // ---------------------------------------------------------------------------------------------
  // Phase 2: what to insert
  // ---------------------------------------------------------------------------------------------

  predicate NeedsEdit(s: Svc) {
    s.mountsSock && !s.hasLabelDisable
  }

  datatype Insertion<T> = Insertion(atLine: int, newLines: seq<T>)

  function ListIndent(s: Svc): nat {
    if s.listItemIndent < 0 then s.secOptIndent + 2 else s.listItemIndent
  }

  function LabelLine(indent: nat): string {
    Repeat(' ', indent) + "- label=disable"
  }

  function KeyLine(indent: nat): string {
    Repeat(' ', indent) + "security_opt:"
  }

  function InsertionFor(s: Svc): Insertion<string> {
    if s.secOptIndex >= 0 then Insertion(s.secOptIndex + 1, [LabelLine(ListIndent(s))])
    else Insertion(s.start + 1, [KeyLine(s.indent + 2), LabelLine(s.indent + 4)])
  }

  function Insertions(svcs: seq<Svc>): seq<Insertion<string>> {
    if svcs == [] then []
    else (if NeedsEdit(svcs[0]) then [InsertionFor(svcs[0])] else []) + Insertions(svcs[1..])
  }

  // ---------------------------------------------------------------------------------------------
  // The edited document, read forwards
  // ---------------------------------------------------------------------------------------------

  /** The lines from number k on, with every pending insertion placed behind the line it names. */
  function Woven<T>(lines: seq<T>, k: nat, ins: seq<Insertion<T>>): seq<T>
    requires k <= |lines|
    decreases |lines| - k
  {
    if k == |lines| then []
    else if ins != [] && ins[0].atLine == k + 1 then [lines[k]] + ins[0].newLines + Woven(lines, k + 1, ins[1..])
    else [lines[k]] + Woven(lines, k + 1, ins)
  }

  function InjectedLines(lines: seq<string>): seq<string> {
    Woven(lines, 0, Insertions(Services(lines)))
  }

  function Inject(content: string): string {
    Join(InjectedLines(Split(content, '\n')), '\n')
  }

  // ---------------------------------------------------------------------------------------------
  // How services of a document relate to lines
  // ---------------------------------------------------------------------------------------------

  /** What the scan knows before it reads line k. */
  ghost predicate Sound(st: State, k: int) {
    && (st.cur.Some? ==>
        && st.servicesIndent >= 0
        && var c := st.cur.value;
           && 0 <= c.start < k && c.indent > st.servicesIndent
           && (c.secOptIndex == -1 || c.start < c.secOptIndex < k)
           && c.listItemIndent >= -1
           && (c.secOptIndex >= 0 ==> c.secOptIndent > st.servicesIndent)
           && (st.inSecOpt ==> c.secOptIndex >= 0)
           && (c.secOptIndex < 0 ==> !c.hasLabelDisable && c.listItemIndent < 0)
           && (c.listItemIndent >= 0 ==> c.listItemIndent > st.servicesIndent))
  }

  lemma StepSound(st: State, k: int, l: Line)
    requires Sound(st, k) && k >= 0
    requires Visible(l)
    ensures Sound(Step(st, k, l), k + 1)
    ensures var st1 := Step(st, k, l);
            st1.cur.Some? ==> && (st1.cur.value.secOptIndex == k ==> st1.inSecOpt && !st1.inVolumes)
                              && (st1.cur.value.start == k ==> !st1.inVolumes)
  {
  }

  /** `f` is what service `c`, open before line k, has become at the end of the document. */
  ghost predicate Grows(c: Svc, f: Svc, k: int, servicesIndent: int) {
    && f.start == c.start && f.indent == c.indent
    && (c.mountsSock ==> f.mountsSock) && (c.hasLabelDisable ==> f.hasLabelDisable)
    && (f.secOptIndex == c.secOptIndex || f.secOptIndex >= k)
    && (f.secOptIndex == c.secOptIndex ==> f.secOptIndent == c.secOptIndent)
    && (c.listItemIndent >= 0 ==> f.listItemIndent == c.listItemIndent)
    && (f.listItemIndent >= 0 ==> f.listItemIndent > servicesIndent)
  }

  /** What reading line k can do to the services: keep the open one (or open the first one), or
      close it. */
  ghost predicate Moves(st: State, st1: State, k: int) {
    || (&& st1.svcs == st.svcs
        && (st.cur.Some? ==> && st1.cur.Some? && st1.servicesIndent == st.servicesIndent
                             && Grows(st.cur.value, st1.cur.value, k, st.servicesIndent))
        && (st.cur.None? && st1.cur.Some? ==> st1.cur.value == NewSvc(k, st1.cur.value.indent)))
    || (&& st.cur.Some? && st1.svcs == st.svcs + [st.cur.value.(end := k - 1)]
        && (st1.cur.Some? ==> st1.cur.value == NewSvc(k, st1.cur.value.indent)))
  }

  lemma StepMoves(st: State, k: int, l: Line)
    requires Sound(st, k) && k >= 0 && Visible(l)
    ensures Moves(st, Step(st, k, l), k)
  {
  }

  /** The closed services stay, the open one grows, and all later ones start at line k or after. */
  ghost predicate Continues(st: State, f: seq<Svc>, k: int) {
    var n := |st.svcs|;
    && n <= |f| && f[..n] == st.svcs
    && (st.cur.Some? ==> |f| > n && Grows(st.cur.value, f[n], k, st.servicesIndent))
    && (forall j | n <= j < |f| :: (f[j].start >= k || (j == n && st.cur.Some?))
                                   && (f[j].secOptIndex == -1 || f[j].start < f[j].secOptIndex))
  }

  lemma {:induction false} FinalContinues(ls: seq<Line>, k: int, st: State)
    requires Sound(st, k) && k >= 0
    requires forall l | l in ls :: Visible(l)
    ensures Continues(st, Final(ls, k, st), k)
    decreases |ls|
  {
    if ls == [] {
      assert Final(ls, k, st) == Close(st, k - 1);
    } else {
      StepSound(st, k, ls[0]);
      var st1 := Step(st, k, ls[0]);
      FinalContinues(ls[1..], k + 1, st1);
      assert Final(ls, k, st) == Final(ls[1..], k + 1, st1);
      StepMoves(st, k, ls[0]);
      ContinuesStep(st, st1, Final(ls, k, st), k);
    }
  }

  lemma ContinuesStep(st: State, st1: State, f: seq<Svc>, k: int)
    requires Sound(st, k) && k >= 0 && Moves(st, st1, k)
    requires Continues(st1, f, k + 1)
    ensures Continues(st, f, k)
  {
    var n := |st.svcs|;
    if |st1.svcs| > n {
      assert f[n] == f[..n + 1][n] == st.cur.value.(end := k - 1);
      assert f[..n] == f[..n + 1][..n] == st.svcs;
    }
  }

  // ---------------------------------------------------------------------------------------------
  // Scanning the edited document again
  // ---------------------------------------------------------------------------------------------

  /** An edit that a second scan cannot see: the list item is not indented below the last
      `security_opt:` line of its service, so that scan ends the block before reading it. */
  predicate Misplaced(s: Svc) {
    NeedsEdit(s) && s.secOptIndex >= 0 && ListIndent(s) <= s.secOptIndent
  }

  /** `s'` is what the second scan sees of service `s`. */
  ghost predicate SeenAs(s: Svc, s': Svc) {
    && s'.mountsSock == s.mountsSock
    && (s'.hasLabelDisable <==> s.hasLabelDisable || (NeedsEdit(s) && !Misplaced(s)))
  }

  ghost predicate AllSeenAs(f: seq<Svc>, f': seq<Svc>) {
    |f'| == |f| && forall j | 0 <= j < |f| :: SeenAs(f[j], f'[j])
  }

  predicate IsKeyToken(l: Line, indent: nat) {
    l.indent == indent && l.securityOpt && !l.volumes && !l.blank && !l.comment
  }

  predicate IsLabelToken(l: Line, indent: nat) {
    && l.indent == indent && l.item && l.labelDisable
    && !l.headerShape && !l.securityOpt && !l.volumes && !l.blank && !l.comment
  }

  /** The tokens of the lines that one edit inserts. */
  ghost predicate TokensFor(s: Svc, ins: Insertion<Line>) {
    && ins.atLine == InsertionFor(s).atLine
    && if s.secOptIndex >= 0 then |ins.newLines| == 1 && IsLabelToken(ins.newLines[0], ListIndent(s))
       else |ins.newLines| == 2 && IsKeyToken(ins.newLines[0], s.indent + 2)
            && IsLabelToken(ins.newLines[1], s.indent + 4)
  }

  /** `ins` are the tokens of exactly the edits that services `f` need, in order. */
  ghost predicate Pending(f: seq<Svc>, ins: seq<Insertion<Line>>) {
    if f == [] then ins == []
    else if NeedsEdit(f[0]) then ins != [] && TokensFor(f[0], ins[0]) && Pending(f[1..], ins[1..])
    else Pending(f[1..], ins)
  }

  /** The open service `c`, which will become `f`, and its image `c'` in the second scan. */
  ghost predicate OpenSeenAs(c: Svc, c': Svc, f: Svc, inSec: bool, inSec': bool, inserted: bool) {
    && c'.indent == c.indent && c'.mountsSock == c.mountsSock
    && if !inserted then c'.hasLabelDisable == c.hasLabelDisable && inSec' == inSec
                         && (inSec ==> c'.secOptIndent == c.secOptIndent)
       else if Misplaced(f) then !c'.hasLabelDisable && !inSec'
       else c'.hasLabelDisable
  }

  ghost predicate Simulates(st: State, st': State, f: seq<Svc>, inserted: bool)
    requires st.cur.Some? ==> |f| > |st.svcs|
    requires |f| >= |st.svcs|
  {
    && AllSeenAs(f[..|st.svcs|], st'.svcs)
    && st'.servicesIndent == st.servicesIndent
    && st'.inVolumes == st.inVolumes && st'.volIndent == st.volIndent
    && st'.cur.Some? == st.cur.Some?
    && (st.cur.Some? ==>
        OpenSeenAs(st.cur.value, st'.cur.value, f[|st.svcs|], st.inSecOpt, st'.inSecOpt, inserted))
  }

  /** Has the edit of the open service been placed by the time line k is read? */
  ghost predicate Inserted(st: State, f: seq<Svc>)
    requires st.cur.Some? ==> |f| > |st.svcs|
  {
    st.cur.Some? && var s := f[|st.svcs|];
                    NeedsEdit(s) && (s.secOptIndex < 0 || st.cur.value.secOptIndex == s.secOptIndex)
  }

  /** Is it placed right behind line k, the one just read? */
  ghost predicate Due(st1: State, f: seq<Svc>, k: int)
    requires st1.cur.Some? ==> |f| > |st1.svcs|
  {
    st1.cur.Some? && var s := f[|st1.svcs|];
                     NeedsEdit(s) && (if s.secOptIndex < 0 then st1.cur.value.start == k else s.secOptIndex == k)
  }

  /** Inside a service body, the same line keeps the two images of the open service related. */
  lemma InsideSimulates(st: State, st': State, f: Svc, k: int, k': int, l: Line, inserted: bool)
    requires Sound(st, k) && k >= 0 && Visible(l)
    requires st.cur.Some? && st'.cur.Some?
    requires st'.inVolumes == st.inVolumes && st'.volIndent == st.volIndent
    requires inserted <==> NeedsEdit(f) && (f.secOptIndex < 0 || st.cur.value.secOptIndex == f.secOptIndex)
    requires OpenSeenAs(st.cur.value, st'.cur.value, f, st.inSecOpt, st'.inSecOpt, inserted)
    requires Grows(StepInside(st, k, l).cur.value, f, k + 1, st.servicesIndent)
    ensures var st1 := StepInside(st, k, l); var st1' := StepInside(st', k', l);
            && st1'.inVolumes == st1.inVolumes && st1'.volIndent == st1.volIndent
            && OpenSeenAs(st1.cur.value, st1'.cur.value, f, st1.inSecOpt, st1'.inSecOpt, inserted)
            && (inserted ==> st1.cur.value.secOptIndex == st.cur.value.secOptIndex)
  {
    if inserted {
      assert !l.securityOpt || l.volumes;
    }
  }

  /** A service whose last line has been read is seen as its final form demands. */
  lemma CloseSimulates(st: State, st': State, f: seq<Svc>, k: int, end: int, end': int)
    requires Sound(st, k) && st.cur.Some? && |f| > |st.svcs|
    requires f[..|st.svcs| + 1] == Close(st, end)
    requires Simulates(st, st', f, Inserted(st, f))
    ensures AllSeenAs(f[..|st.svcs| + 1], Close(st', end'))
  {
    var n := |st.svcs|;
    assert f[n] == f[..n + 1][n] == st.cur.value.(end := end);
    assert SeenAs(f[n], st'.cur.value.(end := end'));
    forall j | 0 <= j < n + 1 ensures SeenAs(f[..n + 1][j], Close(st', end')[j]) {
      if j < n {
        assert SeenAs(f[..n][j], st'.svcs[j]);
      }
    }
  }

  lemma HeaderSimulates(st: State, st': State, f: seq<Svc>, k: int, k': int, l: Line)
    requires Sound(st, k) && k >= 0 && Visible(l)
    requires IsServiceHeader(st, l)
    requires Continues(Step(st, k, l), f, k + 1) && Continues(st, f, k)
    requires Simulates(st, st', f, Inserted(st, f))
    ensures var st1 := Step(st, k, l);
            Simulates(st1, Step(st', k', l), f, Inserted(st1, f) && !Due(st1, f, k))
  {
    if st.cur.Some? {
      CloseSimulates(st, st', f, k, k - 1, k' - 1);
    }
  }

  lemma ExitSimulates(st: State, st': State, f: seq<Svc>, k: int, k': int, l: Line)
    requires Sound(st, k) && k >= 0
    requires st.servicesIndent >= 0 && !IsServiceHeader(st, l) && st.cur.Some?
    requires !l.blank && !l.comment && l.indent <= st.servicesIndent
    requires Continues(Step(st, k, l), f, k + 1) && Continues(st, f, k)
    requires Simulates(st, st', f, Inserted(st, f))
    ensures var st1 := Step(st, k, l);
            Simulates(st1, Step(st', k', l), f, Inserted(st1, f) && !Due(st1, f, k))
  {
    CloseSimulates(st, st', f, k, k - 1, k' - 1);
  }

  lemma BodySimulates(st: State, st': State, f: seq<Svc>, k: int, k': int, l: Line)
    requires Sound(st, k) && k >= 0 && Visible(l)
    requires st.servicesIndent >= 0 && !IsServiceHeader(st, l) && st.cur.Some?
    requires l.blank || l.comment || l.indent > st.servicesIndent
    requires Continues(Step(st, k, l), f, k + 1) && Continues(st, f, k)
    requires Simulates(st, st', f, Inserted(st, f))
    ensures var st1 := Step(st, k, l);
            Simulates(st1, Step(st', k', l), f, Inserted(st1, f) && !Due(st1, f, k))
  {
    InsideSimulates(st, st', f[|st.svcs|], k, k', l, Inserted(st, f));
  }

  /** Reading the same line keeps the two scans related. */
  lemma StepSimulates(st: State, st': State, f: seq<Svc>, k: int, k': int, l: Line)
    requires Sound(st, k) && k >= 0 && Visible(l)
    requires Continues(Step(st, k, l), f, k + 1) && Continues(st, f, k)
    requires Simulates(st, st', f, Inserted(st, f))
    ensures var st1 := Step(st, k, l);
            Simulates(st1, Step(st', k', l), f, Inserted(st1, f) && !Due(st1, f, k))
  {
    if st.servicesIndent < 0 {
    } else if IsServiceHeader(st, l) {
      HeaderSimulates(st, st', f, k, k', l);
    } else if st.cur.None? {
    } else if !l.blank && !l.comment && l.indent <= st.servicesIndent {
      ExitSimulates(st, st', f, k, k', l);
    } else {
      BodySimulates(st, st', f, k, k', l);
    }
  }

  /** Reading the lines of an edit that is due completes the image of the edited service. */
  lemma InsertSimulates(st: State, st': State, f: seq<Svc>, k: int, k': int, ins: Insertion<Line>)
    requires Sound(st, k + 1) && k >= 0 && Continues(st, f, k + 1) && Due(st, f, k)
    requires st.cur.value.secOptIndex == k ==> st.inSecOpt && !st.inVolumes
    requires st.cur.value.start == k ==> !st.inVolumes
    requires Simulates(st, st', f, false)
    requires TokensFor(f[|st.svcs|], ins)
    ensures Simulates(st, Scan(ins.newLines, k', st'), f, true)
  {
    var s := f[|st.svcs|];
    var st1 := Step(st', k', ins.newLines[0]);
    if s.secOptIndex >= 0 {
      assert ins.newLines == [ins.newLines[0]];
      assert Scan(ins.newLines, k', st') == Scan([], k' + 1, st1) == st1;
    } else {
      var st2 := Step(st1, k' + 1, ins.newLines[1]);
      assert ins.newLines[1..] == [ins.newLines[1]];
      assert Scan(ins.newLines, k', st') == Scan(ins.newLines[1..], k' + 1, st1) == Scan([], k' + 2, st2) == st2;
    }
  }

  lemma {:induction false} PendingLater(f: seq<Svc>, ins: seq<Insertion<Line>>, k: int)
    requires k >= 0 && Pending(f, ins)
    requires forall j | 0 <= j < |f| :: f[j].start > k && (f[j].secOptIndex == -1 || f[j].start < f[j].secOptIndex)
    ensures ins == [] || ins[0].atLine > k + 1
  {
    if f != [] && !NeedsEdit(f[0]) {
      PendingLater(f[1..], ins, k);
    }
  }

  /** How many of the services `f` have their edit placed before line k is read. */
  ghost function Placed(st: State, f: seq<Svc>): (n: nat)
    requires st.cur.Some? ==> |f| > |st.svcs|
    requires |f| >= |st.svcs|
    ensures n <= |f|
  {
    |st.svcs| + if Inserted(st, f) then 1 else 0
  }

  /** The edit due behind line k is the next pending one, and otherwise no pending one names line k. */
  ghost predicate NextIsDue(st1: State, f: seq<Svc>, k: int, ins: seq<Insertion<Line>>)
    requires st1.cur.Some? ==> |f| > |st1.svcs|
    requires |f| >= |st1.svcs|
  {
    if Due(st1, f, k) then ins != [] && ins[0].atLine == k + 1 && TokensFor(f[|st1.svcs|], ins[0])
                           && Inserted(st1, f) && Pending(f[Placed(st1, f)..], ins[1..])
    else (ins == [] || ins[0].atLine != k + 1) && Pending(f[Placed(st1, f)..], ins)
  }

  /** The edit of the open service was placed earlier. */
  lemma PendingDone(st1: State, f: seq<Svc>, k: int, ins: seq<Insertion<Line>>)
    requires k >= 0 && Continues(st1, f, k + 1) && st1.cur.Some? && Inserted(st1, f) && !Due(st1, f, k)
    requires Pending(f[|st1.svcs| + 1..], ins)
    ensures NextIsDue(st1, f, k, ins)
  {
    hide Pending, TokensFor;
    PendingLater(f[|st1.svcs| + 1..], ins, k);
  }

  /** The edit of the open service, if it needs one, is still to come or due now. */
  lemma PendingFresh(st1: State, f: seq<Svc>, k: int, ins: seq<Insertion<Line>>)
    requires k >= 0 && Sound(st1, k + 1) && Continues(st1, f, k + 1)
    requires Inserted(st1, f) ==> Due(st1, f, k)
    requires Pending(f[|st1.svcs|..], ins)
    ensures NextIsDue(st1, f, k, ins)
  {
    var n := |st1.svcs|;
    if st1.cur.None? {
      PendingLater(f[n..], ins, k);
    } else {
      assert f[n..][1..] == f[n + 1..] && f[n..][0] == f[n];
      if !NeedsEdit(f[n]) {
        PendingLater(f[n + 1..], ins, k);
      }
    }
  }

  lemma PendingStep(st: State, st1: State, f: seq<Svc>, k: int, ins: seq<Insertion<Line>>)
    requires Sound(st, k) && Sound(st1, k + 1) && k >= 0 && Moves(st, st1, k)
    requires Continues(st1, f, k + 1) && Continues(st, f, k)
    requires Pending(f[Placed(st, f)..], ins)
    ensures NextIsDue(st1, f, k, ins)
  {
    hide Pending, TokensFor, NextIsDue;
    var n := |st1.svcs|;
    if n > |st.svcs| {
      assert f[..n][n - 1] == f[n - 1];
      PendingClosed(st, f, k, ins);
      PendingFresh(st1, f, k, ins);
    } else if Inserted(st1, f) && !Due(st1, f, k) {
      assert Placed(st, f) == n + 1;
      PendingDone(st1, f, k, ins);
    } else {
      assert Placed(st, f) == n;
      PendingFresh(st1, f, k, ins);
    }
  }

  lemma PendingClosed(st: State, f: seq<Svc>, k: int, ins: seq<Insertion<Line>>)
    requires Sound(st, k) && st.cur.Some? && |f| > |st.svcs|
    requires f[|st.svcs|] == st.cur.value.(end := k - 1)
    requires Pending(f[Placed(st, f)..], ins)
    ensures Pending(f[|st.svcs| + 1..], ins)
  {
    var n := |st.svcs|;
    assert f[n..][1..] == f[n + 1..];
  }

  /** One line of the second scan, with everything the induction needs. */
  lemma ReadLine(ls: seq<Line>, k: nat, st: State, st': State, k': int, ins: seq<Insertion<Line>>, f: seq<Svc>)
      returns (st1: State, st1': State)
    requires k < |ls| && Sound(st, k)
    requires forall l | l in ls :: Visible(l)
    requires f == Final(ls[k..], k, st) && Continues(st, f, k)
    requires Simulates(st, st', f, Inserted(st, f))
    requires Pending(f[Placed(st, f)..], ins)
    ensures Sound(st1, k + 1) && f == Final(ls[k + 1..], k + 1, st1) && Continues(st1, f, k + 1)
    ensures st1.cur.Some? ==> && (st1.cur.value.secOptIndex == k ==> st1.inSecOpt && !st1.inVolumes)
                              && (st1.cur.value.start == k ==> !st1.inVolumes)
    ensures Simulates(st1, st1', f, Inserted(st1, f) && !Due(st1, f, k))
    ensures st1' == Scan([ls[k]], k', st')
    ensures if Due(st1, f, k) then ins != [] && ins[0].atLine == k + 1 && TokensFor(f[|st1.svcs|], ins[0])
                                   && Inserted(st1, f) && Pending(f[Placed(st1, f)..], ins[1..])
            else (ins == [] || ins[0].atLine != k + 1) && Pending(f[Placed(st1, f)..], ins)
  {
    var l := ls[k];
    st1, st1' := Step(st, k, l), Step(st', k', l);
    assert ls[k..][0] == l && ls[k..][1..] == ls[k + 1..];
    StepSound(st, k, l);
    FinalContinues(ls[k + 1..], k + 1, st1);
    StepSimulates(st, st', f, k, k', l);
    StepMoves(st, k, l);
    PendingStep(st, st1, f, k, ins);
    assert Scan([l], k', st') == Scan([l][1..], k' + 1, st1');
  }

  /** The whole second scan: every service of the document is seen, edited where it needed it. */
  lemma {:induction false} Simulation(ls: seq<Line>, k: nat, st: State, st': State, k': int,
                                      ins: seq<Insertion<Line>>, f: seq<Svc>)
    requires k <= |ls| && Sound(st, k)
    requires forall l | l in ls :: Visible(l)
    requires f == Final(ls[k..], k, st) && Continues(st, f, k)
    requires Simulates(st, st', f, Inserted(st, f))
    requires Pending(f[Placed(st, f)..], ins)
    ensures AllSeenAs(f, Final(Woven(ls, k, ins), k', st'))
    decreases |ls| - k
  {
    hide Step, Scan, Close, Sound, Continues, Simulates, Pending, Inserted, Due, Placed, TokensFor;
    if k == |ls| {
      SimulationEnd(ls, k, st, st', k', f);
    } else {
      var st1, st1' := ReadLine(ls, k, st, st', k', ins, f);
      if Due(st1, f, k) {
        InsertSimulates(st1, st1', f, k, k' + 1, ins[0]);
        var st2' := Scan(ins[0].newLines, k' + 1, st1');
        Simulation(ls, k + 1, st1, st2', k' + 1 + |ins[0].newLines|, ins[1..], f);
        FinalAround([ls[k]], ins[0].newLines, Woven(ls, k + 1, ins[1..]), k', st');
      } else {
        Simulation(ls, k + 1, st1, st1', k' + 1, ins, f);
        FinalConcat([ls[k]], Woven(ls, k + 1, ins), k', st');
      }
    }
  }

  lemma SimulationEnd(ls: seq<Line>, k: nat, st: State, st': State, k': int, f: seq<Svc>)
    requires k == |ls| && Sound(st, k)
    requires f == Final(ls[k..], k, st) && Continues(st, f, k)
    requires Simulates(st, st', f, Inserted(st, f))
    ensures AllSeenAs(f, Final([], k', st'))
  {
    var n := |st.svcs|;
    assert ls[k..] == [];
    if st.cur.Some? {
      assert f[..n + 1] == f;
      CloseSimulates(st, st', f, k, k - 1, k' - 1);
    } else {
      assert f[..n] == f;
    }
  }

  lemma FinalAround(x: seq<Line>, a: seq<Line>, b: seq<Line>, k: int, st: State)
    ensures Final(x + a + b, k, st) == Final(b, k + |x| + |a|, Scan(a, k + |x|, Scan(x, k, st)))
  {
    hide Scan;
    FinalConcat(x, a + b, k, st);
    FinalConcat(a, b, k + |x|, Scan(x, k, st));
    assert x + a + b == x + (a + b);
  }

  lemma {:induction false} FinalConcat(a: seq<Line>, b: seq<Line>, k: int, st: State)
    ensures Final(a + b, k, st) == Final(b, k + |a|, Scan(a, k, st))
  {
    if a == [] {
      assert a + b == b;
    } else {
      assert (a + b)[1..] == a[1..] + b;
      FinalConcat(a[1..], b, k + 1, Step(st, k, a[0]));
    }
  }

  // ---------------------------------------------------------------------------------------------
  // From tokens back to text
  // ---------------------------------------------------------------------------------------------

  lemma TrimmedLine(n: nat, t: string)
    requires t != "" && !IsSpace(t[0]) && !IsSpace(t[|t| - 1])
    ensures TrimSpace(Repeat(' ', n) + t) == t && Indent(Repeat(' ', n) + t) == n
  {
    TrimLeftBlanks(n, t);
  }

  lemma KeyLineToken(n: nat)
    ensures IsKeyToken(Classify(KeyLine(n)), n)
  {
    var t := "security_opt:";
    TrimmedLine(n, t);
    TrimmedVisible(t);
    assert |t| != |"volumes:"|;
  }

  lemma LabelLineToken(n: nat)
    ensures IsLabelToken(Classify(LabelLine(n)), n)
  {
    var t := "- label=disable";
    TrimmedLine(n, t);
    assert HasPrefix(t, "- ");
    TrimmedVisible(t);
    LabelText();
  }

  lemma LabelText()
    ensures var t := "- label=disable";
            !HeaderShape(t) && IsLabelDisable(t) && t != "volumes:" && t != "security_opt:"
  {
    hide TrimSpace, TrimQuotes, HeaderShape;
    var t, item := "- label=disable", "label=disable";
    EndsOtherwise(t);
    assert TrimPrefix(t, "- ") == item;
    TrimNothing(item);
    assert t[0] == '-';
  }

  lemma EndsOtherwise(t: string)
    requires t != "" && t[|t| - 1] != ':' && '#' !in t
    ensures !HeaderShape(t)
  {
    var last := t[|t| - 1..];
    assert last[0] != ":"[0];
  }

  lemma TrimNothing(t: string)
    requires t != "" && !IsSpace(t[0]) && !IsSpace(t[|t| - 1]) && !IsQuote(t[0]) && !IsQuote(t[|t| - 1])
    ensures TrimSpace(t) == t && TrimQuotes(t) == t
  {
  }

  lemma HeaderCode(code: string, key: string)
    requires code == key + ":" && key != "" && forall c | c in key :: !IsSpace(c) && c != '#'
    ensures HeaderShape(code) && ' ' !in key && '\t' !in key
  {
    hide TrimSpace;
    assert IsSpace(' ') && IsSpace('\t');
    assert code[..|code| - 1] == key && code[|code| - 1..] == ":";
  }

  lemma TrimBehind(code: string)
    requires code != "" && !IsSpace(code[0]) && !IsSpace(code[|code| - 1])
    ensures TrimSpace(code + " ") == code
  {
    var t := code + " ";
    assert IsSpace(' ') && t[|t| - 1] == ' ' && t[0] == code[0];
    assert t[..|t| - 1] == code;
    assert TrimLeft(t) == t && TrimRight(code) == code;
  }

  lemma CommentCut(key: string, comment: string)
    requires key != "" && '#' !in key
    ensures var t := key + ":" + " #" + comment; '#' in t && t[..IndexOf(t, '#')] == key + ":" + " "
  {
    var t, n := key + ":" + " #" + comment, |key| + 2;
    assert t[n] == '#';
    assert t[..n] == key + ":" + " ";
    assert '#' !in t[..n];
  }

  /** A key followed by a colon is a header, with a comment behind it or without. */
  lemma HeaderForms(key: string, comment: string)
    requires key != "" && forall c | c in key :: !IsSpace(c) && c != '#'
    ensures HeaderShape(key + ":") && HeaderShape(key + ":" + " #" + comment)
  {
    var code := key + ":";
    assert code[..|code| - 1] == key && code[|code| - 1..] == ":" && key[0] in key;
    HeaderCode(code, key);
    TrimBehind(code);
    CommentCut(key, comment);
    hide TrimSpace, IndexOf;
  }

  lemma {:induction false} Within(a: string, sub: string, b: string)
    ensures Contains(a + sub + b, sub)
  {
    if a == "" {
      assert a + sub + b == sub + b;
    } else {
      assert (a + sub + b)[1..] == a[1..] + sub + b;
      Within(a[1..], sub, b);
    }
  }

  /** A line mentions an engine socket wherever the name of Docker's or Podman's stands in it. */
  lemma SocketForms(a: string, b: string)
    ensures MentionsSocket(a + "docker.sock" + b) && MentionsSocket(a + "podman.sock" + b)
  {
    Within(a, "docker.sock", b);
    Within(a, "podman.sock", b);
  }

  function MapInsertions<A, B>(f: A -> B, ins: seq<Insertion<A>>): (r: seq<Insertion<B>>)
    ensures |r| == |ins|
    ensures forall i | 0 <= i < |ins| :: r[i] == Insertion(ins[i].atLine, Map(f, ins[i].newLines))
  {
    seq(|ins|, i requires 0 <= i < |ins| => Insertion(ins[i].atLine, Map(f, ins[i].newLines)))
  }

  /** Weaving commutes with any reading of the lines. */
  lemma {:induction false} WovenMap<A, B>(f: A -> B, lines: seq<A>, k: nat, ins: seq<Insertion<A>>)
    requires k <= |lines|
    ensures Map(f, Woven(lines, k, ins)) == Woven(Map(f, lines), k, MapInsertions(f, ins))
    decreases |lines| - k
  {
    if k < |lines| {
      if ins != [] && ins[0].atLine == k + 1 {
        WovenMap(f, lines, k + 1, ins[1..]);
        assert MapInsertions(f, ins)[1..] == MapInsertions(f, ins[1..]);
      } else {
        WovenMap(f, lines, k + 1, ins);
      }
    }
  }

  /** A reading of lines under which the inserted ones are what they are meant to be. */
  ghost predicate ReadsEdits(tok: string -> Line) {
    && (forall n: nat :: IsLabelToken(tok(LabelLine(n)), n))
    && (forall n: nat :: IsKeyToken(tok(KeyLine(n)), n))
  }

  lemma ClassifyReadsEdits()
    ensures ReadsEdits(Classify)
  {
    forall n: nat ensures IsLabelToken(Classify(LabelLine(n)), n) { LabelLineToken(n); }
    forall n: nat ensures IsKeyToken(Classify(KeyLine(n)), n) { KeyLineToken(n); }
  }

  lemma {:induction false} InsertionsPending(f: seq<Svc>, tok: string -> Line)
    requires ReadsEdits(tok)
    ensures Pending(f, MapInsertions(tok, Insertions(f)))
  {
    if f != [] {
      InsertionsPending(f[1..], tok);
      if NeedsEdit(f[0]) {
        assert Insertions(f)[1..] == Insertions(f[1..]);
        assert MapInsertions(tok, Insertions(f))[1..] == MapInsertions(tok, Insertions(f[1..]));
        assert TokensFor(f[0], MapInsertions(tok, Insertions(f))[0]);
      } else {
        assert Insertions(f) == Insertions(f[1..]);
      }
    }
  }

  /** Scanning the edited document finds the same services, and label=disable in every service
      that needed it unless its edit was misplaced. */
  lemma RescanSees(lines: seq<string>)
    ensures AllSeenAs(Services(lines), Services(InjectedLines(lines)))
  {
    var ls := Classified(lines);
    var f := Services(lines);
    forall l | l in ls ensures Visible(l) {
      var i :| 0 <= i < |ls| && ls[i] == l;
      ClassifyVisible(lines[i]);
    }
    assert ls[0..] == ls;
    FinalContinues(ls, 0, Initial);
    ClassifyReadsEdits();
    InsertionsPending(f, Classify);
    assert f[0..] == f;
    Simulation(ls, 0, Initial, Initial, 0, MapInsertions(Classify, Insertions(f)), f);
    WovenMap(Classify, lines, 0, Insertions(f));
  }

  lemma {:induction false} WovenLinesWhole(lines: seq<string>, k: nat, ins: seq<Insertion<string>>)
    requires k <= |lines|
    requires forall x | x in lines :: '\n' !in x
    requires forall i | 0 <= i < |ins| :: forall x | x in ins[i].newLines :: '\n' !in x
    ensures forall x | x in Woven(lines, k, ins) :: '\n' !in x
    ensures |Woven(lines, k, ins)| >= |lines| - k
    decreases |lines| - k
  {
    if k < |lines| {
      if ins != [] && ins[0].atLine == k + 1 {
        WovenLinesWhole(lines, k + 1, ins[1..]);
      } else {
        WovenLinesWhole(lines, k + 1, ins);
      }
    }
  }

  lemma {:induction false} InsertionsSource(f: seq<Svc>, i: nat) returns (j: nat)
    requires i < |Insertions(f)|
    ensures j < |f| && NeedsEdit(f[j]) && Insertions(f)[i] == InsertionFor(f[j])
  {
    if NeedsEdit(f[0]) && i == 0 {
      j := 0;
    } else {
      var j' := InsertionsSource(f[1..], if NeedsEdit(f[0]) then i - 1 else i);
      j := j' + 1;
    }
  }

  lemma InsertionLines(s: Svc)
    ensures |InsertionFor(s).newLines| > 0 && forall x | x in InsertionFor(s).newLines :: '\n' !in x
  {
    assert '\n' !in "- label=disable" && '\n' !in "security_opt:";
  }

  lemma InjectSplit(content: string)
    ensures Split(Inject(content), '\n') == InjectedLines(Split(content, '\n'))
  {
    var lines := Split(content, '\n');
    var ins := Insertions(Services(lines));
    forall i | 0 <= i < |ins| ensures forall x | x in ins[i].newLines :: '\n' !in x {
      var j := InsertionsSource(Services(lines), i);
      InsertionLines(Services(lines)[j]);
    }
    WovenLinesWhole(lines, 0, Insertions(Services(lines)));
    SplitJoin(InjectedLines(lines), '\n');
  }

  // ---------------------------------------------------------------------------------------------
  // Where services lie in the document
  // ---------------------------------------------------------------------------------------------

  function LastMark(s: Svc): int {
    if s.secOptIndex >= 0 then s.secOptIndex else s.start
  }

  /** The services follow one another and end before line `bound`. */
  ghost predicate Laid(f: seq<Svc>, bound: int) {
    && (forall j | 0 <= j < |f| :: 0 <= f[j].start <= LastMark(f[j]) < bound)
    && (forall i, j | 0 <= i < j < |f| :: LastMark(f[i]) < f[j].start)
  }

  ghost predicate StateLaid(st: State, k: int) {
    Sound(st, k) && Laid(st.svcs, if st.cur.Some? then st.cur.value.start else k)
  }

  lemma StepLaid(st: State, k: int, l: Line)
    requires StateLaid(st, k) && k >= 0 && Visible(l)
    ensures StateLaid(Step(st, k, l), k + 1)
  {
    StepSound(st, k, l);
    StepMoves(st, k, l);
  }

  lemma {:induction false} ServicesLaid(ls: seq<Line>, k: int, st: State)
    requires StateLaid(st, k) && k >= 0
    requires forall l | l in ls :: Visible(l)
    ensures Laid(Final(ls, k, st), k + |ls|)
    decreases |ls|
  {
    if ls != [] {
      StepLaid(st, k, ls[0]);
      ServicesLaid(ls[1..], k + 1, Step(st, k, ls[0]));
      assert Final(ls, k, st) == Final(ls[1..], k + 1, Step(st, k, ls[0]));
    }
  }

  lemma DocumentLaid(lines: seq<string>)
    ensures Laid(Services(lines), |lines|)
  {
    var ls := Classified(lines);
    forall l | l in ls ensures Visible(l) {
      var i :| 0 <= i < |ls| && ls[i] == l;
      ClassifyVisible(lines[i]);
    }
    ServicesLaid(ls, 0, Initial);
  }

  /** Every insertion names a line of the document, each one further down than the one before. */
  ghost predicate Placeable<T>(ins: seq<Insertion<T>>, low: int, high: int) {
    && (forall i | 0 <= i < |ins| :: low < ins[i].atLine <= high)
    && (forall i, j | 0 <= i < j < |ins| :: ins[i].atLine < ins[j].atLine)
  }

  lemma {:induction false} InsertionsPlaceable(f: seq<Svc>, low: int, bound: int)
    requires Laid(f, bound) && (f != [] ==> low <= f[0].start)
    ensures Placeable(Insertions(f), low, bound)
  {
    if f != [] {
      InsertionsPlaceable(f[1..], LastMark(f[0]) + 1, bound);
    }
  }

  lemma {:induction false} WovenGrows<T>(lines: seq<T>, k: nat, ins: seq<Insertion<T>>)
    requires k <= |lines| && Placeable(ins, k, |lines|)
    ensures |Woven(lines, k, ins)| >= |lines| - k
    ensures ins != [] && ins[0].newLines != [] ==> |Woven(lines, k, ins)| > |lines| - k
    decreases |lines| - k
  {
    if k < |lines| {
      if ins != [] && ins[0].atLine == k + 1 {
        WovenGrows(lines, k + 1, ins[1..]);
      } else {
        WovenGrows(lines, k + 1, ins);
      }
    }
  }

  lemma {:induction false} WovenNothing<T>(lines: seq<T>, k: nat)
    requires k <= |lines|
    ensures Woven(lines, k, []) == lines[k..]
    decreases |lines| - k
  {
    if k < |lines| {
      WovenNothing(lines, k + 1);
      assert lines[k..] == [lines[k]] + lines[k + 1..];
    }
  }

  // ---------------------------------------------------------------------------------------------
  // What the injection promises
  // ---------------------------------------------------------------------------------------------

  ghost predicate AllProtected(f: seq<Svc>) {
    forall s | s in f :: s.mountsSock ==> s.hasLabelDisable
  }

  ghost predicate SomeMisplaced(f: seq<Svc>) {
    exists s :: s in f && Misplaced(s)
  }

  lemma SeenProtected(f: seq<Svc>, f': seq<Svc>)
    requires AllSeenAs(f, f')
    ensures AllProtected(f') <==> !SomeMisplaced(f)
  {
    if SomeMisplaced(f) {
      var s :| s in f && Misplaced(s);
      var j :| 0 <= j < |f| && f[j] == s;
      assert SeenAs(f[j], f'[j]) && f'[j] in f';
    } else {
      forall s' | s' in f' ensures s'.mountsSock ==> s'.hasLabelDisable {
        var j :| 0 <= j < |f'| && f'[j] == s';
        assert f[j] in f && SeenAs(f[j], f'[j]);
      }
    }
  }

  /** Every service that the scan finds to mount the socket it finds to declare label=disable. */
  ghost predicate ScanProtected(content: string) {
    AllProtected(Services(Split(content, '\n')))
  }

  ghost predicate ScanMisplaced(content: string) {
    SomeMisplaced(Services(Split(content, '\n')))
  }

  /** The edited document declares label=disable wherever the socket is mounted, exactly when no
      edit had to go under a `security_opt:` line indented at least as deep as the item. */
  lemma RescanProtects(content: string)
    ensures ScanProtected(Inject(content)) <==> !ScanMisplaced(content)
  {
    var lines := Split(content, '\n');
    InjectSplit(content);
    RescanSees(lines);
    SeenProtected(Services(lines), Services(InjectedLines(lines)));
  }

  lemma {:induction false} NoInsertions(f: seq<Svc>)
    ensures Insertions(f) == [] <==> AllProtected(f)
  {
    if f != [] {
      NoInsertions(f[1..]);
    }
  }

  lemma WovenUntouched(lines: seq<string>, f: seq<Svc>)
    requires Laid(f, |lines|)
    ensures Woven(lines, 0, Insertions(f)) == lines <==> AllProtected(f)
  {
    var ins := Insertions(f);
    NoInsertions(f);
    if ins == [] {
      WovenNothing(lines, 0);
      assert lines[0..] == lines;
    } else {
      InsertionsPlaceable(f, 0, |lines|);
      var j := InsertionsSource(f, 0);
      InsertionLines(f[j]);
      WovenGrows(lines, 0, ins);
    }
  }

  /** The document is left alone exactly when it is already protected. */
  lemma UnchangedIff(content: string)
    ensures Inject(content) == content <==> ScanProtected(content)
  {
    var lines := Split(content, '\n');
    JoinSplit(content, '\n');
    DocumentLaid(lines);
    WovenUntouched(lines, Services(lines));
    InjectSplit(content);
  }

  /** A second run changes nothing exactly when no edit of the first one was misplaced. */
  lemma RerunUnchanged(content: string)
    ensures Inject(Inject(content)) == Inject(content) <==> !ScanMisplaced(content)
  {
    UnchangedIff(Inject(content));
    RescanProtects(content);
  }

  /** `out` is `orig` with lines of the injected form added and nothing else. */
  ghost predicate OnlyAddsLabels(orig: seq<string>, out: seq<string>) {
    if out == [] then orig == []
    else || (orig != [] && orig[0] == out[0] && OnlyAddsLabels(orig[1..], out[1..]))
         || (IsEditLine(out[0]) && OnlyAddsLabels(orig, out[1..]))
  }

  ghost predicate IsEditLine(x: string) {
    exists n: nat :: x == LabelLine(n) || x == KeyLine(n)
  }

  lemma {:induction false} PrependEdits(xs: seq<string>, orig: seq<string>, out: seq<string>)
    requires forall x | x in xs :: IsEditLine(x)
    requires OnlyAddsLabels(orig, out)
    ensures OnlyAddsLabels(orig, xs + out)
  {
    if xs == [] {
      assert xs + out == out;
    } else {
      PrependEdits(xs[1..], orig, out);
      assert (xs + out)[1..] == xs[1..] + out;
    }
  }

  lemma {:induction false} WovenKeeps(lines: seq<string>, k: nat, ins: seq<Insertion<string>>)
    requires k <= |lines|
    requires forall i | 0 <= i < |ins| :: forall x | x in ins[i].newLines :: IsEditLine(x)
    ensures OnlyAddsLabels(lines[k..], Woven(lines, k, ins))
    decreases |lines| - k
  {
    if k < |lines| {
      assert lines[k..][1..] == lines[k + 1..];
      if ins != [] && ins[0].atLine == k + 1 {
        var rest := Woven(lines, k + 1, ins[1..]);
        WovenKeeps(lines, k + 1, ins[1..]);
        PrependEdits(ins[0].newLines, lines[k + 1..], rest);
        assert ([lines[k]] + ins[0].newLines + rest)[1..] == ins[0].newLines + rest;
      } else {
        WovenKeeps(lines, k + 1, ins);
      }
    }
  }

  lemma EditLines(s: Svc)
    ensures forall x | x in InsertionFor(s).newLines :: IsEditLine(x)
  {
    assert IsEditLine(LabelLine(ListIndent(s))) && IsEditLine(LabelLine(s.indent + 4));
    assert IsEditLine(KeyLine(s.indent + 2));
  }

  /** All lines of the document survive, in order; what is added are `security_opt:` keys and
      `- label=disable` items. */
  lemma InjectKeepsLines(content: string)
    ensures OnlyAddsLabels(Split(content, '\n'), Split(Inject(content), '\n'))
  {
    var lines := Split(content, '\n');
    LinesKept(lines, Services(lines));
    InjectSplit(content);
  }

  lemma LinesKept(lines: seq<string>, f: seq<Svc>)
    ensures OnlyAddsLabels(lines, Woven(lines, 0, Insertions(f)))
  {
    var ins := Insertions(f);
    forall i | 0 <= i < |ins| ensures forall x | x in ins[i].newLines :: IsEditLine(x) {
      var j := InsertionsSource(f, i);
      EditLines(f[j]);
    }
    WovenKeeps(lines, 0, ins);
    assert lines[0..] == lines;
  }

  // ---------------------------------------------------------------------------------------------
  // A misplaced edit
  // ---------------------------------------------------------------------------------------------

  const TwoKeysLines: seq<string> :=
    [ Repeat(' ', 0) + "services:", Repeat(' ', 2) + "a:", Repeat(' ', 4) + "volumes:",
      Repeat(' ', 6) + "- docker.sock", Repeat(' ', 4) + "security_opt:", Repeat(' ', 6) + "- x",
      Repeat(' ', 8) + "security_opt:" ]

  lemma ServicesToken()
    ensures Classify(Repeat(' ', 0) + "services:").services && Classify(Repeat(' ', 0) + "services:").indent == 0
  {
    TrimmedLine(0, "services:");
  }

  lemma ServiceNameToken()
    ensures var l := Classify(Repeat(' ', 2) + "a:"); l.headerShape && l.indent == 2
  {
    TrimmedLine(2, "a:");
    PlainHeader("a:", "a");
  }

  lemma PlainHeader(t: string, key: string)
    requires t == key + ":" && key != "" && '#' !in key && ' ' !in key && '\t' !in key
    ensures HeaderShape(t)
  {
    assert t[..|t| - 1] == key && t[|t| - 1..] == ":";
  }

  lemma VolumesToken()
    ensures var l := Classify(Repeat(' ', 4) + "volumes:"); l.volumes && l.indent == 4 && !l.blank && !l.comment
  {
    TrimmedLine(4, "volumes:");
    TrimmedVisible("volumes:");
  }

  lemma SocketToken()
    ensures var l := Classify(Repeat(' ', 6) + "- docker.sock");
            l.socket && !l.volumes && !l.securityOpt && l.indent == 6
  {
    var t := "- docker.sock";
    TrimmedLine(6, t);
    assert "docker.sock" <= t[2..] && t[1..][1..] == t[2..];
    assert Contains(t[2..], "docker.sock");
    assert Contains(t[1..], "docker.sock");
    assert t[0] != "volumes:"[0] && t[0] != "security_opt:"[0];
  }

  lemma OtherItemToken()
    ensures var l := Classify(Repeat(' ', 6) + "- x");
            l.item && !l.labelDisable && !l.volumes && !l.securityOpt && !l.blank && l.indent == 6
  {
    TrimmedLine(6, "- x");
    ShortItem("- x");
  }

  lemma ShortItem(t: string)
    requires 2 <= |t| < 8 && t[..2] == "- "
    ensures HasPrefix(t, "- ") && !IsLabelDisable(t) && t != "volumes:" && t != "security_opt:"
  {
    TrimShortens(TrimPrefix(t, "- "));
  }

  lemma TrimShortens(s: string)
    ensures |TrimQuotes(TrimSpace(s))| <= |s|
  {
    TrimLeftShortens(s);
    TrimRightShortens(TrimLeft(s));
    QuotesShorten(TrimSpace(s));
  }

  lemma {:induction false} TrimLeftShortens(s: string)
    ensures |TrimLeft(s)| <= |s|
  {
    if s != "" && IsSpace(s[0]) { TrimLeftShortens(s[1..]); }
  }

  lemma {:induction false} TrimRightShortens(s: string)
    ensures |TrimRight(s)| <= |s|
  {
    if s != "" && IsSpace(s[|s| - 1]) { TrimRightShortens(s[..|s| - 1]); }
  }

  lemma {:induction false} QuotesLeftShorten(s: string)
    ensures |TrimQuotesLeft(s)| <= |s|
  {
    if s != "" && IsQuote(s[0]) { QuotesLeftShorten(s[1..]); }
  }

  lemma {:induction false} QuotesRightShorten(s: string)
    ensures |TrimQuotesRight(s)| <= |s|
  {
    if s != "" && IsQuote(s[|s| - 1]) { QuotesRightShorten(s[..|s| - 1]); }
  }

  lemma QuotesShorten(s: string)
    ensures |TrimQuotes(s)| <= |s|
  {
    QuotesLeftShorten(s);
    QuotesRightShorten(TrimQuotesLeft(s));
  }

  /** Seven lines, one service, with the second key deeper than the first list item. */
  lemma TwoKeysScan(ls: seq<Line>)
    requires |ls| == 7
    requires ls[0].services && ls[0].indent == 0
    requires ls[1].headerShape && ls[1].indent == 2
    requires ls[2].volumes && ls[2].indent == 4 && !ls[2].blank && !ls[2].comment
    requires ls[3].socket && !ls[3].volumes && !ls[3].securityOpt && ls[3].indent == 6
    requires IsKeyToken(ls[4], 4) && IsKeyToken(ls[6], 8)
    requires ls[5].item && !ls[5].labelDisable && !ls[5].volumes && !ls[5].securityOpt && !ls[5].blank
    requires ls[5].indent == 6
    ensures SomeMisplaced(Final(ls, 0, Initial))
  {
    var c := NewSvc(1, 2).(mountsSock := true);
    var s4 := State(0, [], Some(c), true, 4, false);
    SocketServiceScan(ls);
    var s5 := Step(s4, 4, ls[4]);
    assert s5 == State(0, [], Some(c.(secOptIndex := 4, secOptIndent := 4)), false, 4, true);
    var s6 := Step(s5, 5, ls[5]);
    assert s6 == State(0, [], Some(c.(secOptIndex := 4, secOptIndent := 4, listItemIndent := 6)), false, 4, true);
    var s7 := Step(s6, 6, ls[6]);
    assert ls[4..][1..] == ls[5..] && ls[5..][1..] == ls[6..] && ls[6..][1..] == [];
    assert Scan(ls[6..], 6, s6) == Scan([], 7, s7) == s7;
    assert Scan(ls[5..], 5, s5) == Scan(ls[6..], 6, s6);
    assert Misplaced(Final(ls, 0, Initial)[0]);
  }

  lemma SocketServiceScan(ls: seq<Line>)
    requires |ls| >= 4
    requires ls[0].services && ls[0].indent == 0
    requires ls[1].headerShape && ls[1].indent == 2
    requires ls[2].volumes && ls[2].indent == 4 && !ls[2].blank && !ls[2].comment
    requires ls[3].socket && !ls[3].volumes && !ls[3].securityOpt && ls[3].indent == 6
    ensures Scan(ls, 0, Initial)
         == Scan(ls[4..], 4, State(0, [], Some(NewSvc(1, 2).(mountsSock := true)), true, 4, false))
  {
    var s1 := State(0, [], None, false, -1, false);
    var s2 := State(0, [], Some(NewSvc(1, 2)), false, -1, false);
    var s3 := State(0, [], Some(NewSvc(1, 2)), true, 4, false);
    assert ls[1..][1..] == ls[2..] && ls[2..][1..] == ls[3..] && ls[3..][1..] == ls[4..];
    assert Scan(ls, 0, Initial) == Scan(ls[1..], 1, s1);
    assert Scan(ls[1..], 1, s1) == Scan(ls[2..], 2, s2);
    assert Scan(ls[2..], 2, s2) == Scan(ls[3..], 3, s3);
  }

  lemma TwoKeysMisplaced(tok: string -> Line)
    requires ReadsEdits(tok)
    requires tok(TwoKeysLines[0]).services && tok(TwoKeysLines[0]).indent == 0
    requires tok(TwoKeysLines[1]).headerShape && tok(TwoKeysLines[1]).indent == 2
    requires var l := tok(TwoKeysLines[2]); l.volumes && l.indent == 4 && !l.blank && !l.comment
    requires var l := tok(TwoKeysLines[3]); l.socket && !l.volumes && !l.securityOpt && l.indent == 6
    requires var l := tok(TwoKeysLines[5]);
             l.item && !l.labelDisable && !l.volumes && !l.securityOpt && !l.blank && l.indent == 6
    ensures SomeMisplaced(Final(Map(tok, TwoKeysLines), 0, Initial))
  {
    assert IsKeyToken(tok(KeyLine(4)), 4) && IsKeyToken(tok(KeyLine(8)), 8);
    TwoKeysScan(Map(tok, TwoKeysLines));
  }

  lemma TwoKeysServices()
    ensures SomeMisplaced(Services(TwoKeysLines))
  {
    hide Classify;
    ClassifyReadsEdits();
    ServicesToken();
    ServiceNameToken();
    VolumesToken();
    SocketToken();
    OtherItemToken();
    TwoKeysMisplaced(Classify);
  }

  lemma TwoKeysSplit()
    ensures Split(Join(TwoKeysLines, '\n'), '\n') == TwoKeysLines
  {
    assert '\n' !in "services:" && '\n' !in "a:" && '\n' !in "volumes:" && '\n' !in "- docker.sock";
    assert '\n' !in "security_opt:" && '\n' !in "- x";
    SplitJoin(TwoKeysLines, '\n');
  }

  // ---------------------------------------------------------------------------------------------
  // The function as written: two loops over the lines and services, one over the edits
  // ---------------------------------------------------------------------------------------------

  datatype TextInsertion = TextInsertion(atLine: int, text: string)

  function AsText(ins: Insertion<string>): TextInsertion {
    TextInsertion(ins.atLine, Join(ins.newLines, '\n'))
  }

  lemma {:induction false} InsertionsConcat(a: seq<Svc>, b: seq<Svc>)
    ensures Insertions(a + b) == Insertions(a) + Insertions(b)
  {
    hide InsertionFor, NeedsEdit;
    if a == [] {
      assert a + b == b;
    } else {
      var head := if NeedsEdit(a[0]) then [InsertionFor(a[0])] else [];
      assert (a + b)[0] == a[0] && (a + b)[1..] == a[1..] + b;
      InsertionsConcat(a[1..], b);
      assert Insertions(a + b) == head + Insertions(a[1..] + b);
    }
  }

  lemma {:induction false} ScanConcat(a: seq<Line>, b: seq<Line>, k: int, st: State)
    ensures Scan(a + b, k, st) == Scan(b, k + |a|, Scan(a, k, st))
  {
    if a == [] {
      assert a + b == b;
    } else {
      assert (a + b)[1..] == a[1..] + b;
      ScanConcat(a[1..], b, k + 1, Step(st, k, a[0]));
    }
  }

  lemma ScanSnoc(ls: seq<Line>, i: nat, st: State)
    requires i < |ls|
    ensures Scan(ls[..i + 1], 0, st) == Step(Scan(ls[..i], 0, st), i, ls[i])
  {
    assert ls[..i + 1] == ls[..i] + [ls[i]];
    ScanConcat(ls[..i], [ls[i]], 0, st);
    var st1 := Step(Scan(ls[..i], 0, st), i, ls[i]);
    assert Scan([ls[i]], i, Scan(ls[..i], 0, st)) == Scan([], i + 1, st1);
  }

  /** A line inside a service: volumes first, then security_opt. */
  method ReadBody(cur: Svc, inVolumes: bool, volIndent: int, inSecOpt: bool, at: int, l: Line, ghost st: State)
      returns (c: Svc, inVolumes': bool, volIndent': int, inSecOpt': bool)
    requires st.cur == Some(cur) && st.inVolumes == inVolumes && st.volIndent == volIndent && st.inSecOpt == inSecOpt
    ensures StepInside(st, at, l)
         == State(st.servicesIndent, st.svcs, Some(c), inVolumes', volIndent', inSecOpt')
  {
    c, inVolumes', volIndent', inSecOpt' := cur, inVolumes, volIndent, inSecOpt;
    if l.volumes {
      inVolumes', volIndent', inSecOpt' := true, l.indent, false;
      return;
    }
    if inVolumes && !l.blank && l.indent <= volIndent {
      inVolumes' := false;
    }
    if inVolumes' && l.socket {
      c := c.(mountsSock := true);
    }
    if l.securityOpt {
      c := c.(secOptIndex := at, secOptIndent := l.indent);
      inSecOpt', inVolumes' := true, false;
      return;
    }
    if inSecOpt {
      if !l.blank && l.indent <= c.secOptIndent {
        inSecOpt' := false;
      } else if l.item {
        if c.listItemIndent < 0 {
          c := c.(listItemIndent := l.indent);
        }
        if l.labelDisable {
          c := c.(hasLabelDisable := true);
        }
      }
    }
  }

  /** Phase 1: the service blocks of the document. */
  method FindServices(ls: seq<Line>) returns (svcs: seq<Svc>)
    ensures svcs == Final(ls, 0, Initial)
  {
    var servicesIndent: int := -1;
    var cur: Option<Svc> := None;
    var inVolumes, inSecOpt := false, false;
    var volIndent: int := -1;
    svcs := [];
    var i := 0;
    while i < |ls|
      invariant 0 <= i <= |ls|
      invariant State(servicesIndent, svcs, cur, inVolumes, volIndent, inSecOpt) == Scan(ls[..i], 0, Initial)
    {
      ScanSnoc(ls, i, Initial);
      var l := ls[i];
      var at := i;
      i := i + 1;
      if servicesIndent < 0 {
        if l.services {
          servicesIndent := l.indent;
        }
        continue;
      }
      if l.indent > servicesIndent && l.headerShape && (cur.None? || l.indent == cur.value.indent) {
        if cur.Some? {
          svcs := svcs + [cur.value.(end := at - 1)];
        }
        cur := Some(NewSvc(at, l.indent));
        inVolumes, volIndent, inSecOpt := false, -1, false;
        continue;
      }
      if cur.Some? && !l.blank && !l.comment && l.indent <= servicesIndent {
        svcs := svcs + [cur.value.(end := at - 1)];
        cur, servicesIndent := None, -1;
        continue;
      }
      if cur.None? {
        continue;
      }
      var c, v, vi, so := ReadBody(cur.value, inVolumes, volIndent, inSecOpt, at, l,
                                   State(servicesIndent, svcs, cur, inVolumes, volIndent, inSecOpt));
      cur, inVolumes, volIndent, inSecOpt := Some(c), v, vi, so;
    }
    assert ls[..|ls|] == ls;
    if cur.Some? {
      svcs := svcs + [cur.value.(end := |ls| - 1)];
    }
  }

  lemma JoinTwo(a: string, b: string)
    ensures Join([a, b], '\n') == a + "\n" + b
  {
    assert [a, b][1..] == [b];
  }

  lemma OneInsertion(s: Svc)
    ensures Insertions([]) == []
    ensures Insertions([s]) == if NeedsEdit(s) then [InsertionFor(s)] else []
  {
    hide LabelLine, KeyLine;
    assert [s][1..] == [];
  }

  lemma PlanStep(svcs: seq<Svc>, i: nat)
    requires i < |svcs|
    ensures Map(AsText, Insertions(svcs[..i + 1])) ==
            Map(AsText, Insertions(svcs[..i])) + if NeedsEdit(svcs[i]) then [AsText(InsertionFor(svcs[i]))] else []
  {
    assert svcs[..i + 1] == svcs[..i] + [svcs[i]];
    InsertionsConcat(svcs[..i], [svcs[i]]);
    OneInsertion(svcs[i]);
    hide LabelLine, KeyLine, Insertions, InsertionFor, AsText;
  }

  /** Phase 2: the edits, as the text to insert and the line to insert it before. */
  method PlanInsertions(svcs: seq<Svc>) returns (inserts: seq<TextInsertion>)
    ensures inserts == Map(AsText, Insertions(svcs))
  {
    inserts := [];
    assert Insertions(svcs[..0]) == [];
    hide LabelLine, KeyLine, Insertions, Map, Join;
    for i := 0 to |svcs|
      invariant inserts == Map(AsText, Insertions(svcs[..i]))
    {
      var s := svcs[i];
      PlanStep(svcs, i);
      if !s.mountsSock || s.hasLabelDisable {
        continue;
      }
      if s.secOptIndex >= 0 {
        var listIndent := s.listItemIndent;
        if listIndent < 0 {
          listIndent := s.secOptIndent + 2;
        }
        inserts := inserts + [TextInsertion(s.secOptIndex + 1, LabelLine(listIndent))];
      } else {
        inserts := inserts + [TextInsertion(s.start + 1,
                                            KeyLine(s.indent + 2) + "\n" + LabelLine(s.indent + 4))];
      }
      if s.secOptIndex < 0 {
        JoinTwo(KeyLine(s.indent + 2), LabelLine(s.indent + 4));
      }
    }
    assert svcs[..|svcs|] == svcs;
  }

  function OneLine(ins: TextInsertion): Insertion<string> {
    Insertion(ins.atLine, [ins.text])
  }

  /** Placing the edit that comes before all others in the document leaves those where they are. */
  lemma {:induction false} WovenFirst<T>(lines: seq<T>, k: nat, ins: seq<Insertion<T>>)
    requires ins != [] && k <= |lines| && Placeable(ins, k, |lines|)
    ensures var w := Woven(lines, k, ins[1..]); var a := ins[0].atLine - k;
            a <= |w| && Woven(lines, k, ins) == w[..a] + ins[0].newLines + w[a..]
    decreases |lines| - k
  {
    var rest := ins[1..];
    var a := ins[0].atLine - k;
    assert rest == [] || rest[0] == ins[1];
    var w1 := Woven(lines, k + 1, rest);
    assert Woven(lines, k, rest) == [lines[k]] + w1;
    if a > 1 {
      WovenFirst(lines, k + 1, ins);
      assert Woven(lines, k, ins) == [lines[k]] + Woven(lines, k + 1, ins);
      SpliceBehind(lines[k], w1, ins[0].newLines, a - 1);
    } else {
      SpliceBehind(lines[k], w1, ins[0].newLines, 0);
    }
  }

  lemma SpliceBehind<T>(x: T, w: seq<T>, ys: seq<T>, a: nat)
    requires a <= |w|
    ensures [x] + (w[..a] + ys + w[a..]) == ([x] + w)[..a + 1] + ys + ([x] + w)[a + 1..]
    ensures a == 0 ==> [x] + ys + w == ([x] + w)[..a + 1] + ys + ([x] + w)[a + 1..]
  {
  }

  /** An edit of two lines may be inserted as one string that contains the line break. */
  lemma {:induction false} WovenText(lines: seq<string>, k: nat, ins: seq<Insertion<string>>)
    requires k <= |lines|
    requires forall i | 0 <= i < |ins| :: ins[i].newLines != []
    ensures var t := Map(OneLine, Map(AsText, ins));
            var w, w' := Woven(lines, k, ins), Woven(lines, k, t);
            Join(w, '\n') == Join(w', '\n') && (w == [] <==> w' == [])
    decreases |lines| - k
  {
    var t := Map(OneLine, Map(AsText, ins));
    if k < |lines| {
      if ins != [] && ins[0].atLine == k + 1 {
        WovenText(lines, k + 1, ins[1..]);
        assert t[1..] == Map(OneLine, Map(AsText, ins[1..]));
        JoinAround(lines[k], ins[0].newLines, Woven(lines, k + 1, ins[1..]), Woven(lines, k + 1, t[1..]));
      } else {
        WovenText(lines, k + 1, ins);
        JoinAround(lines[k], [], Woven(lines, k + 1, ins), Woven(lines, k + 1, t));
        assert [lines[k]] + [] == [lines[k]];
      }
    }
  }

  lemma JoinAround(x: string, ys: seq<string>, zs: seq<string>, zs': seq<string>)
    requires Join(zs, '\n') == Join(zs', '\n') && (zs == [] <==> zs' == [])
    ensures Join([x] + ys + zs, '\n')
         == Join([x] + (if ys == [] then [] else [Join(ys, '\n')]) + zs', '\n')
  {
    var y := if ys == [] then [] else [Join(ys, '\n')];
    if ys != [] {
      JoinConcat([x], ys, '\n');
      JoinConcat([x], y, '\n');
    } else {
      assert [x] + ys == [x] + y;
    }
    if zs == [] {
      assert [x] + ys + zs == [x] + ys && [x] + y + zs' == [x] + y;
    } else {
      JoinConcat([x] + ys, zs, '\n');
      JoinConcat([x] + y, zs', '\n');
    }
  }

  /** Phase 3: the edits are made from the last one to the first, so that line numbers stay valid. */
  method InsertBackwards(lines: seq<string>, inserts: seq<TextInsertion>) returns (result: seq<string>)
    requires Placeable(Map(OneLine, inserts), 0, |lines|)
    ensures result == Woven(lines, 0, Map(OneLine, inserts))
  {
    ghost var t := Map(OneLine, inserts);
    result := lines;
    var i := |inserts|;
    WovenNothing(lines, 0);
    assert lines[0..] == lines && t[i..] == [];
    while i > 0
      invariant 0 <= i <= |inserts|
      invariant result == Woven(lines, 0, t[i..])
    {
      i := i - 1;
      assert t[i..][1..] == t[i + 1..] && t[i..][0] == t[i];
      assert Placeable(t[i..], 0, |lines|);
      WovenFirst(lines, 0, t[i..]);
      result := result[..inserts[i].atLine] + [inserts[i].text] + result[inserts[i].atLine..];
    }
    assert t[0..] == t;
  }

  lemma TextInserted(lines: seq<string>, svcs: seq<Svc>)
    ensures var ins := Insertions(svcs);
            Join(Woven(lines, 0, ins), '\n') == Join(Woven(lines, 0, Map(OneLine, Map(AsText, ins))), '\n')
  {
    var ins := Insertions(svcs);
    forall j | 0 <= j < |ins| ensures ins[j].newLines != [] {
      var n := InsertionsSource(svcs, j);
      InsertionLines(svcs[n]);
    }
    WovenText(lines, 0, ins);
  }

  method InjectSocketLabelDisable(content: string) returns (r: string)
    ensures r == Inject(content)
  {
    var lines := Split(content, '\n');
    var svcs := FindServices(Map(Classify, lines));
    var inserts := PlanInsertions(svcs);
    if |inserts| == 0 {
      NoInsertions(svcs);
      UnchangedIff(content);
      return content;
    }
    DocumentLaid(lines);
    InsertionsPlaceable(svcs, 0, |lines|);
    var result := InsertBackwards(lines, inserts);
    TextInserted(lines, svcs);
    r := Join(result, '\n');
  }
}
