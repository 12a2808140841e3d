/** plugins/appstore/renderer.go: which lines of a compose document form a service, stated by the positions
    of lines, and what the injection of `label=disable` does to the services so defined. */
module ComposeServices {
  import opened Text
  import opened Compose
  import opened Optional

  // ---------------------------------------------------------------------------------------------
  // Services by line positions
  // ---------------------------------------------------------------------------------------------

  /** A single key, deeper than a `services:` key of indentation `base`. */
  predicate Heads(l: Line, base: int) {
    l.headerShape && l.indent > base
  }

  /** Something that stands no deeper than that key. */
  predicate Shallow(l: Line, base: int) {
    !l.blank && !l.comment && l.indent <= base
  }

  /** Line f is the first service under the key of line b; its indentation is that of all services there. */
  ghost predicate FirstService(ls: seq<Line>, b: int, f: int) {
    && 0 <= b < f < |ls| && Heads(ls[f], ls[b].indent)
    && forall k | b < k < f :: !Heads(ls[k], ls[b].indent)
  }

  /** Line e lies behind the first service of line b, and no deeper than line b. */
  ghost predicate Leaves(ls: seq<Line>, b: int, e: int) {
    0 <= b < e < |ls| && Shallow(ls[e], ls[b].indent) && exists f :: f < e && FirstService(ls, b, f)
  }

  /** No line between b and i leaves the block of line b. */
  ghost predicate Reaches(ls: seq<Line>, b: int, i: int) {
    0 <= b < i <= |ls| && forall e | b < e < i :: !Leaves(ls, b, e)
  }

  /** Line b opens a block of services: its key is not inside, or right behind, a block opened before. */
  ghost predicate Opens(ls: seq<Line>, b: int)
    decreases b
  {
    0 <= b < |ls| && ls[b].services && forall a | 0 <= a < b :: Opens(ls, a) ==> !Reaches(ls, a, b)
  }

  ghost predicate StartsUnder(ls: seq<Line>, b: int, f: int, s: int) {
    && Opens(ls, b) && Reaches(ls, b, s) && FirstService(ls, b, f)
    && f <= s < |ls| && ls[s].headerShape && ls[s].indent == ls[f].indent
  }

  /** A service starts at every header of the services' indentation inside a block. */
  ghost predicate Starts(ls: seq<Line>, s: int) {
    exists b, f :: StartsUnder(ls, b, f, s)
  }

  /** Line e is the first one behind a block. */
  ghost predicate Ends(ls: seq<Line>, e: int) {
    exists b :: Opens(ls, b) && Reaches(ls, b, e) && Leaves(ls, b, e)
  }

  /** Lines s to e are one service: up to the next start, the end of the block or of the document. */
  ghost predicate Service(ls: seq<Line>, s: int, e: int) {
    && s <= e < |ls| && Starts(ls, s)
    && (forall k | s < k <= e :: !Starts(ls, k) && !Ends(ls, k))
    && (e + 1 < |ls| ==> var next := e + 1; Starts(ls, next) || Ends(ls, next))
  }

  // ---------------------------------------------------------------------------------------------
  // What the lines s to e of a service say
  // ---------------------------------------------------------------------------------------------

  /** Line v is the `volumes:` key that is open behind line i. */
  ghost predicate VolumesFrom(ls: seq<Line>, s: int, v: int, i: int) {
    && 0 <= s < v <= i < |ls| && ls[v].volumes
    && forall k | v < k <= i ::
         !ls[k].volumes && !ls[k].securityOpt && (ls[k].blank || ls[k].indent > ls[v].indent)
  }

  /** Line i stands under the open `volumes:` key of line v and names the engine's socket. */
  ghost predicate MountLine(ls: seq<Line>, s: int, v: int, i: int) {
    && i < |ls| && VolumesFrom(ls, s, v, i - 1)
    && !ls[i].volumes && (ls[i].blank || ls[i].indent > ls[v].indent) && ls[i].socket
  }

  ghost predicate Mounts(ls: seq<Line>, s: int, e: int) {
    exists v, i :: i <= e && MountLine(ls, s, v, i)
  }

  /** Line o is the `security_opt:` key that is open behind line i. */
  ghost predicate SecurityFrom(ls: seq<Line>, s: int, o: int, i: int) {
    && 0 <= s < o <= i < |ls| && ls[o].securityOpt
    && forall k | o < k <= i ::
         !ls[k].volumes && !ls[k].securityOpt && (ls[k].blank || ls[k].indent > ls[o].indent)
  }

  /** Line i is a list item under the open `security_opt:` key of line o. */
  ghost predicate ItemLine(ls: seq<Line>, s: int, o: int, i: int) {
    o < i && SecurityFrom(ls, s, o, i) && ls[i].item
  }

  ghost predicate Item(ls: seq<Line>, s: int, i: int) {
    exists o :: ItemLine(ls, s, o, i)
  }

  ghost predicate Declares(ls: seq<Line>, s: int, e: int) {
    exists i :: 0 <= i < |ls| && i <= e && Item(ls, s, i) && ls[i].labelDisable
  }

  /** Line o is the last `security_opt:` key of the service. */
  ghost predicate LastKey(ls: seq<Line>, s: int, e: int, o: int) {
    0 <= s < o <= e < |ls| && ls[o].securityOpt && forall k | o < k <= e :: !ls[k].securityOpt
  }

  ghost predicate NoKey(ls: seq<Line>, s: int, e: int) {
    0 <= s <= e < |ls| && forall k | s < k <= e :: !ls[k].securityOpt
  }

  ghost predicate FirstItem(ls: seq<Line>, s: int, e: int, i: int) {
    0 <= i <= e < |ls| && Item(ls, s, i) && forall k | s < k < i :: !Item(ls, s, k)
  }

  ghost predicate NoItem(ls: seq<Line>, s: int, e: int) {
    forall k | s < k <= e :: !Item(ls, s, k)
  }

  ghost predicate KeyRecorded(ls: seq<Line>, s: int, e: int, c: Svc) {
    if c.secOptIndex >= 0 then LastKey(ls, s, e, c.secOptIndex) && c.secOptIndent == ls[c.secOptIndex].indent
    else c.secOptIndex == -1 && NoKey(ls, s, e)
  }

  ghost predicate ItemRecorded(ls: seq<Line>, s: int, e: int, c: Svc) {
    if c.listItemIndent >= 0 then exists i :: FirstItem(ls, s, e, i) && c.listItemIndent == ls[i].indent
    else c.listItemIndent == -1 && NoItem(ls, s, e)
  }

  /** `c` is a true record of the lines s to e. */
  ghost predicate Records(ls: seq<Line>, s: int, e: int, c: Svc) {
    && 0 <= s <= e < |ls| && c.start == s && c.indent == ls[s].indent
    && (c.mountsSock <==> Mounts(ls, s, e))
    && (c.hasLabelDisable <==> Declares(ls, s, e))
    && KeyRecorded(ls, s, e, c) && ItemRecorded(ls, s, e, c)
  }

  /** Two different keys. */
  ghost predicate Distinct(l: Line) {
    !(l.volumes && l.securityOpt)
  }

  // ---------------------------------------------------------------------------------------------
  // Inside a service, line by line
  // ---------------------------------------------------------------------------------------------

  ghost predicate VolumesAt(ls: seq<Line>, s: int, i: int, open: bool, indent: int) {
    if open then exists v :: VolumesFrom(ls, s, v, i) && indent == ls[v].indent
    else forall v :: !VolumesFrom(ls, s, v, i)
  }

  ghost predicate SecurityAt(ls: seq<Line>, s: int, i: int, open: bool, o: int) {
    if open then SecurityFrom(ls, s, o, i) else forall p :: !SecurityFrom(ls, s, p, i)
  }

  /** What the scan knows of the open service s when line e is the last one it has read. */
  ghost predicate Read(ls: seq<Line>, s: int, e: int, st: State) {
    && st.cur.Some? && Records(ls, s, e, st.cur.value)
    && VolumesAt(ls, s, e, st.inVolumes, st.volIndent)
    && SecurityAt(ls, s, e, st.inSecOpt, st.cur.value.secOptIndex)
  }

  lemma VolumesStep(ls: seq<Line>, s: int, v: int, i: int)
    requires 0 <= s < i < |ls|
    ensures VolumesFrom(ls, s, v, i) <==>
              if v == i then ls[i].volumes
              else VolumesFrom(ls, s, v, i - 1) && !ls[i].volumes && !ls[i].securityOpt
                   && (ls[i].blank || ls[i].indent > ls[v].indent)
  {
  }

  lemma SecurityStep(ls: seq<Line>, s: int, o: int, i: int)
    requires 0 <= s < i < |ls|
    ensures SecurityFrom(ls, s, o, i) <==>
              if o == i then ls[i].securityOpt
              else SecurityFrom(ls, s, o, i - 1) && !ls[i].volumes && !ls[i].securityOpt
                   && (ls[i].blank || ls[i].indent > ls[o].indent)
  {
  }

  lemma OneVolumes(ls: seq<Line>, s: int, v: int, w: int, i: int)
    requires VolumesFrom(ls, s, v, i) && VolumesFrom(ls, s, w, i)
    ensures v == w
  {
  }

  lemma OneSecurity(ls: seq<Line>, s: int, o: int, p: int, i: int)
    requires SecurityFrom(ls, s, o, i) && SecurityFrom(ls, s, p, i)
    ensures o == p
  {
  }

  function VolumesOpen(st: State, l: Line): bool {
    l.volumes || (st.inVolumes && (l.blank || l.indent > st.volIndent) && !l.securityOpt)
  }

  lemma VolumesNext(ls: seq<Line>, s: int, i: int, st: State)
    requires 0 <= s < i < |ls| && VolumesAt(ls, s, i - 1, st.inVolumes, st.volIndent)
    ensures VolumesAt(ls, s, i, VolumesOpen(st, ls[i]), if ls[i].volumes then ls[i].indent else st.volIndent)
    ensures (exists v :: MountLine(ls, s, v, i)) <==>
              !ls[i].volumes && st.inVolumes && (ls[i].blank || ls[i].indent > st.volIndent) && ls[i].socket
  {
    forall v ensures VolumesFrom(ls, s, v, i) <==>
              if v == i then ls[i].volumes
              else VolumesFrom(ls, s, v, i - 1) && !ls[i].volumes && !ls[i].securityOpt
                   && (ls[i].blank || ls[i].indent > ls[v].indent)
    {
      VolumesStep(ls, s, v, i);
    }
    var before := i - 1;
    if st.inVolumes {
      var w :| VolumesFrom(ls, s, w, before) && st.volIndent == ls[w].indent;
      forall v | VolumesFrom(ls, s, v, before) ensures v == w { OneVolumes(ls, s, v, w, before); }
      assert MountLine(ls, s, w, i) <==>
               !ls[i].volumes && (ls[i].blank || ls[i].indent > st.volIndent) && ls[i].socket;
      assert VolumesFrom(ls, s, w, i) <==>
               !ls[i].volumes && !ls[i].securityOpt && (ls[i].blank || ls[i].indent > st.volIndent);
    }
    if ls[i].volumes { assert VolumesFrom(ls, s, i, i); }
  }

  function SecurityOpen(st: State, l: Line): bool
    requires st.cur.Some?
  {
    l.securityOpt || (st.inSecOpt && !l.volumes && (l.blank || l.indent > st.cur.value.secOptIndent))
  }

  lemma SecurityNext(ls: seq<Line>, s: int, i: int, st: State)
    requires 0 <= s < i < |ls| && Distinct(ls[i]) && st.cur.Some?
    requires SecurityAt(ls, s, i - 1, st.inSecOpt, st.cur.value.secOptIndex)
    requires st.inSecOpt ==>
               var c := st.cur.value; 0 <= c.secOptIndex < |ls| && c.secOptIndent == ls[c.secOptIndex].indent
    ensures SecurityAt(ls, s, i, SecurityOpen(st, ls[i]), if ls[i].securityOpt then i else st.cur.value.secOptIndex)
    ensures Item(ls, s, i) <==> st.inSecOpt && !ls[i].securityOpt && SecurityOpen(st, ls[i]) && ls[i].item
  {
    forall o ensures SecurityFrom(ls, s, o, i) <==>
              if o == i then ls[i].securityOpt
              else SecurityFrom(ls, s, o, i - 1) && !ls[i].volumes && !ls[i].securityOpt
                   && (ls[i].blank || ls[i].indent > ls[o].indent)
    {
      SecurityStep(ls, s, o, i);
    }
    var before, p := i - 1, st.cur.value.secOptIndex;
    if st.inSecOpt {
      forall o | SecurityFrom(ls, s, o, before) ensures o == p { OneSecurity(ls, s, o, p, before); }
      assert ItemLine(ls, s, p, i) <==> SecurityFrom(ls, s, p, i) && ls[i].item;
    }
  }

  lemma MountsNext(ls: seq<Line>, s: int, i: int)
    ensures Mounts(ls, s, i) <==> Mounts(ls, s, i - 1) || exists v :: MountLine(ls, s, v, i)
  {
  }

  lemma DeclaresNext(ls: seq<Line>, s: int, i: int)
    requires 0 <= i < |ls|
    ensures Declares(ls, s, i) <==> Declares(ls, s, i - 1) || (Item(ls, s, i) && ls[i].labelDisable)
  {
    hide Item;
  }

  lemma KeyNext(ls: seq<Line>, s: int, i: int)
    requires 0 <= s < i < |ls|
    ensures ls[i].securityOpt ==> LastKey(ls, s, i, i)
    ensures !ls[i].securityOpt ==> (NoKey(ls, s, i - 1) ==> NoKey(ls, s, i)) &&
                                   forall o :: LastKey(ls, s, i - 1, o) ==> LastKey(ls, s, i, o)
  {
  }

  lemma FirstItemNext(ls: seq<Line>, s: int, i: int)
    requires 0 <= s < i < |ls|
    ensures NoItem(ls, s, i - 1) ==> if Item(ls, s, i) then FirstItem(ls, s, i, i) else NoItem(ls, s, i)
    ensures forall j :: FirstItem(ls, s, i - 1, j) ==> FirstItem(ls, s, i, j)
  {
    hide Item;
  }

  lemma KeyRecordedNext(ls: seq<Line>, s: int, i: int, c: Svc, c': Svc)
    requires 0 <= s < i < |ls| && KeyRecorded(ls, s, i - 1, c)
    requires if ls[i].securityOpt then c'.secOptIndex == i && c'.secOptIndent == ls[i].indent
             else c'.secOptIndex == c.secOptIndex && c'.secOptIndent == c.secOptIndent
    ensures KeyRecorded(ls, s, i, c')
  {
    KeyNext(ls, s, i);
  }

  lemma ItemRecordedNext(ls: seq<Line>, s: int, i: int, c: Svc, c': Svc)
    requires 0 <= s < i < |ls| && ItemRecorded(ls, s, i - 1, c)
    requires c'.listItemIndent == if Item(ls, s, i) && c.listItemIndent < 0 then ls[i].indent else c.listItemIndent
    ensures ItemRecorded(ls, s, i, c')
  {
    FirstItemNext(ls, s, i);
    hide Item, FirstItem, NoItem;
    if c.listItemIndent >= 0 {
      var j :| FirstItem(ls, s, i - 1, j) && c.listItemIndent == ls[j].indent;
      assert FirstItem(ls, s, i, j);
    } else if Item(ls, s, i) {
      assert FirstItem(ls, s, i, i);
    }
  }

  predicate NamesMount(st: State, l: Line) {
    !l.volumes && st.inVolumes && (l.blank || l.indent > st.volIndent) && l.socket
  }

  predicate GivesItem(st: State, l: Line)
    requires st.cur.Some?
  {
    st.inSecOpt && !l.securityOpt && SecurityOpen(st, l) && l.item
  }

  /** What one line changes, field by field. */
  lemma InsideFields(st: State, i: int, l: Line)
    requires st.cur.Some? && Distinct(l)
    ensures
      var u, c := StepInside(st, i, l), st.cur.value;
      && u.cur.Some?
      && var c' := u.cur.value;
      && u.servicesIndent == st.servicesIndent && u.svcs == st.svcs && c'.start == c.start && c'.indent == c.indent
      && u.inVolumes == VolumesOpen(st, l) && u.volIndent == (if l.volumes then l.indent else st.volIndent)
      && u.inSecOpt == SecurityOpen(st, l)
      && c'.secOptIndex == (if l.securityOpt then i else c.secOptIndex)
      && c'.secOptIndent == (if l.securityOpt then l.indent else c.secOptIndent)
      && (c'.mountsSock <==> c.mountsSock || NamesMount(st, l))
      && (c'.hasLabelDisable <==> c.hasLabelDisable || (GivesItem(st, l) && l.labelDisable))
      && c'.listItemIndent == if GivesItem(st, l) && c.listItemIndent < 0 then l.indent else c.listItemIndent
  {
  }

  /** Reading one more line of the service keeps the record true. */
  lemma ReadNext(ls: seq<Line>, s: int, i: int, st: State)
    requires 0 <= s < i < |ls| && Distinct(ls[i]) && Read(ls, s, i - 1, st)
    ensures Read(ls, s, i, StepInside(st, i, ls[i]))
  {
    var l, u := ls[i], StepInside(st, i, ls[i]);
    InsideFields(st, i, l);
    assert st.inSecOpt ==> SecurityFrom(ls, s, st.cur.value.secOptIndex, i - 1);
    hide StepInside;
    VolumesNext(ls, s, i, st);
    SecurityNext(ls, s, i, st);
    hide SecurityOpen, VolumesOpen;
    KeyRecordedNext(ls, s, i, st.cur.value, u.cur.value);
    ItemRecordedNext(ls, s, i, st.cur.value, u.cur.value);
    MountsNext(ls, s, i);
    DeclaresNext(ls, s, i);
    hide Mounts, Declares, KeyRecorded, ItemRecorded, Item, MountLine, VolumesAt, SecurityAt;
  }

  // ---------------------------------------------------------------------------------------------
  // Blocks, line by line
  // ---------------------------------------------------------------------------------------------

  /** Line i belongs to the block of line b, or is the first line behind it. */
  ghost predicate Open(ls: seq<Line>, b: int, i: int) {
    Opens(ls, b) && Reaches(ls, b, i)
  }

  ghost predicate Outside(ls: seq<Line>, i: int) {
    forall b :: !Open(ls, b, i)
  }

  lemma Shadowed(ls: seq<Line>, a: int, b: int, i: int)
    requires Open(ls, a, i) && a < b <= i
    ensures !Opens(ls, b)
  {
    hide Leaves;
    assert Reaches(ls, a, b);
  }

  lemma OnlyOpen(ls: seq<Line>, a: int, b: int, i: int)
    requires Open(ls, a, i) && Open(ls, b, i)
    ensures a == b
  {
    if a < b {
      Shadowed(ls, a, b, i);
    } else if b < a {
      Shadowed(ls, b, a, i);
    }
  }

  lemma ReachesNext(ls: seq<Line>, b: int, i: int)
    requires 0 <= i < |ls|
    ensures Reaches(ls, b, i + 1) <==> b == i || (Reaches(ls, b, i) && !Leaves(ls, b, i))
  {
    hide Leaves;
  }

  lemma OpenNext(ls: seq<Line>, b: int, i: int)
    requires Open(ls, b, i) && i < |ls|
    ensures if Leaves(ls, b, i) then Outside(ls, i + 1) else Open(ls, b, i + 1)
  {
    ReachesNext(ls, b, i);
    if Leaves(ls, b, i) {
      var next := i + 1;
      forall a ensures !Open(ls, a, next) {
        ReachesNext(ls, a, i);
        if Open(ls, a, next) {
          if a == i { Shadowed(ls, b, a, i); } else { OnlyOpen(ls, a, b, i); }
        }
      }
    }
  }

  lemma OutsideNext(ls: seq<Line>, i: int)
    requires Outside(ls, i) && 0 <= i < |ls|
    ensures if ls[i].services then Open(ls, i, i + 1) else Outside(ls, i + 1)
  {
    ReachesNext(ls, i, i);
    if ls[i].services {
      forall a | 0 <= a < i && Opens(ls, a) ensures !Reaches(ls, a, i) { assert !Open(ls, a, i); }
      assert Opens(ls, i);
    } else {
      var next := i + 1;
      forall a ensures !Open(ls, a, next) {
        ReachesNext(ls, a, i);
        assert !Open(ls, a, i);
      }
    }
  }

  lemma StartsBelow(ls: seq<Line>, s: int)
    requires Starts(ls, s)
    ensures 0 <= s < |ls|
  {
  }

  /** What the scan knows of the services of the block of line b: their indentation, if there is one yet. */
  ghost predicate HeadAt(ls: seq<Line>, b: int, i: int, cur: Option<Svc>)
    requires 0 <= b < i <= |ls|
  {
    if cur.None? then forall k | b < k < i :: !Heads(ls[k], ls[b].indent)
    else exists f :: f < i && FirstService(ls, b, f) && ls[f].indent == cur.value.indent
  }

  lemma OneFirst(ls: seq<Line>, b: int, f: int, g: int)
    requires FirstService(ls, b, f) && FirstService(ls, b, g)
    ensures f == g
  {
  }

  lemma LeavesIff(ls: seq<Line>, b: int, i: int, cur: Option<Svc>)
    requires 0 <= b < i < |ls| && HeadAt(ls, b, i, cur)
    ensures Leaves(ls, b, i) <==> cur.Some? && Shallow(ls[i], ls[b].indent)
  {
  }

  /** The next line starts a service, or leaves the block, exactly when the scan takes it so. */
  lemma ReadsBlock(ls: seq<Line>, b: int, i: int, st: State)
    requires Open(ls, b, i) && i < |ls| && HeadAt(ls, b, i, st.cur) && st.servicesIndent == ls[b].indent
    ensures Starts(ls, i) <==> IsServiceHeader(st, ls[i])
    ensures Ends(ls, i) <==> st.cur.Some? && Shallow(ls[i], ls[b].indent)
    ensures Ends(ls, i) <==> Leaves(ls, b, i)
    ensures Starts(ls, i) ==> !Ends(ls, i)
    ensures Starts(ls, i) ==> HeadAt(ls, b, i + 1, Some(NewSvc(i, ls[i].indent)))
    ensures !Starts(ls, i) ==> HeadAt(ls, b, i + 1, st.cur)
  {
    assert 0 <= b < i && Opens(ls, b) && Reaches(ls, b, i);
    hide Opens, Reaches, Leaves;
    forall a | Open(ls, a, i) ensures a == b { OnlyOpen(ls, a, b, i); }
    forall a | Opens(ls, a) && Reaches(ls, a, i) ensures a == b { assert Open(ls, a, i); }
    LeavesIff(ls, b, i, st.cur);
    assert Ends(ls, i) <==> Leaves(ls, b, i);
    if st.cur.Some? {
      var f :| f < i && FirstService(ls, b, f) && ls[f].indent == st.cur.value.indent;
      forall g | FirstService(ls, b, g) ensures g == f { OneFirst(ls, b, f, g); }
      assert StartsUnder(ls, b, f, i) <==> IsServiceHeader(st, ls[i]);
    } else {
      assert FirstService(ls, b, i) <==> Heads(ls[i], ls[b].indent);
      if IsServiceHeader(st, ls[i]) { assert StartsUnder(ls, b, i, i); }
    }
  }

  lemma StartsOpen(ls: seq<Line>, b: int, f: int, i: int)
    ensures StartsUnder(ls, b, f, i) ==> Open(ls, b, i)
  {
  }

  lemma NothingOutside(ls: seq<Line>, i: int)
    requires Outside(ls, i)
    ensures !Starts(ls, i) && !Ends(ls, i)
  {
    forall b, f ensures !StartsUnder(ls, b, f, i) { StartsOpen(ls, b, f, i); }
    forall b ensures !(Opens(ls, b) && Reaches(ls, b, i) && Leaves(ls, b, i)) { assert !Open(ls, b, i); }
  }

  // ---------------------------------------------------------------------------------------------
  // The scan finds exactly the services
  // ---------------------------------------------------------------------------------------------

  ghost predicate Recorded(ls: seq<Line>, c: Svc) {
    Service(ls, c.start, c.end) && Records(ls, c.start, c.end, c)
  }

  ghost predicate Found(f: seq<Svc>, s: int) {
    exists j :: 0 <= j < |f| && f[j].start == s
  }

  /** The services that start before line `limit`, in order, each with a true record. */
  ghost predicate Lists(ls: seq<Line>, f: seq<Svc>, limit: int) {
    && (forall j | 0 <= j < |f| :: Recorded(ls, f[j]) && f[j].start < limit)
    && (forall i, j | 0 <= i < j < |f| :: f[i].start < f[j].start)
    && (forall s | Starts(ls, s) && s < limit :: Found(f, s))
  }

  /** Lines s to i are lines of one service, which may go on. */
  ghost predicate Within(ls: seq<Line>, s: int, i: int) {
    s <= i < |ls| && Starts(ls, s) && forall k | s < k <= i :: !Starts(ls, k) && !Ends(ls, k)
  }

  ghost predicate BlockKnown(ls: seq<Line>, i: int, st: State) {
    if st.servicesIndent < 0 then st.cur.None? && Outside(ls, i)
    else exists b ::
      0 <= b < i <= |ls| && Open(ls, b, i) && HeadAt(ls, b, i, st.cur) && st.servicesIndent == ls[b].indent
  }

  ghost predicate Knows(ls: seq<Line>, i: int, st: State) {
    0 <= i <= |ls| && BlockKnown(ls, i, st) && ListKnown(ls, i, st)
  }

  ghost predicate ListKnown(ls: seq<Line>, i: int, st: State) {
    if st.cur.Some? then
      && Lists(ls, st.svcs, st.cur.value.start) && Within(ls, st.cur.value.start, i - 1)
      && Read(ls, st.cur.value.start, i - 1, st)
    else Lists(ls, st.svcs, i)
  }

  lemma KnowsStart(ls: seq<Line>)
    ensures Knows(ls, 0, Initial)
  {
    forall b ensures !Open(ls, b, 0) {}
    forall s ensures !(Starts(ls, s) && s < 0) {}
  }

  lemma ListsMore(ls: seq<Line>, f: seq<Svc>, i: int)
    requires Lists(ls, f, i) && !Starts(ls, i)
    ensures Lists(ls, f, i + 1)
  {
    hide Recorded, Starts, Found;
  }

  lemma ListsClosed(ls: seq<Line>, f: seq<Svc>, c: Svc, i: int)
    requires Lists(ls, f, c.start) && Recorded(ls, c) && c.end == i - 1
    ensures Lists(ls, f + [c], i)
  {
    hide Recorded, Starts;
    assert Within(ls, c.start, i - 1) by { ServiceWithin(ls, c); }
    var g := f + [c];
    forall s | Starts(ls, s) && s < i ensures Found(g, s) {
      if s < c.start {
        var j :| 0 <= j < |f| && f[j].start == s;
        assert g[j].start == s;
      } else {
        assert g[|f|].start == s;
      }
    }
  }

  lemma ServiceWithin(ls: seq<Line>, c: Svc)
    requires Recorded(ls, c)
    ensures Within(ls, c.start, c.end)
  {
  }

  lemma NewRecord(ls: seq<Line>, i: int, st: State)
    requires 0 <= i < |ls| && st.cur == Some(NewSvc(i, ls[i].indent)) && !st.inVolumes && !st.inSecOpt
    ensures Read(ls, i, i, st)
  {
  }

  /** The open service ends where the next one starts, where its block ends, or with the document. */
  lemma CloseKnown(ls: seq<Line>, i: int, st: State)
    requires 0 <= i <= |ls| && ListKnown(ls, i, st) && st.cur.Some?
    requires i == |ls| || Starts(ls, i) || Ends(ls, i)
    ensures Lists(ls, Close(st, i - 1), i)
  {
    hide Starts, Ends, Lists, BlockKnown;
    var c := st.cur.value.(end := i - 1);
    assert Service(ls, c.start, c.end);
    assert Records(ls, c.start, c.end, c) by {
      hide Mounts, Declares, KeyRecorded, ItemRecorded;
      SameRecord(ls, st.cur.value, c);
    }
    ListsClosed(ls, st.svcs, c, i);
  }

  lemma SameRecord(ls: seq<Line>, c: Svc, c': Svc)
    requires Records(ls, c.start, c'.end, c) && c' == c.(end := c'.end)
    ensures Records(ls, c.start, c'.end, c')
  {
  }

  lemma BlockNext(ls: seq<Line>, i: int, st: State)
    requires 0 <= i < |ls| && BlockKnown(ls, i, st)
    ensures BlockKnown(ls, i + 1, Step(st, i, ls[i]))
    ensures Starts(ls, i) <==> IsServiceHeader(st, ls[i])
    ensures Ends(ls, i) <==> st.servicesIndent >= 0 && st.cur.Some? && Shallow(ls[i], st.servicesIndent)
    ensures Starts(ls, i) ==> !Ends(ls, i)
  {
    if st.servicesIndent < 0 {
      NothingOutside(ls, i);
      OutsideNext(ls, i);
      if ls[i].services { FreshBlock(ls, i); }
    } else {
      var b :| 0 <= b < i <= |ls| && Open(ls, b, i) && HeadAt(ls, b, i, st.cur) && st.servicesIndent == ls[b].indent;
      ReadsBlock(ls, b, i, st);
      OpenNext(ls, b, i);
      hide Open, Starts, Ends, Leaves, Opens;
      StepBlock(st, i, ls[i]);
      hide Step;
      var u := Step(st, i, ls[i]);
      if !Ends(ls, i) {
        SameHead(ls, b, i + 1, if Starts(ls, i) then Some(NewSvc(i, ls[i].indent)) else st.cur, u.cur);
      }
    }
  }

  lemma FreshBlock(ls: seq<Line>, i: int)
    requires 0 <= i < |ls|
    ensures HeadAt(ls, i, i + 1, None)
  {
  }

  lemma SameHead(ls: seq<Line>, b: int, i: int, cur: Option<Svc>, cur': Option<Svc>)
    requires 0 <= b < i <= |ls| && HeadAt(ls, b, i, cur) && cur.Some? == cur'.Some?
    requires cur.Some? ==> cur.value.indent == cur'.value.indent
    ensures HeadAt(ls, b, i, cur')
  {
  }

  /** What one line does to block and service, without the record. */
  lemma StepBlock(st: State, i: int, l: Line)
    requires st.servicesIndent >= 0
    ensures
      var u := Step(st, i, l);
      var header, leaves := IsServiceHeader(st, l), st.cur.Some? && Shallow(l, st.servicesIndent);
      if header then
        && u.servicesIndent == st.servicesIndent && u.cur == Some(NewSvc(i, l.indent))
        && u.svcs == Close(st, i - 1) && !u.inVolumes && !u.inSecOpt
      else if leaves then
        u.servicesIndent == -1 && u.cur.None? && u.svcs == Close(st, i - 1)
      else if st.cur.None? then u == st
      else
        && u == StepInside(st, i, l) && u.cur.Some? && u.svcs == st.svcs && u.servicesIndent == st.servicesIndent
        && u.cur.value.indent == st.cur.value.indent && u.cur.value.start == st.cur.value.start
  {
  }

  lemma ListNew(ls: seq<Line>, i: int, st: State, u: State)
    requires 0 <= i < |ls| && ListKnown(ls, i, st) && Starts(ls, i)
    requires u.cur == Some(NewSvc(i, ls[i].indent)) && u.svcs == Close(st, i - 1) && !u.inVolumes && !u.inSecOpt
    ensures ListKnown(ls, i + 1, u)
  {
    if st.cur.Some? { CloseKnown(ls, i, st); }
    NewRecord(ls, i, u);
    hide Lists, Read, Starts, Ends;
  }

  lemma ListLeft(ls: seq<Line>, i: int, st: State, u: State)
    requires 0 <= i < |ls| && ListKnown(ls, i, st) && st.cur.Some? && Ends(ls, i) && !Starts(ls, i)
    requires u.cur.None? && u.svcs == Close(st, i - 1)
    ensures ListKnown(ls, i + 1, u)
  {
    CloseKnown(ls, i, st);
    ListsMore(ls, u.svcs, i);
    hide Lists, Read, Starts, Ends;
  }

  lemma ListInside(ls: seq<Line>, i: int, st: State, u: State)
    requires 0 <= i < |ls| && ListKnown(ls, i, st) && st.cur.Some? && !Ends(ls, i) && !Starts(ls, i) && Distinct(ls[i])
    requires u == StepInside(st, i, ls[i]) && u.cur.Some?
    requires u.svcs == st.svcs && u.cur.value.start == st.cur.value.start
    ensures ListKnown(ls, i + 1, u)
  {
    StartsBelow(ls, st.cur.value.start);
    ReadNext(ls, st.cur.value.start, i, st);
    hide Lists, Read, Starts, Ends, StepInside;
  }

  lemma KnowsNext(ls: seq<Line>, i: int, st: State)
    requires i < |ls| && Knows(ls, i, st) && Distinct(ls[i])
    ensures Knows(ls, i + 1, Step(st, i, ls[i]))
  {
    BlockNext(ls, i, st);
    var u := Step(st, i, ls[i]);
    ListNext(ls, i, st, u);
    hide BlockKnown, ListKnown;
  }

  lemma ListNext(ls: seq<Line>, i: int, st: State, u: State)
    requires 0 <= i < |ls| && ListKnown(ls, i, st) && Distinct(ls[i]) && u == Step(st, i, ls[i])
    requires st.servicesIndent < 0 ==> st.cur.None?
    requires Starts(ls, i) <==> IsServiceHeader(st, ls[i])
    requires Ends(ls, i) <==> st.servicesIndent >= 0 && st.cur.Some? && Shallow(ls[i], st.servicesIndent)
    requires Starts(ls, i) ==> !Ends(ls, i)
    ensures ListKnown(ls, i + 1, u)
  {
    hide StepInside, ListKnown, Starts, Ends, Close;
    if st.servicesIndent >= 0 { StepBlock(st, i, ls[i]); }
    if Starts(ls, i) {
      ListNew(ls, i, st, u);
    } else if Ends(ls, i) {
      ListLeft(ls, i, st, u);
    } else if st.cur.None? {
      ListIdle(ls, i, st, u);
    } else {
      ListInside(ls, i, st, u);
    }
  }

  lemma ListIdle(ls: seq<Line>, i: int, st: State, u: State)
    requires ListKnown(ls, i, st) && !Starts(ls, i) && st.cur.None? && u.cur.None? && u.svcs == st.svcs
    ensures ListKnown(ls, i + 1, u)
  {
    ListsMore(ls, st.svcs, i);
    hide Lists;
  }

  ghost predicate AllDistinct(ls: seq<Line>) {
    forall i | 0 <= i < |ls| :: Distinct(ls[i])
  }

  lemma {:induction false} ScanKnows(ls: seq<Line>, i: nat, st: State)
    requires i <= |ls| && Knows(ls, i, st) && AllDistinct(ls)
    ensures Lists(ls, Final(ls[i..], i, st), |ls|)
    decreases |ls| - i
  {
    hide *;
    if i == |ls| {
      ScanOver(ls, st);
    } else {
      DistinctAt(ls, i);
      KnowsNext(ls, i, st);
      ScanKnows(ls, i + 1, Step(st, i, ls[i]));
      ScanOneMore(ls, i, st);
    }
  }

  lemma DistinctAt(ls: seq<Line>, i: nat)
    requires i < |ls| && AllDistinct(ls)
    ensures Distinct(ls[i])
  {
  }

  lemma ScanOneMore(ls: seq<Line>, i: nat, st: State)
    requires i < |ls|
    ensures Final(ls[i..], i, st) == Final(ls[i + 1..], i + 1, Step(st, i, ls[i]))
  {
    assert ls[i..][0] == ls[i] && ls[i..][1..] == ls[i + 1..];
    hide Step, Close;
  }

  lemma ScanOver(ls: seq<Line>, st: State)
    requires Knows(ls, |ls|, st)
    ensures Lists(ls, Final(ls[|ls|..], |ls|, st), |ls|)
  {
    if st.cur.Some? { CloseKnown(ls, |ls|, st); }
    hide Lists, Read, Within, BlockKnown;
    assert ls[|ls|..] == [];
    assert Final([], |ls|, st) == Close(st, |ls| - 1);
  }

  lemma ClassifyDistinct(lines: seq<string>)
    ensures AllDistinct(Classified(lines))
  {
    assert |"volumes:"| != |"security_opt:"|;
  }

  /** The scan finds exactly the services of the document, in order, and its record of each is true. */
  lemma ServicesExact(lines: seq<string>)
    ensures
      var ls, f := Classified(lines), Services(lines);
      && (forall s :: Starts(ls, s) <==> exists j :: 0 <= j < |f| && f[j].start == s)
      && (forall j | 0 <= j < |f| :: Service(ls, f[j].start, f[j].end) && Records(ls, f[j].start, f[j].end, f[j]))
      && (forall i, j | 0 <= i < j < |f| :: f[i].start < f[j].start)
  {
    var ls, f := Classified(lines), Services(lines);
    ClassifyDistinct(lines);
    KnowsStart(ls);
    ScanKnows(ls, 0, Initial);
    assert ls[0..] == ls;
    hide Starts, Records, Service;
    assert Lists(ls, f, |ls|);
    forall s | Starts(ls, s) ensures Found(f, s) { StartsBelow(ls, s); }
    forall j | 0 <= j < |f| ensures Starts(ls, f[j].start) { ServiceStarts(ls, f[j]); }
  }

  lemma ServiceStarts(ls: seq<Line>, c: Svc)
    requires Recorded(ls, c)
    ensures Starts(ls, c.start) && Service(ls, c.start, c.end) && Records(ls, c.start, c.end, c)
  {
  }

  // ---------------------------------------------------------------------------------------------
  // What the injection promises
  // ---------------------------------------------------------------------------------------------

  /** A service that mounts the socket and does not declare label=disable. */
  ghost predicate Bare(ls: seq<Line>, s: int, e: int) {
    Service(ls, s, e) && Mounts(ls, s, e) && !Declares(ls, s, e)
  }

  ghost predicate NoneBare(ls: seq<Line>) {
    forall s, e :: !Bare(ls, s, e)
  }

  /** Its edit goes behind a `security_opt:` key that is indented at least as deep as the first item. */
  ghost predicate BareUnderDeepKey(ls: seq<Line>, s: int, e: int) {
    Bare(ls, s, e) && exists o, i :: LastKey(ls, s, e, o) && FirstItem(ls, s, e, i) && ls[i].indent <= ls[o].indent
  }

  ghost predicate NoDeepKey(ls: seq<Line>) {
    forall s, e :: !BareUnderDeepKey(ls, s, e)
  }

  /** Every service that mounts the socket declares label=disable. */
  ghost predicate Protected(content: string) {
    NoneBare(Classified(Split(content, '\n')))
  }

  ghost predicate HasMisplaced(content: string) {
    !NoDeepKey(Classified(Split(content, '\n')))
  }

  lemma NoLonger(ls: seq<Line>, s: int, e: int, d: int)
    requires Service(ls, s, e) && e < d
    ensures !Service(ls, s, d)
  {
    hide Starts, Ends;
    var next := e + 1;
    assert s < next <= d;
  }

  lemma OneEnd(ls: seq<Line>, s: int, e: int, d: int)
    requires Service(ls, s, e) && Service(ls, s, d)
    ensures e == d
  {
    if e < d {
      NoLonger(ls, s, e, d);
    } else if d < e {
      NoLonger(ls, s, d, e);
    }
  }

  lemma BareIff(ls: seq<Line>, c: Svc)
    requires Recorded(ls, c)
    ensures NeedsEdit(c) <==> Bare(ls, c.start, c.end)
    ensures Misplaced(c) <==> BareUnderDeepKey(ls, c.start, c.end)
  {
    hide Mounts, Declares, Service;
    var s, e := c.start, c.end;
    forall o, p | LastKey(ls, s, e, o) && LastKey(ls, s, e, p) ensures o == p { OneLastKey(ls, s, e, o, p); }
    forall i, j | FirstItem(ls, s, e, i) && FirstItem(ls, s, e, j) ensures i == j { OneFirstItem(ls, s, e, i, j); }
    forall o | LastKey(ls, s, e, o) ensures !NoKey(ls, s, e) {}
    forall i | FirstItem(ls, s, e, i) ensures !NoItem(ls, s, e) { ItemInside(ls, s, e, i); }
    hide LastKey, NoKey, FirstItem, NoItem;
    if c.listItemIndent >= 0 {
      var i :| FirstItem(ls, s, e, i) && c.listItemIndent == ls[i].indent;
    }
  }

  lemma OneLastKey(ls: seq<Line>, s: int, e: int, o: int, p: int)
    requires LastKey(ls, s, e, o) && LastKey(ls, s, e, p)
    ensures o == p
  {
  }

  lemma ItemInside(ls: seq<Line>, s: int, e: int, i: int)
    requires FirstItem(ls, s, e, i)
    ensures s < i <= e && !NoItem(ls, s, e)
  {
    var o :| ItemLine(ls, s, o, i);
  }

  lemma OneFirstItem(ls: seq<Line>, s: int, e: int, i: int, j: int)
    requires FirstItem(ls, s, e, i) && FirstItem(ls, s, e, j)
    ensures i == j
  {
    ItemInside(ls, s, e, i);
    ItemInside(ls, s, e, j);
  }

  lemma RecordOf(lines: seq<string>, s: int, e: int) returns (j: int)
    requires Service(Classified(lines), s, e)
    ensures var f := Services(lines);
            0 <= j < |f| && f[j].start == s && f[j].end == e && Recorded(Classified(lines), f[j])
  {
    var ls, f := Classified(lines), Services(lines);
    ServicesExact(lines);
    hide Starts, Records;
    assert Starts(ls, s);
    j :| 0 <= j < |f| && f[j].start == s;
    OneEnd(ls, s, e, f[j].end);
  }

  lemma AllRecorded(lines: seq<string>, j: int)
    requires 0 <= j < |Services(lines)|
    ensures Recorded(Classified(lines), Services(lines)[j])
  {
    ServicesExact(lines);
    hide Starts, Records, Service;
  }

  lemma NoneBareIff(lines: seq<string>)
    ensures NoneBare(Classified(lines)) <==> AllProtected(Services(lines))
  {
    var ls, f := Classified(lines), Services(lines);
    hide Services, Classified, Bare;
    if NoneBare(ls) {
      forall x | x in f ensures x.mountsSock ==> x.hasLabelDisable {
        var j :| 0 <= j < |f| && f[j] == x;
        AllRecorded(lines, j);
        BareIff(ls, x);
      }
    } else {
      var s, e :| Bare(ls, s, e);
      BareService(ls, s, e);
      var j := RecordOf(lines, s, e);
      BareIff(ls, f[j]);
      assert f[j] in f && NeedsEdit(f[j]);
    }
  }

  lemma NoDeepKeyIff(lines: seq<string>)
    ensures NoDeepKey(Classified(lines)) <==> !SomeMisplaced(Services(lines))
  {
    var ls, f := Classified(lines), Services(lines);
    hide Services, Classified, BareUnderDeepKey, Misplaced;
    if NoDeepKey(ls) {
      forall x | x in f ensures !Misplaced(x) {
        var j :| 0 <= j < |f| && f[j] == x;
        AllRecorded(lines, j);
        BareIff(ls, x);
      }
    } else {
      var s, e :| BareUnderDeepKey(ls, s, e);
      DeepService(ls, s, e);
      var j := RecordOf(lines, s, e);
      BareIff(ls, f[j]);
      assert f[j] in f && Misplaced(f[j]);
    }
  }

  /** What holds of the services by position holds of those that the scan records. */
  lemma ScanCounts(content: string)
    ensures Protected(content) <==> ScanProtected(content)
    ensures HasMisplaced(content) <==> ScanMisplaced(content)
  {
    NoneBareIff(Split(content, '\n'));
    NoDeepKeyIff(Split(content, '\n'));
    hide NoneBare, NoDeepKey, AllProtected, SomeMisplaced, Services, Classified;
  }

  lemma DeepService(ls: seq<Line>, s: int, e: int)
    requires BareUnderDeepKey(ls, s, e)
    ensures Service(ls, s, e)
  {
  }

  lemma BareService(ls: seq<Line>, s: int, e: int)
    requires Bare(ls, s, e)
    ensures Service(ls, s, e)
  {
  }

  /** The edited document declares label=disable wherever the socket is mounted, exactly when no
      edit had to go under a `security_opt:` line indented at least as deep as the item. */
  lemma InjectProtects(content: string)
    ensures Protected(Inject(content)) <==> !HasMisplaced(content)
  {
    hide *;
    ScanCounts(content);
    ScanCounts(Inject(content));
    RescanProtects(content);
  }

  /** The document is left alone exactly when it is already protected. */
  lemma InjectUntouched(content: string)
    ensures Inject(content) == content <==> Protected(content)
  {
    hide *;
    ScanCounts(content);
    UnchangedIff(content);
  }

  /** A second run changes nothing exactly when no edit of the first one was misplaced. */
  lemma InjectIdempotent(content: string)
    ensures Inject(Inject(content)) == Inject(content) <==> !HasMisplaced(content)
  {
    hide *;
    ScanCounts(content);
    RerunUnchanged(content);
  }

  /** No service contains two `security_opt:` lines. */
  ghost predicate OneKeyEach(content: string) {
    var ls := Classified(Split(content, '\n'));
    forall s, e, i, j | Service(ls, s, e) && s < i < j <= e && ls[i].securityOpt :: !ls[j].securityOpt
  }

  lemma DeepKeyIsSecond(ls: seq<Line>, s: int, e: int)
    requires BareUnderDeepKey(ls, s, e) && forall i | 0 <= i < |ls| :: Visible(ls[i])
    ensures exists i, j :: s < i < j <= e < |ls| && 0 <= s && ls[i].securityOpt && ls[j].securityOpt
  {
    hide Bare;
    var o, i :| LastKey(ls, s, e, o) && FirstItem(ls, s, e, i) && ls[i].indent <= ls[o].indent;
    var p :| ItemLine(ls, s, p, i);
    assert Visible(ls[i]);
    assert ls[p].securityOpt && ls[o].securityOpt && p < o;
  }

  lemma OneKeyNotDeep(content: string)
    requires OneKeyEach(content)
    ensures !HasMisplaced(content)
  {
    var lines := Split(content, '\n');
    var ls := Classified(lines);
    forall i | 0 <= i < |ls| ensures Visible(ls[i]) { ClassifyVisible(lines[i]); }
    hide BareUnderDeepKey, Service, Classified, Visible, Split;
    if !NoDeepKey(ls) {
      var s, e :| BareUnderDeepKey(ls, s, e);
      DeepService(ls, s, e);
      DeepKeyIsSecond(ls, s, e);
    }
  }

  /** With at most one `security_opt:` line per service the injection is idempotent and protects
      every service that mounts the socket. */
  lemma OneKeyIdempotent(content: string)
    requires OneKeyEach(content)
    ensures Inject(Inject(content)) == Inject(content) && Protected(Inject(content))
  {
    OneKeyNotDeep(content);
    InjectIdempotent(content);
    InjectProtects(content);
  }

  /** A service with a second `security_opt:` line, deeper than the items of the first one, is
      edited again by every run and never becomes protected. */
  lemma TwoKeysRepeats(c: string)
    requires c == Join(TwoKeysLines, '\n')
    ensures Inject(Inject(c)) != Inject(c) && !Protected(Inject(c))
  {
    TwoKeysSplit();
    TwoKeysServices();
    ScanCounts(c);
    InjectIdempotent(c);
    InjectProtects(c);
  }

  // ---------------------------------------------------------------------------------------------
  // Where the edits go
  // ---------------------------------------------------------------------------------------------

  /** The lines to add to service s..e, and the line they go behind: its last `security_opt:` key or its own name. */
  ghost predicate EditFor(ls: seq<Line>, s: int, e: int, edit: Insertion<string>) {
    if NoKey(ls, s, e) then
      edit == Insertion(s + 1, [KeyLine(ls[s].indent + 2), LabelLine(ls[s].indent + 4)])
    else
      exists o ::
        && LastKey(ls, s, e, o) && edit.atLine == o + 1
        && if NoItem(ls, s, e) then edit.newLines == [LabelLine(ls[o].indent + 2)]
           else exists i :: FirstItem(ls, s, e, i) && edit.newLines == [LabelLine(ls[i].indent)]
  }

  lemma EditRight(ls: seq<Line>, c: Svc)
    requires Recorded(ls, c)
    ensures EditFor(ls, c.start, c.end, InsertionFor(c))
  {
    hide Mounts, Declares, Service;
    var s, e := c.start, c.end;
    if c.secOptIndex >= 0 {
      var o := c.secOptIndex;
      assert LastKey(ls, s, e, o) && !NoKey(ls, s, e);
      if c.listItemIndent >= 0 {
        var i :| FirstItem(ls, s, e, i) && c.listItemIndent == ls[i].indent;
        ItemInside(ls, s, e, i);
      }
    }
  }

  lemma {:induction false} InsertionsReach(f: seq<Svc>, j: nat) returns (i: nat)
    requires j < |f| && NeedsEdit(f[j])
    ensures i < |Insertions(f)| && Insertions(f)[i] == InsertionFor(f[j])
  {
    if j == 0 {
      i := 0;
    } else {
      i := InsertionsReach(f[1..], j - 1);
      if NeedsEdit(f[0]) { i := i + 1; }
    }
  }

  lemma EditOf(lines: seq<string>, k: nat)
    requires k < |Insertions(Services(lines))|
    ensures ForBare(Classified(lines), Insertions(Services(lines))[k])
  {
    var ls, f := Classified(lines), Services(lines);
    var j := InsertionsSource(f, k);
    AllRecorded(lines, j);
    BareIff(ls, f[j]);
    EditRight(ls, f[j]);
    hide Service, Mounts, Declares, EditFor, Recorded, Services, Classified, Insertions;
    assert Bare(ls, f[j].start, f[j].end) && EditFor(ls, f[j].start, f[j].end, InsertionFor(f[j]));
  }

  lemma EditFound(lines: seq<string>, s: int, e: int) returns (k: nat)
    requires Bare(Classified(lines), s, e)
    ensures var edits := Insertions(Services(lines)); k < |edits| && EditFor(Classified(lines), s, e, edits[k])
  {
    var ls, f := Classified(lines), Services(lines);
    BareService(ls, s, e);
    hide Bare, EditFor, Recorded, Services, Classified, Insertions;
    var j := RecordOf(lines, s, e);
    BareIff(ls, f[j]);
    EditRight(ls, f[j]);
    k := InsertionsReach(f, j);
  }

  ghost predicate EachForBare(ls: seq<Line>, edits: seq<Insertion<string>>) {
    forall k | 0 <= k < |edits| :: ForBare(ls, edits[k])
  }

  ghost predicate ForBare(ls: seq<Line>, edit: Insertion<string>) {
    exists s, e :: Bare(ls, s, e) && EditFor(ls, s, e, edit)
  }

  ghost predicate EachBareEdited(ls: seq<Line>, edits: seq<Insertion<string>>) {
    forall s, e | Bare(ls, s, e) :: exists k :: 0 <= k < |edits| && EditFor(ls, s, e, edits[k])
  }

  lemma EditsOnly(lines: seq<string>)
    ensures EachForBare(Classified(lines), Insertions(Services(lines)))
  {
    var ls, edits := Classified(lines), Insertions(Services(lines));
    hide Bare, EditFor, Services, Classified, Insertions;
    forall k | 0 <= k < |edits| ensures ForBare(ls, edits[k]) { EditOf(lines, k); }
  }

  lemma EditsAll(lines: seq<string>)
    ensures EachBareEdited(Classified(lines), Insertions(Services(lines)))
  {
    var ls, edits := Classified(lines), Insertions(Services(lines));
    hide Service, Mounts, Declares, LastKey, NoKey, FirstItem, NoItem, Services, Classified, Insertions;
    forall s, e | Bare(ls, s, e) ensures exists k :: 0 <= k < |edits| && EditFor(ls, s, e, edits[k]) {
      var k := EditFound(lines, s, e);
    }
  }

  /** The edited document is the old one with edits put in, from top to bottom: each goes to a service whose own
      lines mount the socket and do not declare label=disable, and each such service gets one. */
  lemma EditsExact(lines: seq<string>) returns (edits: seq<Insertion<string>>)
    ensures EachForBare(Classified(lines), edits) && EachBareEdited(Classified(lines), edits)
    ensures Placeable(edits, 0, |lines|) && InjectedLines(lines) == Woven(lines, 0, edits)
  {
    edits := Insertions(Services(lines));
    assert InjectedLines(lines) == Woven(lines, 0, edits);
    DocumentLaid(lines);
    InsertionsPlaceable(Services(lines), 0, |lines|);
    hide *;
    EditsOnly(lines);
    EditsAll(lines);
  }
}
