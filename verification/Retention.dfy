/** plugins/backup/service.go: which backup snapshots the retention policy deletes, and what is
    left after the deletions that succeed. */
module Retention {

  datatype Snapshot = Snapshot(id: nat, kopiaID: string, created: int, size: int)

  datatype Config = Config(retainCount: int, retainDays: int, retainMaxSizeMB: int, minRetainCount: int)

  datatype Reason = Count | Age | Size

  datatype Log = Log(snapshotID: nat, message: string)

  /** What the query for completed snapshots delivers: newest first, primary keys distinct. */
  ghost predicate Listed(s: seq<Snapshot>) {
    && (forall i, j | 0 <= i < j < |s| :: s[i].created >= s[j].created)
    && (forall i, j | 0 <= i < j < |s| :: s[i].id != s[j].id)
  }

  // ---------------------------------------------------------------------------------------------
  // The policy, declaratively
  // ---------------------------------------------------------------------------------------------

  function Total(s: seq<Snapshot>): int {
    if s == [] then 0 else Total(s[..|s| - 1]) + s[|s| - 1].size
  }

  function MaxBytes(cfg: Config): int { cfg.retainMaxSizeMB * 1024 * 1024 }

  /** Do the newest k snapshots satisfy the count, age and size limits together? */
  ghost predicate Meets(cfg: Config, cutoff: int, s: seq<Snapshot>, k: nat)
    requires k <= |s|
  {
    && (cfg.retainCount > 0 ==> k <= cfg.retainCount)
    && (cfg.retainDays > 0 ==> forall i | 0 <= i < k :: s[i].created >= cutoff)
    && (cfg.retainMaxSizeMB > 0 ==> Total(s[..k]) <= MaxBytes(cfg))
  }

  /** The largest such k not above n. */
  ghost function Largest(cfg: Config, cutoff: int, s: seq<Snapshot>, n: nat): (k: nat)
    requires n <= |s|
    ensures k <= n && Meets(cfg, cutoff, s, k)
    ensures forall j | k < j <= n :: !Meets(cfg, cutoff, s, j)
  {
    if Meets(cfg, cutoff, s, n) then n else Largest(cfg, cutoff, s, n - 1)
  }

  function Floor(cfg: Config, n: nat): (f: nat)
    ensures f <= n
  {
    if cfg.minRetainCount <= 0 then 0 else if cfg.minRetainCount > n then n else cfg.minRetainCount
  }

  /** How many of the newest snapshots are kept. */
  ghost function KeepLen(cfg: Config, cutoff: int, s: seq<Snapshot>): (k: nat)
    ensures k <= |s|
  {
    var k := Largest(cfg, cutoff, s, |s|);
    if k < Floor(cfg, |s|) then Floor(cfg, |s|) else k
  }

  function IDs(s: seq<Snapshot>): set<nat> {
    set i | 0 <= i < |s| :: s[i].id
  }

  ghost function Doomed(cfg: Config, cutoff: int, s: seq<Snapshot>): set<nat> {
    IDs(s[KeepLen(cfg, cutoff, s)..])
  }

  /** Why the snapshot at index i is deleted: the first rule that names it. */
  function ReasonFor(cfg: Config, cutoff: int, s: seq<Snapshot>, i: nat): Reason
    requires i < |s|
  {
    if cfg.retainCount > 0 && i >= cfg.retainCount then Count
    else if cfg.retainDays > 0 && s[i].created < cutoff then Age
    else Size
  }

  // ---------------------------------------------------------------------------------------------
  // The rules as the code applies them
  // ---------------------------------------------------------------------------------------------

  datatype Flags = Flags(toDelete: set<nat>, reasons: map<nat, Reason>)

  const NoFlags := Flags({}, map[])

  /** The `mark` closure: the first reason given for an id stays. */
  function Mark(f: Flags, id: nat, reason: Reason): Flags {
    if id in f.toDelete then f else Flags(f.toDelete + {id}, f.reasons[id := reason])
  }

  predicate In(j: int, hi: int, lo: int, mid: int) {
    j >= hi || lo <= j < mid
  }

  /** The flagged snapshots are exactly those at index hi or behind it and those from lo to mid,
      each for its first reason. */
  ghost predicate Flagged(cfg: Config, cutoff: int, s: seq<Snapshot>, f: Flags, hi: int, lo: int, mid: int) {
    && f.toDelete == f.reasons.Keys && f.toDelete <= IDs(s)
    && (forall j | 0 <= j < |s| :: s[j].id in f.toDelete <==> In(j, hi, lo, mid))
    && (forall j | 0 <= j < |s| && In(j, hi, lo, mid) :: f.reasons[s[j].id] == ReasonFor(cfg, cutoff, s, j))
  }

  ghost predicate FlaggedFrom(cfg: Config, cutoff: int, s: seq<Snapshot>, f: Flags, hi: int) {
    Flagged(cfg, cutoff, s, f, hi, 0, 0)
  }

  /** Marking the snapshot at index i, for the reason that is its first. */
  lemma MarkFlags(cfg: Config, cutoff: int, s: seq<Snapshot>, f: Flags, i: nat, reason: Reason,
                  hi: int, lo: int, mid: int, hi': int, mid': int)
    requires Listed(s) && i < |s| && Flagged(cfg, cutoff, s, f, hi, lo, mid)
    requires In(i, hi, lo, mid) || reason == ReasonFor(cfg, cutoff, s, i)
    requires forall j | 0 <= j < |s| :: In(j, hi, lo, mid) || j == i <==> In(j, hi', lo, mid')
    ensures Flagged(cfg, cutoff, s, Mark(f, s[i].id, reason), hi', lo, mid')
  {
  }

  lemma SameFlags(cfg: Config, cutoff: int, s: seq<Snapshot>, f: Flags, hi: int, lo: int, mid: int, hi': int,
      lo': int, mid': int)
    requires Flagged(cfg, cutoff, s, f, hi, lo, mid)
    requires forall j | 0 <= j < |s| :: In(j, hi, lo, mid) <==> In(j, hi', lo', mid')
    ensures Flagged(cfg, cutoff, s, f, hi', lo', mid')
  {
  }

  /** Rule 1: all but the newest RetainCount snapshots. */
  method FlagByCount(cfg: Config, ghost cutoff: int, s: seq<Snapshot>) returns (f: Flags, ghost c: nat)
    requires Listed(s)
    ensures c == if cfg.retainCount > 0 && |s| > cfg.retainCount then cfg.retainCount else |s|
    ensures FlaggedFrom(cfg, cutoff, s, f, c)
  {
    f, c := NoFlags, |s|;
    if cfg.retainCount > 0 && |s| > cfg.retainCount {
      c := cfg.retainCount;
      for i := cfg.retainCount to |s|
        invariant Flagged(cfg, cutoff, s, f, |s|, c, i)
      {
        MarkFlags(cfg, cutoff, s, f, i, Count, |s|, c, i, |s|, i + 1);
        f := Mark(f, s[i].id, Count);
      }
    }
  }

  /** The first snapshot older than the cutoff; as the list is sorted, all later ones are too. */
  ghost function FirstOld(s: seq<Snapshot>, cutoff: int): (n: nat)
    requires Listed(s)
    ensures n <= |s| && forall i | 0 <= i < |s| :: s[i].created < cutoff <==> i >= n
  {
    if s == [] then 0
    else if s[|s| - 1].created < cutoff then FirstOld(s[..|s| - 1], cutoff)
    else |s|
  }

  /** Rule 2: those older than the cutoff. Newest first, they are again a suffix. */
  method FlagByAge(cfg: Config, cutoff: int, s: seq<Snapshot>, f0: Flags, ghost c: nat) returns (f: Flags, ghost p: nat)
    requires Listed(s) && c <= |s| && FlaggedFrom(cfg, cutoff, s, f0, c)
    requires c == if cfg.retainCount > 0 && |s| > cfg.retainCount then cfg.retainCount else |s|
    ensures p <= c && FlaggedFrom(cfg, cutoff, s, f, p)
    ensures cfg.retainDays > 0 ==> forall i | 0 <= i < p :: s[i].created >= cutoff
    ensures p < c ==> cfg.retainDays > 0 && s[p].created < cutoff
  {
    f, p := f0, c;
    if cfg.retainDays > 0 {
      ghost var first := FirstOld(s, cutoff);
      SameFlags(cfg, cutoff, s, f, c, 0, 0, c, first, 0);
      hide Flagged;
      for i := 0 to |s|
        invariant Flagged(cfg, cutoff, s, f, c, first, i)
      {
        if s[i].created < cutoff {
          MarkFlags(cfg, cutoff, s, f, i, Age, c, first, i, c, i + 1);
          f := Mark(f, s[i].id, Age);
        } else {
          SameFlags(cfg, cutoff, s, f, c, first, i, c, first, i + 1);
        }
      }
      p := if first < c then first else c;
      SameFlags(cfg, cutoff, s, f, c, first, |s|, p, 0, 0);
    }
  }

  lemma TotalStep(s: seq<Snapshot>, k: nat)
    requires k < |s|
    ensures Total(s[..k + 1]) == Total(s[..k]) + s[k].size
  {
    assert s[..k + 1][..k] == s[..k];
  }

  lemma FlaggedIff(cfg: Config, cutoff: int, s: seq<Snapshot>, f: Flags, hi: int)
    requires FlaggedFrom(cfg, cutoff, s, f, hi)
    ensures forall i | 0 <= i < |s| :: s[i].id in f.toDelete <==> i >= hi
  {
  }

  method SumUnflagged(s: seq<Snapshot>, toDelete: set<nat>, ghost p: nat) returns (totalSize: int)
    requires p <= |s| && forall i | 0 <= i < |s| :: s[i].id in toDelete <==> i >= p
    ensures totalSize == Total(s[..p])
  {
    totalSize := 0;
    for i := 0 to |s|
      invariant totalSize == Total(s[..if i < p then i else p])
    {
      if s[i].id in toDelete {
        continue;
      }
      TotalStep(s, i);
      totalSize := totalSize + s[i].size;
    }
  }

  /** Rule 3: oldest first, until what is left fits the size limit. */
  method FlagBySize(cfg: Config, ghost cutoff: int, s: seq<Snapshot>, f0: Flags, ghost p: nat)
      returns (f: Flags, ghost k: nat)
    requires Listed(s) && p <= |s| && FlaggedFrom(cfg, cutoff, s, f0, p)
    requires cfg.retainCount > 0 ==> p <= cfg.retainCount
    requires cfg.retainDays > 0 ==> forall i | 0 <= i < p :: s[i].created >= cutoff
    ensures k <= p && FlaggedFrom(cfg, cutoff, s, f, k)
    ensures cfg.retainMaxSizeMB > 0 ==> Total(s[..k]) <= MaxBytes(cfg)
    ensures forall j | k < j <= p :: cfg.retainMaxSizeMB > 0 && Total(s[..j]) > MaxBytes(cfg)
  {
    f, k := f0, p;
    if cfg.retainMaxSizeMB > 0 {
      var maxBytes := cfg.retainMaxSizeMB * 1024 * 1024;
      var totalSize := SumUnflagged(s, f.toDelete, p);
      if totalSize > maxBytes {
        f, k := DropOldest(cfg, cutoff, s, f, p, totalSize, maxBytes);
      }
    }
  }

  method DropOldest(cfg: Config, ghost cutoff: int, s: seq<Snapshot>, f0: Flags, ghost p: nat, total: int,
      maxBytes: int)
      returns (f: Flags, ghost k: nat)
    requires Listed(s) && p <= |s| && FlaggedFrom(cfg, cutoff, s, f0, p)
    requires cfg.retainCount > 0 ==> p <= cfg.retainCount
    requires cfg.retainDays > 0 ==> forall i | 0 <= i < p :: s[i].created >= cutoff
    requires total == Total(s[..p]) && maxBytes >= 0
    ensures k <= p && FlaggedFrom(cfg, cutoff, s, f, k)
    ensures Total(s[..k]) <= maxBytes && forall j | k < j <= p :: Total(s[..j]) > maxBytes
  {
    f, k := f0, p;
    var totalSize := total;
    FlaggedIff(cfg, cutoff, s, f, k);
    hide Flagged;
    var i := |s| - 1;
    while i >= 0 && totalSize > maxBytes
      invariant -1 <= i < |s| && k == if i + 1 < p then i + 1 else p
      invariant totalSize == Total(s[..k])
      invariant FlaggedFrom(cfg, cutoff, s, f, k)
      invariant forall j | k < j <= p :: Total(s[..j]) > maxBytes
    {
      var snap := s[i];
      FlaggedIff(cfg, cutoff, s, f, k);
      if snap.id !in f.toDelete {
        TotalStep(s, i);
        MarkFlags(cfg, cutoff, s, f, i, Size, k, 0, 0, i, 0);
        f := Mark(f, snap.id, Size);
        totalSize := totalSize - snap.size;
        k := i;
      }
      i := i - 1;
    }
  }

  /** Rule 4: the newest MinRetainCount snapshots are pinned whatever the rules said. */
  method PinNewest(cfg: Config, ghost cutoff: int, s: seq<Snapshot>, f0: Flags, ghost k: nat) returns (f: Flags)
    requires Listed(s) && k <= |s| && FlaggedFrom(cfg, cutoff, s, f0, k)
    ensures FlaggedFrom(cfg, cutoff, s, f, if k < Floor(cfg, |s|) then Floor(cfg, |s|) else k)
  {
    f := f0;
    if cfg.minRetainCount > 0 {
      var floor := if cfg.minRetainCount > |s| then |s| else cfg.minRetainCount;
      for i := 0 to floor
        invariant FlaggedFrom(cfg, cutoff, s, f, if k < i then i else k)
      {
        if s[i].id in f.toDelete {
          f := Flags(f.toDelete - {s[i].id}, f.reasons - {s[i].id});
        }
      }
    }
  }

  lemma LargestIs(cfg: Config, cutoff: int, s: seq<Snapshot>, n: nat, k: nat)
    requires k <= n <= |s| && Meets(cfg, cutoff, s, k)
    requires forall j | k < j <= n :: !Meets(cfg, cutoff, s, j)
    ensures Largest(cfg, cutoff, s, n) == k
  {
  }

  /** The four rules flag exactly the snapshots behind the newest KeepLen ones. */
  method PlanRetention(cfg: Config, cutoff: int, s: seq<Snapshot>) returns (f: Flags)
    requires Listed(s)
    ensures f.toDelete == f.reasons.Keys == Doomed(cfg, cutoff, s)
    ensures forall i | KeepLen(cfg, cutoff, s) <= i < |s| :: f.reasons[s[i].id] == ReasonFor(cfg, cutoff, s, i)
  {
    ghost var c, p, k;
    f, c := FlagByCount(cfg, cutoff, s);
    f, p := FlagByAge(cfg, cutoff, s, f, c);
    f, k := FlagBySize(cfg, cutoff, s, f, p);
    assert Meets(cfg, cutoff, s, k);
    forall j | k < j <= |s| ensures !Meets(cfg, cutoff, s, j) {
      if j <= p {
        assert Total(s[..j]) > MaxBytes(cfg);
      } else if p < c {
        assert s[p].created < cutoff;
      } else {
        assert j > c && j > cfg.retainCount;
      }
    }
    LargestIs(cfg, cutoff, s, |s|, k);
    f := PinNewest(cfg, cutoff, s, f, k);
    FlaggedSuffix(cfg, cutoff, s, f, KeepLen(cfg, cutoff, s));
  }

  lemma FlaggedSuffix(cfg: Config, cutoff: int, s: seq<Snapshot>, f: Flags, p: nat)
    requires Listed(s) && p <= |s| && FlaggedFrom(cfg, cutoff, s, f, p)
    ensures f.toDelete == IDs(s[p..])
    ensures forall i | p <= i < |s| :: s[i].id in f.toDelete
  {
    forall x | x in f.toDelete ensures x in IDs(s[p..]) {
      var i :| 0 <= i < |s| && s[i].id == x;
      assert s[p..][i - p].id == x;
    }
    forall x | x in IDs(s[p..]) ensures x in f.toDelete {
      var i :| 0 <= i < |s[p..]| && s[p..][i].id == x;
      assert s[p + i].id == x;
    }
  }

  // ---------------------------------------------------------------------------------------------
  // Carrying the deletions out
  // ---------------------------------------------------------------------------------------------

  /** The rows whose key is not in `gone`, in order. */
  function Without<T>(rows: seq<T>, key: T -> nat, gone: set<nat>): seq<T> {
    if rows == [] then []
    else (if key(rows[0]) in gone then [] else [rows[0]]) + Without(rows[1..], key, gone)
  }

  function RowID(s: Snapshot): nat { s.id }

  function LogOwner(l: Log): nat { l.snapshotID }

  function RowsWithout(s: seq<Snapshot>, gone: set<nat>): seq<Snapshot> { Without(s, RowID, gone) }

  function LogsWithout(logs: seq<Log>, gone: set<nat>): seq<Log> { Without(logs, LogOwner, gone) }

  /** Those of the rows `ids` whose snapshot can be deleted: the ones without a Kopia snapshot, and
      the ones for which Kopia does not refuse. */
  function Granted(s: seq<Snapshot>, ids: set<nat>, refused: set<nat>): set<nat> {
    set i | 0 <= i < |s| && s[i].id in ids && !(s[i].kopiaID != "" && s[i].id in refused) :: s[i].id
  }

  ghost function Deletable(cfg: Config, cutoff: int, s: seq<Snapshot>, refused: set<nat>): set<nat> {
    Granted(s, Doomed(cfg, cutoff, s), refused)
  }

  /** The rows left by one run of the policy. */
  ghost function After(cfg: Config, cutoff: int, s: seq<Snapshot>, refused: set<nat>): seq<Snapshot> {
    RowsWithout(s, Deletable(cfg, cutoff, s, refused))
  }

  lemma {:induction false} WithoutMember<T>(rows: seq<T>, key: T -> nat, gone: set<nat>, i: nat)
    requires i < |rows| && key(rows[i]) !in gone
    ensures rows[i] in Without(rows, key, gone)
  {
    if i > 0 {
      WithoutMember(rows[1..], key, gone, i - 1);
    }
  }

  lemma {:induction false} WithoutSource<T>(rows: seq<T>, key: T -> nat, gone: set<nat>)
    ensures forall x | x in Without(rows, key, gone) :: x in rows && key(x) !in gone
  {
    if rows != [] {
      WithoutSource(rows[1..], key, gone);
    }
  }

  lemma {:induction false} WithoutTwice<T>(rows: seq<T>, key: T -> nat, gone: set<nat>, id: nat)
    ensures Without(Without(rows, key, gone), key, {id}) == Without(rows, key, gone + {id})
  {
    if rows != [] {
      WithoutTwice(rows[1..], key, gone, id);
      var rest := Without(rows[1..], key, gone);
      if key(rows[0]) in gone {
        assert Without(rows, key, gone) == rest;
      } else {
        assert ([rows[0]] + rest)[1..] == rest;
      }
    }
  }

  lemma {:induction false} WithoutNone<T>(rows: seq<T>, key: T -> nat, gone: set<nat>)
    requires forall x | x in rows :: key(x) !in gone
    ensures Without(rows, key, gone) == rows
  {
    if rows != [] {
      WithoutNone(rows[1..], key, gone);
    }
  }

  lemma NoneGone(s: seq<Snapshot>, logs: seq<Log>)
    ensures RowsWithout(s, {}) == s && LogsWithout(logs, {}) == logs
  {
    WithoutNone(s, RowID, {});
    WithoutNone(logs, LogOwner, {});
  }

  lemma OneMoreGone(s: seq<Snapshot>, logs: seq<Log>, gone: set<nat>, id: nat)
    ensures RowsWithout(RowsWithout(s, gone), {id}) == RowsWithout(s, gone + {id})
    ensures LogsWithout(LogsWithout(logs, gone), {id}) == LogsWithout(logs, gone + {id})
  {
    WithoutTwice(s, RowID, gone, id);
    WithoutTwice(logs, LogOwner, gone, id);
  }

  function Find(s: seq<Snapshot>, id: nat): (i: nat)
    ensures i <= |s| && (i < |s| ==> s[i].id == id)
  {
    if s == [] then 0 else if s[0].id == id then 0 else 1 + Find(s[1..], id)
  }

  lemma {:induction false} FindMember(s: seq<Snapshot>, id: nat)
    requires id in IDs(s)
    ensures Find(s, id) < |s|
  {
    if s[0].id != id {
      var i :| 0 <= i < |s| && s[i].id == id;
      assert s[1..][i - 1].id == id;
      FindMember(s[1..], id);
    }
  }

  class BackupService {
    var snapshots: seq<Snapshot>   // the completed rows, in the order the query returns them
    var logs: seq<Log>

    /** One pass of the deletion loop: the row goes only if its Kopia snapshot went. */
    method DeleteRow(id: nat, refused: set<nat>) returns (ok: bool)
      requires Listed(snapshots) && Find(snapshots, id) < |snapshots|
      modifies this
      ensures Listed(snapshots) && |snapshots| == |old(snapshots)| - if ok then 1 else 0
      ensures ok <==> !(old(snapshots)[Find(old(snapshots), id)].kopiaID != "" && id in refused)
      ensures snapshots == if ok then RowsWithout(old(snapshots), {id}) else old(snapshots)
      ensures logs == if ok then LogsWithout(old(logs), {id}) else old(logs)
    {
      var snap := snapshots[Find(snapshots, id)];
      if snap.kopiaID != "" && id in refused {
        return false;
      }
      WithoutListed(snapshots, {id});
      WithoutOne(snapshots, id);
      logs := LogsWithout(logs, {id});
      snapshots := RowsWithout(snapshots, {id});
      return true;
    }

    /** The deletion loop; the order in which it takes the ids is that of a map, so any. */
    method DeleteRows(ids: set<nat>, refused: set<nat>) returns (deleted: nat)
      requires Listed(snapshots) && ids <= IDs(snapshots)
      modifies this
      ensures snapshots == RowsWithout(old(snapshots), Granted(old(snapshots), ids, refused))
      ensures logs == LogsWithout(old(logs), Granted(old(snapshots), ids, refused))
      ensures deleted == |old(snapshots)| - |snapshots|
    {
      deleted := 0;
      ghost var s, gone: set<nat> := snapshots, {};
      NoneGone(s, logs);
      var todo := ids;
      assert ids - todo == {};
      hide Listed, RowsWithout, LogsWithout, Find, Granted, IDs;
      while todo != {}
        invariant todo <= ids
        invariant gone == Granted(s, ids - todo, refused)
        invariant snapshots == RowsWithout(s, gone) && logs == LogsWithout(old(logs), gone)
        invariant Listed(snapshots) && deleted == |s| - |snapshots|
      {
        var id :| id in todo;
        ghost var done := ids - todo;
        GrantOne(s, done, refused, id);
        var ok := DeleteRow(id, refused);
        if ok {
          deleted := deleted + 1;
          OneMoreGone(s, old(logs), gone, id);
          gone := gone + {id};
        }
        todo := todo - {id};
        assert ids - todo == done + {id};
      }
      assert ids - todo == ids;
    }

    /** `refused` are the rows for which Kopia fails to delete the snapshot in this run. */
    method EnforceRetention(cfg: Config, cutoff: int, refused: set<nat>) returns (deleted: nat)
      requires Listed(snapshots)
      modifies this
      ensures snapshots == After(cfg, cutoff, old(snapshots), refused)
      ensures logs == LogsWithout(old(logs), Deletable(cfg, cutoff, old(snapshots), refused))
      ensures deleted == |old(snapshots)| - |snapshots|
    {
      var f := PlanRetention(cfg, cutoff, snapshots);
      DoomedRows(cfg, cutoff, snapshots);
      deleted := DeleteRows(f.toDelete, refused);
    }
  }

  lemma DoomedRows(cfg: Config, cutoff: int, s: seq<Snapshot>)
    ensures Doomed(cfg, cutoff, s) <= IDs(s)
  {
    var k := KeepLen(cfg, cutoff, s);
    forall x | x in Doomed(cfg, cutoff, s) ensures x in IDs(s) {
      var i :| 0 <= i < |s[k..]| && s[k..][i].id == x;
      assert s[k + i].id == x;
    }
  }

  /** Granting one more id, whose row the table still holds. */
  lemma GrantOne(s: seq<Snapshot>, done: set<nat>, refused: set<nat>, id: nat)
    requires Listed(s) && id in IDs(s) && id !in done
    ensures var left := RowsWithout(s, Granted(s, done, refused)); var i := Find(left, id);
            && i < |left| && id !in Granted(s, done, refused)
            && Granted(s, done + {id}, refused)
               == Granted(s, done, refused) + (if left[i].kopiaID != "" && id in refused then {} else {id})
  {
    var j :| 0 <= j < |s| && s[j].id == id;
    FindSurvivor(s, Granted(s, done, refused), j);
  }

  lemma {:induction false} WithoutOne(s: seq<Snapshot>, id: nat)
    requires Listed(s) && Find(s, id) < |s|
    ensures |RowsWithout(s, {id})| == |s| - 1
  {
    if s[0].id == id {
      WithoutNone(s[1..], RowID, {id});
    } else {
      WithoutOne(s[1..], id);
    }
  }

  lemma FindSurvivor(s: seq<Snapshot>, gone: set<nat>, j: nat)
    requires Listed(s) && j < |s| && s[j].id !in gone
    ensures var left := RowsWithout(s, gone); var i := Find(left, s[j].id); i < |left| && left[i] == s[j]
  {
    var left := RowsWithout(s, gone);
    WithoutMember(s, RowID, gone, j);
    WithoutSource(s, RowID, gone);
    FindMember(left, s[j].id);
    var x := left[Find(left, s[j].id)];
    assert x in left && x in s;
  }

  // ---------------------------------------------------------------------------------------------
  // Running the policy again
  // ---------------------------------------------------------------------------------------------

  lemma {:induction false} WithoutConcat(a: seq<Snapshot>, b: seq<Snapshot>, gone: set<nat>)
    ensures RowsWithout(a + b, gone) == RowsWithout(a, gone) + RowsWithout(b, gone)
  {
    if a == [] {
      assert a + b == b;
    } else {
      assert (a + b)[0] == a[0] && (a + b)[1..] == a[1..] + b;
      WithoutConcat(a[1..], b, gone);
    }
  }

  lemma {:induction false} WithoutAll(s: seq<Snapshot>, gone: set<nat>)
    requires forall x | x in s :: x.id in gone
    ensures RowsWithout(s, gone) == []
  {
    if s != [] {
      WithoutAll(s[1..], gone);
    }
  }

  lemma {:induction false} WithoutListed(s: seq<Snapshot>, gone: set<nat>)
    requires Listed(s)
    ensures Listed(RowsWithout(s, gone))
  {
    if s != [] {
      WithoutListed(s[1..], gone);
      WithoutSource(s[1..], RowID, gone);
      var rest := RowsWithout(s[1..], gone);
      forall x | x in rest ensures s[0].created >= x.created && s[0].id != x.id {
        var i :| 0 <= i < |s[1..]| && s[1..][i] == x;
        assert s[i + 1] == x;
      }
    }
  }

  lemma DoomedIff(cfg: Config, cutoff: int, s: seq<Snapshot>)
    requires Listed(s)
    ensures forall i | 0 <= i < |s| :: s[i].id in Doomed(cfg, cutoff, s) <==> i >= KeepLen(cfg, cutoff, s)
  {
    var k := KeepLen(cfg, cutoff, s);
    forall i | k <= i < |s| ensures s[i].id in Doomed(cfg, cutoff, s) {
      assert s[k..][i - k] == s[i];
    }
  }

  /** What one run leaves: the kept prefix, untouched, in front of the deletions that failed. */
  lemma AfterKeeps(cfg: Config, cutoff: int, s: seq<Snapshot>, refused: set<nat>)
    requires Listed(s)
    ensures var k := KeepLen(cfg, cutoff, s);
            && After(cfg, cutoff, s, refused) == s[..k] + RowsWithout(s[k..], Deletable(cfg, cutoff, s, refused))
            && Listed(After(cfg, cutoff, s, refused))
            && (refused == {} ==> After(cfg, cutoff, s, refused) == s[..k])
  {
    var k, gone := KeepLen(cfg, cutoff, s), Deletable(cfg, cutoff, s, refused);
    assert s == s[..k] + s[k..];
    DoomedIff(cfg, cutoff, s);
    WithoutConcat(s[..k], s[k..], gone);
    WithoutNone(s[..k], RowID, gone);
    WithoutListed(s, gone);
    if refused == {} {
      forall x | x in s[k..] ensures x.id in gone {
        var i :| 0 <= i < |s[k..]| && s[k..][i] == x;
        assert s[k + i] == x;
      }
      WithoutAll(s[k..], gone);
    }
  }

  /** Adding rows behind the kept prefix never makes the policy keep less of it. */
  lemma KeepLenGrows(cfg: Config, cutoff: int, s: seq<Snapshot>, t: seq<Snapshot>)
    requires s[..KeepLen(cfg, cutoff, s)] <= t
    ensures KeepLen(cfg, cutoff, t) >= KeepLen(cfg, cutoff, s)
    ensures |t| <= |s| && t == s[..KeepLen(cfg, cutoff, s)] ==> KeepLen(cfg, cutoff, t) == |t|
  {
    var k := KeepLen(cfg, cutoff, s);
    var l := Largest(cfg, cutoff, s, |s|);
    if k == l {
      assert t[..k] == s[..k];
      assert Meets(cfg, cutoff, t, k) by {
        forall i | 0 <= i < k ensures t[i] == s[i] {
          assert t[..k][i] == s[..k][i];
        }
      }
      assert k <= Largest(cfg, cutoff, t, |t|);
    }
  }

  ghost function Runs(cfg: Config, cutoff: int, s: seq<Snapshot>, refusals: seq<set<nat>>): seq<Snapshot>
    decreases |refusals|
  {
    if refusals == [] then s else Runs(cfg, cutoff, After(cfg, cutoff, s, refusals[0]), refusals[1..])
  }

  /** At one clock and for any pattern of Kopia failures, no number of runs deletes a snapshot that
      the first run chose to keep. */
  lemma {:induction false} RunsKeep(cfg: Config, cutoff: int, s: seq<Snapshot>, refusals: seq<set<nat>>)
    requires Listed(s)
    ensures s[..KeepLen(cfg, cutoff, s)] <= Runs(cfg, cutoff, s, refusals)
    decreases |refusals|
  {
    if refusals != [] {
      var k, t := KeepLen(cfg, cutoff, s), After(cfg, cutoff, s, refusals[0]);
      AfterKeeps(cfg, cutoff, s, refusals[0]);
      KeepLenGrows(cfg, cutoff, s, t);
      RunsKeep(cfg, cutoff, t, refusals[1..]);
      assert s[..k] <= t[..KeepLen(cfg, cutoff, t)];
    }
  }

  /** Once a run has deleted all it wanted to, further runs find nothing to delete. */
  lemma {:induction false} RunsSettle(cfg: Config, cutoff: int, s: seq<Snapshot>, refusals: seq<set<nat>>)
    requires Listed(s)
    ensures Runs(cfg, cutoff, After(cfg, cutoff, s, {}), refusals) == s[..KeepLen(cfg, cutoff, s)]
    decreases |refusals|
  {
    var t := After(cfg, cutoff, s, {});
    AfterKeeps(cfg, cutoff, s, {});
    if refusals != [] {
      KeepLenGrows(cfg, cutoff, s, t);
      var u := After(cfg, cutoff, t, refusals[0]);
      AfterKeeps(cfg, cutoff, t, refusals[0]);
      assert t[|t|..] == [] && u == t;
      AfterKeeps(cfg, cutoff, t, {});
      RunsSettle(cfg, cutoff, t, refusals[1..]);
      assert After(cfg, cutoff, t, {}) == t;
    }
  }

  ghost predicate NoNegative(s: seq<Snapshot>) {
    forall x | x in s :: x.size >= 0
  }

  lemma {:induction false} TotalGrows(s: seq<Snapshot>, i: nat, j: nat)
    requires i <= j <= |s| && NoNegative(s)
    ensures Total(s[..i]) <= Total(s[..j])
  {
    if i < j {
      TotalGrows(s, i, j - 1);
      TotalStep(s, j - 1);
      assert s[j - 1] in s;
    }
  }

  /** A shorter prefix meets the limits as well. */
  lemma MeetsShorter(cfg: Config, cutoff: int, s: seq<Snapshot>, i: nat, j: nat)
    requires i <= j <= |s| && Meets(cfg, cutoff, s, j) && (cfg.retainMaxSizeMB <= 0 || NoNegative(s))
    ensures Meets(cfg, cutoff, s, i)
  {
    if cfg.retainMaxSizeMB > 0 {
      TotalGrows(s, i, j);
    }
  }

  /** The limits as seen from the row at index i: it and all newer rows together are within them. */
  ghost predicate Affordable(cfg: Config, cutoff: int, s: seq<Snapshot>, i: nat)
    requires i < |s|
  {
    && (cfg.retainCount <= 0 || i < cfg.retainCount)
    && (cfg.retainDays <= 0 || !(s[i].created < cutoff))
    && (cfg.retainMaxSizeMB <= 0 || !(Total(s[..i]) + s[i].size > 1048576 * cfg.retainMaxSizeMB))
  }

  lemma AffordableMeets(cfg: Config, cutoff: int, s: seq<Snapshot>, i: nat)
    requires Listed(s) && i < |s|
    ensures Affordable(cfg, cutoff, s, i) <==> Meets(cfg, cutoff, s, i + 1)
  {
    TotalStep(s, i);
  }

  /** A row within the limits is kept, and so are the newest ones that the floor pins. Without a size limit, or with no
      negative size, no other row is: a row at a limit stays, the first one beyond it goes. */
  lemma KeptIff(cfg: Config, cutoff: int, s: seq<Snapshot>, i: nat)
    requires Listed(s) && i < |s|
    ensures i < cfg.minRetainCount || Affordable(cfg, cutoff, s, i) ==> s[i].id !in Doomed(cfg, cutoff, s)
    ensures cfg.retainMaxSizeMB <= 0 || NoNegative(s) ==>
              (s[i].id !in Doomed(cfg, cutoff, s) ==> i < cfg.minRetainCount || Affordable(cfg, cutoff, s, i))
  {
    DoomedIff(cfg, cutoff, s);
    AffordableMeets(cfg, cutoff, s, i);
    var k := Largest(cfg, cutoff, s, |s|);
    if (cfg.retainMaxSizeMB <= 0 || NoNegative(s)) && i < k {
      MeetsShorter(cfg, cutoff, s, i + 1, k);
    }
  }

  /** What a run leaves begins with the kept prefix; the rest are rows that were behind it. */
  lemma AfterRest(cfg: Config, cutoff: int, s: seq<Snapshot>, refused: set<nat>)
    requires Listed(s)
    ensures var k, t := KeepLen(cfg, cutoff, s), After(cfg, cutoff, s, refused);
            k <= |t| && t[..k] == s[..k] && (forall x | x in t :: x in s) && forall x | x in t[k..] :: x in s[k..]
  {
    var k, gone := KeepLen(cfg, cutoff, s), Deletable(cfg, cutoff, s, refused);
    AfterKeeps(cfg, cutoff, s, refused);
    WithoutSource(s[k..], RowID, gone);
    WithoutSource(s, RowID, gone);
    var t := After(cfg, cutoff, s, refused);
    hide KeepLen, After, Deletable;
    assert t[k..] == RowsWithout(s[k..], gone);
  }

  /** Without a size limit, or with no negative size, a run after failed deletions keeps more than the first one
      chose to keep exactly when the first row whose deletion failed fits beside the kept prefix. */
  lemma RetryKeepsMoreIff(cfg: Config, cutoff: int, s: seq<Snapshot>, refused: set<nat>)
    requires Listed(s) && (cfg.retainMaxSizeMB <= 0 || NoNegative(s))
    ensures var k, t := KeepLen(cfg, cutoff, s), After(cfg, cutoff, s, refused);
            KeepLen(cfg, cutoff, t) > k <==> |t| > k && Meets(cfg, cutoff, t, k + 1)
  {
    var k, t := KeepLen(cfg, cutoff, s), After(cfg, cutoff, s, refused);
    AfterRest(cfg, cutoff, s, refused);
    AfterSmaller(cfg, cutoff, s, refused);
    var l := Largest(cfg, cutoff, t, |t|);
    assert Floor(cfg, |t|) <= Floor(cfg, |s|) <= k;
    assert KeepLen(cfg, cutoff, t) > k <==> l > k;
    if l > k {
      assert NoNegative(s) ==> NoNegative(t);
      MeetsShorter(cfg, cutoff, t, k + 1, l);
    }
  }

  lemma AfterSmaller(cfg: Config, cutoff: int, s: seq<Snapshot>, refused: set<nat>)
    ensures |After(cfg, cutoff, s, refused)| <= |s|
  {
    WithoutSmaller(s, RowID, Deletable(cfg, cutoff, s, refused));
  }

  lemma {:induction false} WithoutSmaller<T>(rows: seq<T>, key: T -> nat, gone: set<nat>)
    ensures |Without(rows, key, gone)| <= |rows|
  {
    if rows != [] {
      WithoutSmaller(rows[1..], key, gone);
    }
  }

  /** Where only count and age limit, a row from further behind can stand in for the next one. */
  lemma MeetsBack(cfg: Config, cutoff: int, s: seq<Snapshot>, t: seq<Snapshot>, k: nat)
    requires cfg.retainMaxSizeMB <= 0 && Listed(s) && k < |t| && k <= |s|
    requires t[..k] == s[..k] && t[k] in s[k..] && Meets(cfg, cutoff, t, k + 1)
    ensures k < |s| && Meets(cfg, cutoff, s, k + 1)
  {
    var i :| 0 <= i < |s[k..]| && s[k..][i] == t[k];
    assert s[k + i] == t[k];
    forall j | 0 <= j < k + 1 ensures cfg.retainDays > 0 ==> s[j].created >= cutoff {
      assert j < k ==> t[..k][j] == t[j] == s[j];
    }
  }

  /** Without a size limit no retry keeps more: the count and age rules look at each row alone. */
  lemma RetryKeepsSame(cfg: Config, cutoff: int, s: seq<Snapshot>, refused: set<nat>)
    requires Listed(s) && cfg.retainMaxSizeMB <= 0
    ensures KeepLen(cfg, cutoff, After(cfg, cutoff, s, refused)) == KeepLen(cfg, cutoff, s)
  {
    var k, t := KeepLen(cfg, cutoff, s), After(cfg, cutoff, s, refused);
    AfterRest(cfg, cutoff, s, refused);
    RetryKeepsMoreIff(cfg, cutoff, s, refused);
    KeepLenGrows(cfg, cutoff, s, t);
    if |t| > k && Meets(cfg, cutoff, t, k + 1) {
      assert t[k..][0] == t[k];
      MeetsBack(cfg, cutoff, s, t, k);
    }
  }

  lemma SizeLimitExample(a: Snapshot, b: Snapshot, c: Snapshot, cfg: Config)
    requires cfg == Config(0, 0, 1, 0) && a.size == b.size == 900000 && c.size == 100000
    ensures KeepLen(cfg, 0, [a, b, c]) == 1 && KeepLen(cfg, 0, [a, c]) == 2
  {
    var s, t := [a, b, c], [a, c];
    TotalStep(s, 0);
    TotalStep(s, 1);
    TotalStep(s, 2);
    assert s[..3] == s;
    LargestIs(cfg, 0, s, 3, 1);
    TotalStep(t, 0);
    TotalStep(t, 1);
    assert t[..2] == t;
    LargestIs(cfg, 0, t, 2, 2);
  }

  lemma MiddleGone(cfg: Config, s: seq<Snapshot>)
    requires |s| == 3 && Listed(s) && KeepLen(cfg, 0, s) == 1 && s[2].kopiaID != ""
    ensures s[2].id in Doomed(cfg, 0, s) && After(cfg, 0, s, {s[2].id}) == [s[0], s[2]]
  {
    DoomedIff(cfg, 0, s);
    hide KeepLen, Doomed;
    var gone := Deletable(cfg, 0, s, {s[2].id});
    assert s[0].id !in gone && s[1].id in gone && s[2].id !in gone;
    assert s[1..][1..] == [s[2]] && [s[2]][1..] == [];
    assert Without(s, RowID, gone) == [s[0]] + Without(s[1..], RowID, gone);
    assert Without(s[1..], RowID, gone) == Without([s[2]], RowID, gone) == [s[2]];
  }

  /** A failed deletion may be forgiven: under the size limit, a row that the first run wanted to
      delete is kept by the next one when a larger row in front of it is gone. */
  lemma RetryMayKeepMore(cfg: Config, s: seq<Snapshot>)
    requires cfg == Config(0, 0, 1, 0)
    requires s == [Snapshot(1, "a", 3, 900000), Snapshot(2, "b", 2, 900000), Snapshot(3, "c", 1, 100000)]
    ensures Listed(s) && 3 in Doomed(cfg, 0, s)
    ensures 3 in IDs(Runs(cfg, 0, s, [{3}, {}]))
  {
    var t := [s[0], s[2]];
    SizeLimitExample(s[0], s[1], s[2], cfg);
    MiddleGone(cfg, s);
    AfterKeeps(cfg, 0, t, {});
    hide After, KeepLen, Doomed;
    assert After(cfg, 0, t, {}) == t;
    var once: seq<set<nat>> := [{}];
    assert [{3}, {}][1..] == once && once[1..] == [];
    assert Runs(cfg, 0, t, once) == Runs(cfg, 0, t, []) == t;
    assert t[1].id == 3;
  }
}
