/** internal/service/host.go: which host owns which domain, through create, update and delete. */
module HostDomains {
  import opened Text

  // ---------------------------------------------------------------------------------------------
  // Domains compared without case or surrounding space
  // ---------------------------------------------------------------------------------------------

  /** Normalising twice changes nothing. */
  lemma KeyStable(s: string)
    ensures Lower(Key(s)) == Key(s) && TrimSpace(Key(s)) == Key(s) && Key(Key(s)) == Key(s)
  {
    TrimSpaceTrimmed(s);
    var t := TrimSpace(s);
    assert Trimmed(Lower(t)) by {
      if t != "" { assert LowerChar(t[0]) == Lower(t)[0] && LowerChar(t[|t| - 1]) == Lower(t)[|t| - 1]; }
    }
    assert Lower(Lower(t)) == Lower(t);
  }

  // ---------------------------------------------------------------------------------------------
  // Tables and owners
  // ---------------------------------------------------------------------------------------------

  /** A host_domains row. */
  datatype Row = Row(hostID: nat, domain: string, order: int)

  /** The primary domain of each host, and the additional domains. */
  datatype Tables = Tables(hosts: map<nat, string>, rows: map<nat, Row>)

  ghost predicate Owns(t: Tables, h: nat, k: string) {
    || (h in t.hosts && Lower(t.hosts[h]) == k)
    || exists i :: RowOwns(t, i, h, k)
  }

  ghost predicate RowOwns(t: Tables, i: nat, h: nat, k: string) {
    i in t.rows && t.rows[i].hostID == h && Lower(t.rows[i].domain) == k
  }

  /** No domain belongs to two hosts, whatever the case and whichever table it stands in. */
  ghost predicate OneOwner(t: Tables) {
    forall a, b, k | Owns(t, a, k) && Owns(t, b, k) :: a == b
  }

  /** Foreign keys hold, and stored names carry no surrounding space. */
  ghost predicate Sound(t: Tables) {
    && (forall i | i in t.rows :: t.rows[i].hostID in t.hosts && TrimSpace(t.rows[i].domain) == t.rows[i].domain)
    && (forall h | h in t.hosts :: TrimSpace(t.hosts[h]) == t.hosts[h])
  }

  /** The host that keeps what it has: the one being updated, or nobody when a host is created. */
  datatype Exempt = Nobody | Host(id: nat)

  // ---------------------------------------------------------------------------------------------
  // What a claim does, host by host
  // ---------------------------------------------------------------------------------------------

  /** An additional domain of `h` that the claim leaves to it. */
  ghost predicate Remains(t: Tables, h: nat, keys: set<string>, i: nat) {
    i in t.rows && t.rows[i].hostID == h && Lower(t.rows[i].domain) !in keys
  }

  /** The lowest-sorted of them. */
  ghost predicate IsHeir(t: Tables, h: nat, keys: set<string>, p: nat) {
    Remains(t, h, keys, p) && forall q | Remains(t, h, keys, q) :: t.rows[p].order <= t.rows[q].order
  }

  ghost predicate Same(t: Tables, u: Tables, h: nat) {
    && h in t.hosts && h in u.hosts && u.hosts[h] == t.hosts[h]
    && forall i | i in t.rows && t.rows[i].hostID == h :: i in u.rows
  }

  /** `h` keeps its primary domain and loses claimed additional ones. */
  ghost predicate Trims(t: Tables, u: Tables, h: nat, keys: set<string>)
    requires h in t.hosts
  {
    && h in u.hosts && u.hosts[h] == t.hosts[h]
    && forall i | i in t.rows && t.rows[i].hostID == h :: i in u.rows <==> Remains(t, h, keys, i)
  }

  /** `h` loses everything and is deleted. */
  ghost predicate Vanishes(t: Tables, u: Tables, h: nat, keys: set<string>) {
    && h !in u.hosts
    && (forall i | i in t.rows && t.rows[i].hostID == h :: i !in u.rows)
    && forall i :: !Remains(t, h, keys, i)
  }

  /** Row `p` becomes the primary domain of `h`. */
  ghost predicate Promotes(t: Tables, u: Tables, h: nat, keys: set<string>, p: nat) {
    && IsHeir(t, h, keys, p)
    && h in u.hosts && u.hosts[h] == t.rows[p].domain
    && forall i | i in t.rows && t.rows[i].hostID == h ::
         i in u.rows <==> Remains(t, h, keys, i) && Lower(t.rows[i].domain) != Lower(t.rows[p].domain)
  }

  ghost predicate Gives(t: Tables, u: Tables, h: nat, keys: set<string>)
    requires h in t.hosts
  {
    if Lower(t.hosts[h]) !in keys then Trims(t, u, h, keys)
    else Vanishes(t, u, h, keys) || exists p :: Promotes(t, u, h, keys, p)
  }

  /** The host owns a claimed domain and is not exempt. */
  ghost predicate Loses(t: Tables, self: Exempt, keys: set<string>, h: nat) {
    self != Host(h) && exists k :: k in keys && Owns(t, h, k)
  }

  /** Rows and hosts only ever disappear. */
  ghost predicate Subtables(t: Tables, u: Tables) {
    && (forall i | i in u.rows :: i in t.rows && u.rows[i] == t.rows[i])
    && (forall h | h in u.hosts :: h in t.hosts)
  }

  /** `u` is `t` after a successful claim of `keys`. */
  ghost predicate Claimed(t: Tables, u: Tables, self: Exempt, keys: set<string>) {
    && Subtables(t, u)
    && forall h | h in t.hosts :: if Loses(t, self, keys, h) then Gives(t, u, h, keys) else Same(t, u, h)
  }

  // ---------------------------------------------------------------------------------------------
  // What a claim means for the owners
  // ---------------------------------------------------------------------------------------------

  lemma SameOwns(t: Tables, u: Tables, h: nat, k: string)
    requires Subtables(t, u) && Same(t, u, h)
    ensures Owns(u, h, k) <==> Owns(t, h, k)
  {
    if i :| RowOwns(t, i, h, k) { assert RowOwns(u, i, h, k); }
    if i :| RowOwns(u, i, h, k) { assert RowOwns(t, i, h, k); }
  }

  lemma GivesOwns(t: Tables, u: Tables, h: nat, keys: set<string>, k: string)
    requires Subtables(t, u) && h in t.hosts && Gives(t, u, h, keys)
    ensures Owns(u, h, k) <==> Owns(t, h, k) && k !in keys
  {
    if Owns(t, h, k) && k !in keys {
      if Lower(t.hosts[h]) != k {
        var i :| RowOwns(t, i, h, k);
        assert Remains(t, h, keys, i);
        if Lower(t.hosts[h]) !in keys {
          assert RowOwns(u, i, h, k);
        } else {
          var p :| Promotes(t, u, h, keys, p);
          if Lower(t.rows[p].domain) != k { assert RowOwns(u, i, h, k); }
        }
      }
    }
    if Owns(u, h, k) {
      if i :| RowOwns(u, i, h, k) {
        assert RowOwns(t, i, h, k) && Remains(t, h, keys, i);
      } else if Lower(t.hosts[h]) in keys {
        var p :| Promotes(t, u, h, keys, p);
        assert RowOwns(t, p, h, k);
      }
    }
  }

  /** A claim takes exactly the claimed domains from exactly the other hosts. */
  lemma ClaimMoves(t: Tables, u: Tables, self: Exempt, keys: set<string>, h: nat, k: string)
    requires Sound(t) && Claimed(t, u, self, keys)
    ensures Owns(u, h, k) <==> Owns(t, h, k) && (k !in keys || self == Host(h))
  {
    hide Gives, Same, Subtables;
    if h in t.hosts {
      if Loses(t, self, keys, h) {
        GivesOwns(t, u, h, keys, k);
      } else {
        SameOwns(t, u, h, k);
      }
    } else {
      NoHostNoDomains(t, u, h, k);
    }
  }

  lemma NoHostNoDomains(t: Tables, u: Tables, h: nat, k: string)
    requires Sound(t) && Subtables(t, u) && h !in t.hosts
    ensures !Owns(t, h, k) && !Owns(u, h, k)
  {
  }

  /** A host is deleted exactly when it is not exempt and every domain it owns is claimed. */
  lemma ClaimDeletes(t: Tables, u: Tables, self: Exempt, keys: set<string>, h: nat)
    requires Sound(t) && Claimed(t, u, self, keys) && h in t.hosts
    ensures h !in u.hosts <==> self != Host(h) && forall k | Owns(t, h, k) :: k in keys
  {
    assert Owns(t, h, Lower(t.hosts[h]));
    if self != Host(h) && forall k | Owns(t, h, k) :: k in keys {
      assert Loses(t, self, keys, h);
      if p :| Promotes(t, u, h, keys, p) {
        assert RowOwns(t, p, h, Lower(t.rows[p].domain));
        assert Owns(t, h, Lower(t.rows[p].domain));
      }
    } else if h !in u.hosts {
      assert Loses(t, self, keys, h) && Vanishes(t, u, h, keys);
      forall k | Owns(t, h, k) ensures k in keys {
        if i :| RowOwns(t, i, h, k) { assert !Remains(t, h, keys, i); }
      }
    }
  }

  /** A host that survives the loss of its primary domain has its lowest-sorted remaining one instead. */
  lemma ClaimPromotes(t: Tables, u: Tables, self: Exempt, keys: set<string>, h: nat) returns (p: nat)
    requires Sound(t) && Claimed(t, u, self, keys) && h in t.hosts && h in u.hosts
    requires self != Host(h) && Lower(t.hosts[h]) in keys
    ensures p in t.rows && t.rows[p].hostID == h && Lower(t.rows[p].domain) !in keys
    ensures u.hosts[h] == t.rows[p].domain
    ensures forall q | q in t.rows && t.rows[q].hostID == h && Lower(t.rows[q].domain) !in keys ::
              t.rows[p].order <= t.rows[q].order
  {
    assert Owns(t, h, Lower(t.hosts[h]));
    assert Loses(t, self, keys, h);
    p :| Promotes(t, u, h, keys, p);
  }

  lemma ClaimKeepsSound(t: Tables, u: Tables, self: Exempt, keys: set<string>)
    requires Sound(t) && Claimed(t, u, self, keys)
    ensures Sound(u)
  {
    forall i | i in u.rows ensures u.rows[i].hostID in u.hosts {
      var h := u.rows[i].hostID;
      assert i in t.rows && h in t.hosts;
    }
    forall h | h in u.hosts ensures TrimSpace(u.hosts[h]) == u.hosts[h] {
      if Loses(t, self, keys, h) && Lower(t.hosts[h]) in keys {
        var p :| Promotes(t, u, h, keys, p);
      }
    }
  }

  /** Owners can only be lost on the way from `t` to `u`. */
  ghost predicate Shrinks(t: Tables, u: Tables) {
    forall h, k | Owns(u, h, k) :: Owns(t, h, k)
  }

  lemma ShrinkKeepsOneOwner(t: Tables, u: Tables)
    requires OneOwner(t) && Shrinks(t, u)
    ensures OneOwner(u)
  {
    hide Owns;
  }

  /** Nobody but the exempt host owns any of these. */
  ghost predicate Free(t: Tables, self: Exempt, keys: set<string>) {
    forall h, k | Owns(t, h, k) && k in keys :: self == Host(h)
  }

  lemma ClaimFrees(t: Tables, u: Tables, self: Exempt, keys: set<string>)
    requires Sound(t) && OneOwner(t) && Claimed(t, u, self, keys)
    ensures Sound(u) && OneOwner(u) && Free(u, self, keys)
  {
    hide Owns, Claimed, Sound;
    ClaimKeepsSound(t, u, self, keys);
    forall h, k | Owns(u, h, k) ensures Owns(t, h, k) && (k in keys ==> self == Host(h)) {
      ClaimMoves(t, u, self, keys, h, k);
    }
    ShrinkKeepsOneOwner(t, u);
  }

  /** A claim changes nothing exactly when the claimed domains are free already. */
  lemma ClaimIdle(t: Tables, u: Tables, self: Exempt, keys: set<string>)
    requires Sound(t) && Claimed(t, u, self, keys)
    ensures t == u <==> Free(t, self, keys)
  {
    if Free(t, self, keys) {
      forall h | h in t.hosts ensures Same(t, u, h) {
        assert !Loses(t, self, keys, h);
      }
      assert t.hosts == u.hosts && t.rows == u.rows;
    } else {
      var h, k :| Owns(t, h, k) && k in keys && self != Host(h);
      ClaimMoves(t, u, self, keys, h, k);
    }
  }

  // ---------------------------------------------------------------------------------------------
  // Several hosts, one after the other
  // ---------------------------------------------------------------------------------------------

  /** Between `t` and `u` only `h` lost anything. */
  ghost predicate OnlyHost(t: Tables, u: Tables, h: nat) {
    && Subtables(t, u)
    && (forall g | g in t.hosts && g != h :: g in u.hosts && u.hosts[g] == t.hosts[g])
    && (forall i | i in t.rows && t.rows[i].hostID != h :: i in u.rows)
  }

  /** The claim has served the hosts of `done` and nobody else. */
  ghost predicate Served(t: Tables, u: Tables, keys: set<string>, done: set<nat>) {
    && Subtables(t, u)
    && forall h | h in t.hosts :: if h in done then Gives(t, u, h, keys) else Same(t, u, h)
  }

  lemma SameThenGives(t: Tables, u: Tables, v: Tables, h: nat, keys: set<string>)
    requires Subtables(t, u) && Subtables(u, v) && Same(t, u, h) && Gives(u, v, h, keys)
    ensures Gives(t, v, h, keys)
  {
    assert forall i :: Remains(t, h, keys, i) <==> Remains(u, h, keys, i);
    if p :| Promotes(u, v, h, keys, p) {
      assert Promotes(t, v, h, keys, p);
    }
  }

  lemma GivesThenNothing(t: Tables, u: Tables, v: Tables, h: nat, g: nat, keys: set<string>)
    requires Subtables(t, u) && OnlyHost(u, v, h) && g != h && g in t.hosts && Gives(t, u, g, keys)
    ensures Gives(t, v, g, keys)
  {
    if p :| Promotes(t, u, g, keys, p) {
      assert Promotes(t, v, g, keys, p);
    }
  }

  lemma SameThenNothing(t: Tables, u: Tables, v: Tables, h: nat, g: nat)
    requires Subtables(t, u) && OnlyHost(u, v, h) && g != h && Same(t, u, g)
    ensures Same(t, v, g)
  {
  }

  lemma ServeOne(t: Tables, u: Tables, v: Tables, keys: set<string>, done: set<nat>, h: nat)
    requires Served(t, u, keys, done) && h in t.hosts && h !in done
    requires OnlyHost(u, v, h) && h in u.hosts && Gives(u, v, h, keys)
    ensures Served(t, v, keys, done + {h})
  {
    hide Gives, Same;
    SameThenGives(t, u, v, h, keys);
    forall g | g in t.hosts && g != h
      ensures if g in done then Gives(t, v, g, keys) else Same(t, v, g)
    {
      if g in done { GivesThenNothing(t, u, v, h, g, keys); } else { SameThenNothing(t, u, v, h, g); }
    }
  }

  /** A claim that breaks off: hosts other than `h` either gave what was claimed, or have what they had. */
  ghost predicate Broken(t: Tables, u: Tables, keys: set<string>, h: nat) {
    && Subtables(t, u) && Sound(u)
    && forall g | g in t.hosts && g != h :: Same(t, u, g) || Gives(t, u, g, keys)
  }

  lemma BreakOff(t: Tables, u: Tables, v: Tables, keys: set<string>, done: set<nat>, h: nat)
    requires Served(t, u, keys, done) && OnlyHost(u, v, h) && Sound(v)
    ensures Broken(t, v, keys, h)
  {
    hide Gives, Same;
    forall g | g in t.hosts && g != h ensures Same(t, v, g) || Gives(t, v, g, keys) {
      if g in done { GivesThenNothing(t, u, v, h, g, keys); } else { SameThenNothing(t, u, v, h, g); }
    }
  }

  /** The unclaimed domains of all hosts but one survive a claim that breaks off. */
  lemma BrokenSpares(t: Tables, u: Tables, keys: set<string>, h: nat, g: nat, k: string)
    requires Sound(t) && Broken(t, u, keys, h) && g != h && k !in keys
    ensures Owns(u, g, k) <==> Owns(t, g, k)
  {
    hide Gives, Same, Subtables;
    if g !in t.hosts {
      NoHostNoDomains(t, u, g, k);
    } else if Same(t, u, g) {
      SameOwns(t, u, g, k);
    } else {
      GivesOwns(t, u, g, keys, k);
    }
  }

  // ---------------------------------------------------------------------------------------------
  // Requests
  // ---------------------------------------------------------------------------------------------

  function KeysOf(domains: seq<string>): set<string> {
    (set d | d in domains :: Key(d)) - {""}
  }

  /** Normalised, without blanks and repetitions. */
  ghost predicate Normal(domains: seq<string>) {
    && |domains| > 0
    && (forall d | d in domains :: Key(d) == d && d != "")
    && (forall i, j | 0 <= i < j < |domains| :: domains[i] != domains[j])
  }

  lemma KeysStep(domains: seq<string>, i: nat)
    requires i < |domains|
    ensures KeysOf(domains[..i + 1]) == KeysOf(domains[..i]) + ({Key(domains[i])} - {""})
  {
    assert domains[..i + 1] == domains[..i] + [domains[i]];
  }

  lemma NormalKeys(domains: seq<string>)
    requires Normal(domains)
    ensures KeysOf(domains) == set d | d in domains
  {
    forall d | d in domains ensures d in KeysOf(domains) {
      assert Key(d) == d;
    }
  }

  /** In `extras`, `x` occurs before the first `y`. */
  ghost predicate Before(extras: seq<string>, x: string, y: string) {
    exists i :: 0 <= i < |extras| && Key(extras[i]) == x && forall l | 0 <= l <= i :: Key(extras[l]) != y
  }

  /** The additional domains stand in the order of their first occurrences. */
  ghost predicate InOrder(extras: seq<string>, domains: seq<string>) {
    forall a, b | 1 <= a < b < |domains| :: Before(extras, domains[a], domains[b])
  }

  ghost predicate Seen(extras: seq<string>, n: nat, d: string)
    requires n <= |extras|
  {
    exists j :: 0 <= j < n && Key(extras[j]) == d
  }

  /** The domains collected from the first `n` extras. */
  ghost predicate Collected(extras: seq<string>, n: nat, domains: seq<string>)
    requires n <= |extras|
  {
    && (forall j | 0 <= j < n :: Key(extras[j]) == "" || Key(extras[j]) in domains)
    && (forall a | 1 <= a < |domains| :: Seen(extras, n, domains[a]))
    && InOrder(extras, domains)
  }

  lemma SeenFirst(extras: seq<string>, n: nat, x: string, y: string)
    requires n <= |extras| && Seen(extras, n, x) && forall j | 0 <= j < n :: Key(extras[j]) != y
    ensures Before(extras, x, y)
  {
    var j :| 0 <= j < n && Key(extras[j]) == x;
    assert forall l | 0 <= l <= j :: Key(extras[l]) != y;
  }

  lemma SeenMore(extras: seq<string>, n: nat, d: string)
    requires n < |extras| && (Seen(extras, n, d) || Key(extras[n]) == d)
    ensures Seen(extras, n + 1, d)
  {
    if j :| 0 <= j < n && Key(extras[j]) == d { assert 0 <= j < n + 1; }
  }

  lemma CollectNew(extras: seq<string>, n: nat, domains: seq<string>, d: string)
    requires n < |extras| && Collected(extras, n, domains) && Key(extras[n]) == d && d !in domains && d != ""
    ensures Collected(extras, n + 1, domains + [d])
  {
    hide Before, Seen;
    var now := domains + [d];
    forall a, b | 1 <= a < b < |now| ensures Before(extras, now[a], now[b]) {
      if b < |domains| {
        assert Before(extras, domains[a], domains[b]);
      } else {
        SeenFirst(extras, n, domains[a], d);
      }
    }
    forall a | 1 <= a < |now| ensures Seen(extras, n + 1, now[a]) {
      assert a < |domains| ==> Seen(extras, n, domains[a]);
      SeenMore(extras, n, now[a]);
    }
  }

  lemma CollectOld(extras: seq<string>, n: nat, domains: seq<string>)
    requires n < |extras| && Collected(extras, n, domains) && (Key(extras[n]) == "" || Key(extras[n]) in domains)
    ensures Collected(extras, n + 1, domains)
  {
    hide InOrder, Seen;
    forall a | 1 <= a < |domains| ensures Seen(extras, n + 1, domains[a]) {
      SeenMore(extras, n, domains[a]);
    }
  }

  /** Every name of the request is a valid domain; blank additional ones are passed over. */
  ghost predicate AllValid(primary: string, extras: seq<string>, valid: string -> bool) {
    valid(Key(primary)) && forall e | e in extras && Key(e) != "" :: valid(Key(e))
  }

  /** Lower-cased, trimmed, validated and without repetitions; the primary domain comes first. */
  method NormalizeHostDomains(primary: string, extras: seq<string>, valid: string -> bool)
    returns (ok: bool, domains: seq<string>)
    requires !valid("")
    ensures ok <==> AllValid(primary, extras, valid)
    ensures ok ==> Normal(domains) && domains[0] == Key(primary)
    ensures ok ==> KeysOf(domains) == KeysOf([primary] + extras) && InOrder(extras, domains)
  {
    hide Key, KeysOf, Before;
    var first := Key(primary);
    if !valid(first) {
      return false, [];
    }
    KeyStable(primary);
    domains := [first];
    assert KeysOf([primary] + extras[..0]) == KeysOf(domains) by {
      KeysOfOne(primary);
      assert [primary] + extras[..0] == [primary];
    }
    var i := 0;
    while i < |extras|
      invariant 0 <= i <= |extras|
      invariant forall j | 0 <= j < i && Key(extras[j]) != "" :: valid(Key(extras[j]))
      invariant Normal(domains) && domains[0] == first && Collected(extras, i, domains)
      invariant KeysOf(domains) == KeysOf([primary] + extras[..i])
    {
      var domain := Key(extras[i]);
      KeyStable(extras[i]);
      KeysAppend([primary] + extras[..i], extras[i]);
      assert [primary] + extras[..i] + [extras[i]] == [primary] + extras[..i + 1];
      if domain != "" {
        if !valid(domain) {
          return false, [];
        }
        if domain !in domains {
          KeysAppend(domains, domain);
          CollectNew(extras, i, domains, domain);
          domains := domains + [domain];
        } else {
          KeyOfMember(domains, domain);
          CollectOld(extras, i, domains);
        }
      } else {
        CollectOld(extras, i, domains);
      }
      i := i + 1;
    }
    assert extras[..i] == extras;
    return true, domains;
  }

  lemma KeysOfOne(d: string)
    ensures KeysOf([d]) == {Key(d)} - {""} == KeysOf([Key(d)])
  {
    KeyStable(d);
  }

  lemma KeysAppend(domains: seq<string>, d: string)
    ensures KeysOf(domains + [d]) == KeysOf(domains) + ({Key(d)} - {""})
  {
  }

  lemma KeyOfMember(domains: seq<string>, d: string)
    requires d in domains && Key(d) == d && d != ""
    ensures d in KeysOf(domains)
  {
  }

  // ---------------------------------------------------------------------------------------------
  // Adding domains to one host
  // ---------------------------------------------------------------------------------------------

  /** Domains move only to `h`, and only from `added`. */
  ghost predicate GrowsOnly(t: Tables, u: Tables, h: nat, added: set<string>) {
    forall g, k | Owns(u, g, k) :: Owns(t, g, k) || (g == h && k in added)
  }

  lemma GrowthKeepsOneOwner(t: Tables, u: Tables, h: nat, added: set<string>)
    requires OneOwner(t) && Free(t, Host(h), added) && GrowsOnly(t, u, h, added)
    ensures OneOwner(u)
  {
    hide Owns;
    forall a, b, k | Owns(u, a, k) && Owns(u, b, k) ensures a == b {
      assert Owns(t, a, k) || (a == h && k in added);
      assert Owns(t, b, k) || (b == h && k in added);
    }
  }

  lemma AddRowOwns(t: Tables, u: Tables, i: nat, r: Row)
    requires i !in t.rows && u == t.(rows := t.rows[i := r])
    ensures forall h, k :: Owns(u, h, k) <==> Owns(t, h, k) || (h == r.hostID && k == Lower(r.domain))
  {
    forall h, k ensures Owns(u, h, k) <==> Owns(t, h, k) || (h == r.hostID && k == Lower(r.domain)) {
      if j :| RowOwns(t, j, h, k) { assert RowOwns(u, j, h, k); }
      if j :| RowOwns(u, j, h, k) { assert j != i ==> RowOwns(t, j, h, k); }
      if h == r.hostID && k == Lower(r.domain) { assert RowOwns(u, i, h, k); }
    }
  }

  lemma AddHostOwns(t: Tables, u: Tables, h: nat, d: string)
    requires Sound(t) && h !in t.hosts && u == t.(hosts := t.hosts[h := d])
    ensures forall g, k :: Owns(u, g, k) <==> Owns(t, g, k) || (g == h && k == Lower(d))
  {
    forall g, k ensures Owns(u, g, k) <==> Owns(t, g, k) || (g == h && k == Lower(d)) {
      assert forall j :: RowOwns(u, j, g, k) <==> RowOwns(t, j, g, k);
    }
  }

  /** Replacing the primary domain of a host. */
  lemma SetPrimaryOwns(t: Tables, u: Tables, h: nat, d: string)
    requires h in t.hosts && u == t.(hosts := t.hosts[h := d])
    ensures GrowsOnly(t, u, h, {Lower(d)}) && Owns(u, h, Lower(d))
    ensures forall g, k | g != h :: Owns(u, g, k) <==> Owns(t, g, k)
    ensures forall k :: Owns(u, h, k) <==> k == Lower(d) || k in RowKeys(t, h)
  {
    assert forall g, k, j :: RowOwns(u, j, g, k) <==> RowOwns(t, j, g, k);
    forall k ensures k in RowKeys(t, h) <==> exists i :: RowOwns(t, i, h, k) { RowKeysOwn(t, h, k); }
  }

  /** The additional names of a host. */
  function RowKeys(t: Tables, h: nat): set<string> {
    set i | i in t.rows && t.rows[i].hostID == h :: Lower(t.rows[i].domain)
  }

  lemma RowKeysOwn(t: Tables, h: nat, k: string)
    ensures k in RowKeys(t, h) <==> exists i :: RowOwns(t, i, h, k)
  {
    if k in RowKeys(t, h) {
      var i :| i in t.rows && t.rows[i].hostID == h && Lower(t.rows[i].domain) == k;
      assert RowOwns(t, i, h, k);
    }
    if i :| RowOwns(t, i, h, k) { assert i in t.rows; }
  }

  /** The additional names that are still there when an update inserts its own. */
  function LeftKeys(t: Tables, h: nat, clears: bool): set<string> { if clears then {} else RowKeys(t, h) }

  function Cleared(t: Tables, h: nat, clears: bool): Tables {
    if clears then t.(rows := DropRowsOf(t.rows, h)) else t
  }

  lemma ClearedKeys(t: Tables, h: nat, clears: bool)
    ensures RowKeys(Cleared(t, h, clears), h) == LeftKeys(t, h, clears)
  {
  }

  lemma DropRowsOwns(t: Tables, u: Tables, h: nat)
    requires u == t.(rows := DropRowsOf(t.rows, h))
    ensures Shrinks(t, u) && forall g, k | g != h :: Owns(u, g, k) <==> Owns(t, g, k)
  {
    forall g, k, j | RowOwns(u, j, g, k) ensures RowOwns(t, j, g, k) {}
    forall g, k, j | g != h && RowOwns(t, j, g, k) ensures RowOwns(u, j, g, k) {}
  }

  lemma DropHostOwns(t: Tables, u: Tables, h: nat)
    requires u.hosts == t.hosts - {h} && u.rows == DropRowsOf(t.rows, h)
    ensures forall g, k :: Owns(u, g, k) <==> Owns(t, g, k) && g != h
  {
    forall g, k, j | RowOwns(u, j, g, k) ensures RowOwns(t, j, g, k) && g != h {}
    forall g, k, j | g != h && RowOwns(t, j, g, k) ensures RowOwns(u, j, g, k) {}
  }

  /** DELETE of the additional domains of `h` among `names`. */
  function DropRows(rows: map<nat, Row>, h: nat, names: set<string>): map<nat, Row> {
    map i | i in rows && !(rows[i].hostID == h && Lower(rows[i].domain) in names) :: rows[i]
  }

  /** ON DELETE CASCADE. */
  function DropRowsOf(rows: map<nat, Row>, h: nat): map<nat, Row> {
    map i | i in rows && rows[i].hostID != h :: rows[i]
  }

  lemma NothingLost(t: Tables, h: nat)
    ensures OnlyHost(t, t, h) && Shrinks(t, t)
  {
  }

  lemma HeirHere(t: Tables, h: nat, keys: set<string>, heir: nat)
    requires IsHeir(t, h, keys, heir)
    ensures heir in t.rows && t.rows[heir].hostID == h
  {
  }

  lemma VanishStep(t: Tables, h: nat, keys: set<string>)
    requires Sound(t) && h in t.hosts && Lower(t.hosts[h]) in keys && forall i :: !Remains(t, h, keys, i)
    ensures
      var u := Tables(t.hosts - {h}, DropRowsOf(t.rows, h));
      OnlyHost(t, u, h) && Sound(u) && Gives(t, u, h, keys) && Shrinks(t, u)
  {
    var u := Tables(t.hosts - {h}, DropRowsOf(t.rows, h));
    assert Vanishes(t, u, h, keys);
    DropHostOwns(t, u, h);
  }

  lemma TrimStep(t: Tables, h: nat, names: set<string>)
    requires Sound(t) && h in t.hosts
    ensures
      var u := t.(rows := DropRows(t.rows, h, names));
      && OnlyHost(t, u, h) && Sound(u) && Shrinks(t, u)
      && (Lower(t.hosts[h]) !in names ==> Gives(t, u, h, names))
  {
    FewerRows(t, t.(rows := DropRows(t.rows, h, names)), h);
  }

  lemma HeirSteps(t: Tables, h: nat, keys: set<string>, heir: nat)
    requires Sound(t) && h in t.hosts && Lower(t.hosts[h]) in keys && IsHeir(t, h, keys, heir)
    ensures
      var d := t.rows[heir].domain;
      var u := t.(rows := DropRows(t.rows, h, {Lower(d)}));
      var v := u.(hosts := u.hosts[h := d]);
      var w := v.(rows := DropRows(v.rows, h, keys));
      && OnlyHost(t, u, h) && Sound(u) && Shrinks(t, u)
      && OnlyHost(t, v, h) && Sound(v) && Shrinks(t, v)
      && OnlyHost(t, w, h) && Sound(w) && Shrinks(t, w) && Gives(t, w, h, keys)
  {
    var d := t.rows[heir].domain;
    var u := t.(rows := DropRows(t.rows, h, {Lower(d)}));
    var v := u.(hosts := u.hosts[h := d]);
    var w := v.(rows := DropRows(v.rows, h, keys));
    FewerRows(t, u, h);
    HeirOwns(t, v, h, heir);
    HeirOwns(t, w, h, heir);
    HeirGives(t, w, h, keys, heir);
  }

  lemma HeirGives(t: Tables, w: Tables, h: nat, keys: set<string>, heir: nat)
    requires h in t.hosts && Lower(t.hosts[h]) in keys && IsHeir(t, h, keys, heir)
    requires w.hosts == t.hosts[h := t.rows[heir].domain]
    requires w.rows == DropRows(DropRows(t.rows, h, {Lower(t.rows[heir].domain)}), h, keys)
    ensures Gives(t, w, h, keys)
  {
    assert Promotes(t, w, h, keys, heir);
  }

  lemma RemainsIff(t: Tables, h: nat, keys: set<string>, i: nat)
    requires Sound(t) && i in t.rows && t.rows[i].hostID == h
    ensures Remains(t, h, keys, i) <==> Key(t.rows[i].domain) !in keys
  {
  }

  lemma RemainsHere(t: Tables, h: nat, keys: set<string>, i: nat)
    requires Remains(t, h, keys, i)
    ensures i in t.rows && t.rows[i].hostID == h
  {
  }

  lemma HeirIs(t: Tables, h: nat, keys: set<string>, p: nat, domains: seq<nat>)
    requires Remains(t, h, keys, p) && p in t.rows
    requires forall i | Remains(t, h, keys, i) :: i in domains
    requires forall a | 0 <= a < |domains| && Remains(t, h, keys, domains[a]) ::
               domains[a] in t.rows && t.rows[p].order <= t.rows[domains[a]].order
    ensures IsHeir(t, h, keys, p)
  {
    forall q | Remains(t, h, keys, q) ensures t.rows[p].order <= t.rows[q].order {
      var a :| 0 <= a < |domains| && domains[a] == q;
    }
  }

  lemma {:induction false} LowestExists(rows: map<nat, Row>, ids: set<nat>)
    requires ids != {} && ids <= rows.Keys
    ensures exists i :: i in ids && forall j | j in ids :: rows[i].order <= rows[j].order
  {
    var i :| i in ids;
    var rest := ids - {i};
    if rest != {} {
      LowestExists(rows, rest);
      var m :| m in rest && forall j | j in rest :: rows[m].order <= rows[j].order;
      var low := if rows[m].order <= rows[i].order then m else i;
      assert forall j | j in ids :: j == i || j in rest;
      assert low in ids && forall j | j in ids :: rows[low].order <= rows[j].order;
    } else {
      assert ids - {i} == {} && forall j | j in ids :: j == i || j in ids - {i};
    }
  }

  lemma FewerRows(t: Tables, u: Tables, h: nat)
    requires Subtables(t, u) && u.hosts == t.hosts
    ensures Shrinks(t, u)
  {
    forall g, k, j | RowOwns(u, j, g, k) ensures RowOwns(t, j, g, k) {}
  }

  /** A host that carries one of its additional domains as primary owns nothing new. */
  lemma HeirOwns(t: Tables, u: Tables, h: nat, heir: nat)
    requires Subtables(t, u) && heir in t.rows && t.rows[heir].hostID == h && h in t.hosts
    requires u.hosts == t.hosts[h := t.rows[heir].domain]
    ensures Shrinks(t, u)
  {
    forall g, k, j | RowOwns(u, j, g, k) ensures RowOwns(t, j, g, k) {}
    assert RowOwns(t, heir, h, Lower(t.rows[heir].domain));
  }

  lemma OwnersLose(t: Tables, self: Exempt, keys: set<string>, owners: set<nat>, h: nat)
    requires h in t.hosts
    requires owners == ((set g | g in t.hosts && Lower(t.hosts[g]) in keys) +
                        (set i | i in t.rows && Lower(t.rows[i].domain) in keys :: t.rows[i].hostID))
                       - (if self.Host? then {self.id} else {})
    ensures h in owners <==> Loses(t, self, keys, h)
  {
    if h in owners {
      if Lower(t.hosts[h]) in keys {
        assert Owns(t, h, Lower(t.hosts[h]));
      } else {
        var i :| i in t.rows && Lower(t.rows[i].domain) in keys && t.rows[i].hostID == h;
        assert RowOwns(t, i, h, Lower(t.rows[i].domain));
        assert Owns(t, h, Lower(t.rows[i].domain));
      }
    }
    if Loses(t, self, keys, h) {
      var k :| k in keys && Owns(t, h, k);
      if Lower(t.hosts[h]) != k {
        var i :| RowOwns(t, i, h, k);
      }
    }
  }

  lemma ServedAll(t: Tables, u: Tables, self: Exempt, keys: set<string>, owners: set<nat>)
    requires Served(t, u, keys, owners) && forall h | h in t.hosts :: h in owners <==> Loses(t, self, keys, h)
    ensures Claimed(t, u, self, keys)
  {
    hide Gives, Same, Loses;
  }

  lemma NothingServed(t: Tables, keys: set<string>)
    ensures Served(t, t, keys, {})
  {
  }

  lemma NotServedYet(t: Tables, u: Tables, keys: set<string>, done: set<nat>, h: nat)
    requires Served(t, u, keys, done) && h in t.hosts && h !in done
    ensures h in u.hosts
  {
    hide Gives;
  }

  lemma KeysOfNone(domains: seq<string>)
    ensures KeysOf(domains[..0]) == {}
  {
  }

  lemma SoundOwners(t: Tables, keys: set<string>)
    requires Sound(t)
    ensures forall i | i in t.rows && Lower(t.rows[i].domain) in keys :: t.rows[i].hostID in t.hosts
  {
  }

  lemma ShrinksTwice(t: Tables, u: Tables, v: Tables)
    requires Shrinks(t, u) && Shrinks(u, v)
    ensures Shrinks(t, v)
  {
    hide Owns;
  }

  /** A claim of nothing at all. */
  lemma ClaimNothing(t: Tables, self: Exempt)
    ensures Claimed(t, t, self, {})
  {
  }

  lemma BrokenAtOnce(t: Tables, keys: set<string>)
    requires Sound(t)
    ensures Broken(t, t, keys, 0)
  {
  }

  /** A refused update still takes the domains that another host owns, and then nobody owns them. */
  lemma RefusalStrands(t: Tables, u: Tables, id: nat, keys: set<string>, h: nat, k: string)
    requires Sound(t) && OneOwner(t) && Claimed(t, u, Host(id), keys)
    requires k in keys && Owns(t, h, k) && h != id
    ensures forall g :: !Owns(u, g, k)
  {
    forall g ensures !Owns(u, g, k) {
      ClaimMoves(t, u, Host(id), keys, g, k);
    }
  }

  /** Stored as it stands: in lower case and without surrounding space. */
  predicate Stable(name: string) { Lower(name) == name == TrimSpace(name) }

  lemma PrimaryOwns(t: Tables, h: nat, k: string)
    requires t.rows == map[]
    ensures Owns(t, h, k) <==> h in t.hosts && Lower(t.hosts[h]) == k
  {
  }

  lemma ClaimedOther(t: Tables, u: Tables, keys: set<string>)
    requires t.rows == map[] && t.hosts.Keys == {1, 2} && Lower(t.hosts[2]) in keys
    ensures Claimed(t, u, Host(1), keys) <==> u == Tables(map[1 := t.hosts[1]], map[])
  {
    PrimaryOwns(t, 2, Lower(t.hosts[2]));
    assert Loses(t, Host(1), keys, 2) && !Loses(t, Host(1), keys, 1);
    hide Owns, Lower, Loses;
    if Claimed(t, u, Host(1), keys) {
      assert Gives(t, u, 2, keys) && Same(t, u, 1);
      assert forall p :: !Promotes(t, u, 2, keys, p);
      assert u.hosts == map[1 := t.hosts[1]] && u.rows == map[];
    }
  }

  lemma TwoHosts(a: string, b: string)
    requires Stable(a) && Stable(b) && a != b
    ensures var t := Tables(map[1 := a, 2 := b], map[]); Sound(t) && OneOwner(t) && Owns(t, 2, b)
    ensures forall g :: !Owns(Tables(map[1 := a], map[]), g, b)
  {
    var t := Tables(map[1 := a, 2 := b], map[]);
    forall h, k ensures Owns(t, h, k) <==> h in t.hosts && Lower(t.hosts[h]) == k { PrimaryOwns(t, h, k); }
    forall g ensures !Owns(Tables(map[1 := a], map[]), g, b) { PrimaryOwns(Tables(map[1 := a], map[]), g, b); }
  }

  lemma ExampleName(name: string)
    requires name in ["a.com", "b.com"]
    ensures Stable(name)
  {
    assert forall i | 0 <= i < |name| :: LowerChar(name[i]) == name[i];
  }

  /**
   * Two hosts with one name each; an update of the first to both names is refused behind its claim. The
   * second host is gone then, and its name is nobody's.
   */
  lemma StrandedExample(u: Tables)
    ensures
      var t := Tables(map[1 := "a.com", 2 := "b.com"], map[]);
      && Sound(t) && OneOwner(t) && Owns(t, 2, "b.com")
      && (Claimed(t, u, Host(1), {"a.com", "b.com"}) <==> u == Tables(map[1 := "a.com"], map[]))
      && forall g :: !Owns(Tables(map[1 := "a.com"], map[]), g, "b.com")
  {
    ExampleName("a.com");
    ExampleName("b.com");
    assert "a.com"[0] != "b.com"[0];
    assert Lower("b.com") == "b.com";
    var t := Tables(map[1 := "a.com", 2 := "b.com"], map[]);
    assert t.hosts.Keys == {1, 2} && t.hosts[2] == "b.com";
    hide *;
    TwoHosts("a.com", "b.com");
    ClaimedOther(t, u, {"a.com", "b.com"});
  }

  /** `h` owns exactly `keys` now, and nobody else lost or won anything else. */
  ghost predicate Rehomed(t: Tables, u: Tables, h: nat, keys: set<string>) {
    forall g, k :: Owns(u, g, k) <==> if g == h then k in keys else Owns(t, g, k) && k !in keys
  }

  function LowerAll(domains: seq<string>): set<string> {
    set d | d in domains :: Lower(d)
  }

  lemma NormalLower(domains: seq<string>)
    requires Normal(domains)
    ensures LowerAll(domains) == KeysOf(domains)
    ensures forall d | d in domains :: Lower(d) == d && TrimSpace(d) == d
  {
    forall d | d in domains ensures Lower(d) == d && TrimSpace(d) == d && d in KeysOf(domains) {
      KeyStable(d);
      assert Key(d) == d;
    }
    forall k | k in KeysOf(domains) ensures k in LowerAll(domains) {
      var d :| d in domains && Key(d) == k;
      assert Lower(d) == k;
    }
  }

  /** The names of the request are stored as they are compared. */
  ghost predicate Stored(domains: seq<string>) {
    forall d | d in domains :: Lower(d) == d && TrimSpace(d) == d
  }

  lemma NormalSplit(domains: seq<string>)
    requires Normal(domains)
    ensures Stored(domains) && Stored(domains[1..])
    ensures LowerAll(domains) == {domains[0]} + LowerAll(domains[1..]) && Lower(domains[0]) == domains[0]
  {
    NormalLower(domains);
    LowerAllCons(domains[0], domains[1..]);
    assert domains == [domains[0]] + domains[1..];
  }

  lemma LowerAllCons(d: string, rest: seq<string>)
    ensures LowerAll([d] + rest) == {Lower(d)} + LowerAll(rest)
  {
    assert forall x | x in [d] + rest :: x == d || x in rest;
  }

  lemma GrowthStaysFree(t: Tables, u: Tables, h: nat, added: set<string>, keys: set<string>)
    requires GrowsOnly(t, u, h, added) && Free(t, Host(h), keys)
    ensures Free(u, Host(h), keys)
  {
    hide Owns;
  }

  lemma GrowsTwice(t: Tables, u: Tables, v: Tables, h: nat, added: set<string>)
    requires GrowsOnly(t, u, h, added) && GrowsOnly(u, v, h, added)
    ensures GrowsOnly(t, v, h, added)
  {
    hide Owns;
  }

  lemma GrowsMore(t: Tables, u: Tables, h: nat, added: set<string>, more: set<string>)
    requires GrowsOnly(t, u, h, added) && added <= more
    ensures GrowsOnly(t, u, h, more)
  {
    hide Owns;
  }

  lemma ShrinkGrows(t: Tables, u: Tables, h: nat, added: set<string>)
    requires Shrinks(t, u)
    ensures GrowsOnly(t, u, h, added)
  {
    hide Owns;
  }

  /** Inserting one additional domain that no other host owns. */
  lemma InsertOne(t: Tables, u: Tables, i: nat, r: Row, names: set<string>)
    requires Sound(t) && OneOwner(t) && Free(t, Host(r.hostID), names) && r.hostID in t.hosts
    requires i !in t.rows && u == t.(rows := t.rows[i := r])
    requires r.domain in names && Lower(r.domain) == r.domain && TrimSpace(r.domain) == r.domain
    ensures Sound(u) && OneOwner(u) && Free(u, Host(r.hostID), names)
    ensures GrowsOnly(t, u, r.hostID, names) && Shrinks(u, t) && Owns(u, r.hostID, r.domain)
  {
    AddRowOwns(t, u, i, r);
    hide Owns;
    GrowthKeepsOneOwner(t, u, r.hostID, names);
    GrowthStaysFree(t, u, r.hostID, names, names);
  }

  lemma FreeShrinks(t: Tables, u: Tables, self: Exempt, keys: set<string>, fewer: set<string>)
    requires Shrinks(t, u) && Free(t, self, keys) && fewer <= keys
    ensures Free(u, self, fewer)
  {
    hide Owns;
  }

  lemma FreeOfNobody(t: Tables, h: nat, keys: set<string>)
    requires Free(t, Nobody, keys)
    ensures Free(t, Host(h), keys)
  {
    hide Owns;
  }

  /** The primary domain of a new host. */
  lemma NewHost(u: Tables, v: Tables, id: nat, d: string, keys: set<string>)
    requires Sound(u) && OneOwner(u) && Free(u, Nobody, keys) && id !in u.hosts
    requires d in keys && Lower(d) == d && TrimSpace(d) == d && v == u.(hosts := u.hosts[id := d])
    ensures Sound(v) && OneOwner(v) && Free(v, Host(id), keys)
    ensures GrowsOnly(u, v, id, keys)
    ensures forall g, k :: Owns(v, g, k) <==> if g == id then k == d else Owns(u, g, k)
  {
    AddHostOwns(u, v, id, d);
    forall k ensures !Owns(u, id, k) { NoHostNoDomains(u, u, id, k); }
    hide Owns;
    FreeOfNobody(u, id, keys);
    GrowthKeepsOneOwner(u, v, id, keys);
    GrowthStaysFree(u, v, id, keys, keys);
  }

  /** The primary domain of an updated host, after its additional domains were dropped or left. */
  lemma NewPrimary(u: Tables, m: Tables, v: Tables, id: nat, d: string, keys: set<string>, clears: bool)
    requires Sound(u) && OneOwner(u) && Free(u, Host(id), keys) && id in u.hosts
    requires m == Cleared(u, id, clears)
    requires d in keys && Lower(d) == d && TrimSpace(d) == d && v == m.(hosts := m.hosts[id := d])
    ensures Sound(m) && OneOwner(m) && GrowsOnly(u, m, id, keys)
    ensures Sound(v) && OneOwner(v) && Free(v, Host(id), keys) && GrowsOnly(u, v, id, keys)
    ensures forall g, k | g != id :: Owns(v, g, k) <==> Owns(u, g, k)
    ensures forall k :: Owns(v, id, k) <==> k == d || k in LeftKeys(u, id, clears)
  {
    ClearedKeys(u, id, clears);
    NothingLost(u, id);
    DropRowsOwns(u, u.(rows := DropRowsOf(u.rows, id)), id);
    SetPrimaryOwns(m, v, id, d);
    hide Owns;
    ShrinkKeepsOneOwner(u, m);
    ShrinkGrows(u, m, id, keys);
    FreeShrinks(u, m, Host(id), keys, keys);
    GrowsMore(m, v, id, {d}, keys);
    GrowsTwice(u, m, v, id, keys);
    GrowthKeepsOneOwner(m, v, id, keys);
    GrowthStaysFree(m, v, id, keys, keys);
  }

  /** `h` owns exactly `keys`, and everybody else what they owned. */
  ghost predicate Settled(u: Tables, w: Tables, h: nat, keys: set<string>) {
    forall g, k :: Owns(w, g, k) <==> if g == h then k in keys else Owns(u, g, k)
  }

  /** Primary domain and additional domains together. */
  lemma Settles(u: Tables, v: Tables, w: Tables, id: nat, domains: seq<string>, kept: set<string>)
    requires Normal(domains)
    requires forall g, k | g != id :: Owns(v, g, k) <==> Owns(u, g, k)
    requires forall k :: Owns(v, id, k) <==> k == domains[0] || k in kept
    requires GrowsOnly(v, w, id, LowerAll(domains[1..])) && Shrinks(w, v)
    requires forall n | 0 <= n < |domains[1..]| :: Owns(w, id, domains[1..][n])
    ensures Settled(u, w, id, KeysOf(domains) + kept)
  {
    NormalSplit(domains);
    NormalLower(domains);
    hide Owns;
    forall k | k in LowerAll(domains[1..]) ensures Owns(w, id, k) {
      var d :| d in domains[1..] && Lower(d) == k;
    }
  }

  lemma ClaimSettles(t: Tables, u: Tables, w: Tables, self: Exempt, id: nat, keys: set<string>, kept: set<string>)
    requires Sound(t) && OneOwner(t) && Claimed(t, u, self, keys) && Settled(u, w, id, keys + kept)
    requires self == Host(id) || self == Nobody
    requires forall k | k in kept :: Owns(t, id, k)
    ensures Rehomed(t, w, id, keys + kept)
  {
    hide Owns, Claimed;
    forall g, k ensures Owns(w, g, k) <==> if g == id then k in keys + kept else Owns(t, g, k) && k !in keys + kept {
      ClaimMoves(t, u, self, keys, g, k);
      assert Settled(u, w, id, keys + kept);
    }
  }

  /** The claim of an update leaves the host's own additional names alone. */
  lemma ClaimKeepsLeft(t: Tables, u: Tables, id: nat, keys: set<string>, clears: bool)
    requires Claimed(t, u, Host(id), keys) && id in t.hosts
    ensures LeftKeys(u, id, clears) == LeftKeys(t, id, clears)
    ensures forall k | k in LeftKeys(t, id, clears) :: Owns(t, id, k)
  {
    assert Same(t, u, id) && Subtables(t, u);
    forall k | k in RowKeys(t, id) ensures Owns(t, id, k) { RowKeysOwn(t, id, k); }
    forall k ensures k in RowKeys(u, id) <==> k in RowKeys(t, id) {
      RowKeysOwn(t, id, k);
      RowKeysOwn(u, id, k);
      if i :| RowOwns(t, i, id, k) { assert RowOwns(u, i, id, k); }
      if i :| RowOwns(u, i, id, k) { assert RowOwns(t, i, id, k); }
    }
  }

  /** None of the names stands in the table of additional names: the unique index lets them in. */
  ghost predicate Unused(rows: map<nat, Row>, domains: seq<string>) {
    forall i, n | i in rows && 0 <= n < |domains| :: rows[i].domain != domains[n]
  }

  ghost predicate Distinct(domains: seq<string>) {
    forall i, j | 0 <= i < j < |domains| :: domains[i] != domains[j]
  }

  /** An update can insert its additional names: the old ones are gone, or none of them is among these. */
  ghost predicate CanInsert(t: Tables, h: nat, domains: seq<string>, clears: bool) {
    clears || forall i | i in t.rows && t.rows[i].hostID == h :: t.rows[i].domain !in domains
  }

  /** No additional name of the host is asked for as an additional name again. */
  ghost predicate NoneKept(t: Tables, h: nat, primary: string, extras: seq<string>) {
    forall i, e | i in t.rows && t.rows[i].hostID == h && e in extras && Key(e) != "" && Key(e) != Key(primary) ::
      t.rows[i].domain != Key(e)
  }

  lemma ExtraNames(domains: seq<string>, primary: string, extras: seq<string>, d: string)
    requires Normal(domains) && domains[0] == Key(primary) && KeysOf(domains) == KeysOf([primary] + extras)
    ensures d in domains[1..] <==> d != "" && d != Key(primary) && exists e :: e in extras && Key(e) == d
  {
    NormalKeys(domains);
    assert domains == [domains[0]] + domains[1..];
    if d in domains[1..] {
      assert d in domains && d in KeysOf([primary] + extras);
      var e :| e in [primary] + extras && Key(e) == d;
      assert d != domains[0];
      assert e in extras;
    }
    if e :| e in extras && Key(e) == d {
      assert e in [primary] + extras;
      assert d != "" ==> d in KeysOf(domains);
    }
  }

  lemma CanInsertBefore(t: Tables, u: Tables, id: nat, primary: string, extras: seq<string>, domains: seq<string>,
      clears: bool)
    requires Claimed(t, u, Host(id), KeysOf(domains)) && id in t.hosts
    requires Normal(domains) && domains[0] == Key(primary) && KeysOf(domains) == KeysOf([primary] + extras)
    ensures CanInsert(u, id, domains[1..], clears) <==> clears || NoneKept(t, id, primary, extras)
  {
    assert Same(t, u, id) && Subtables(t, u);
    forall d ensures d in domains[1..] <==> d != "" && d != Key(primary) && exists e :: e in extras && Key(e) == d {
      ExtraNames(domains, primary, extras, d);
    }
    hide Key, KeysOf, Normal, Claimed;
  }

  lemma TailKeys(domains: seq<string>)
    requires Normal(domains)
    ensures Stored(domains[1..]) && Distinct(domains[1..])
    ensures forall n | 0 <= n < |domains[1..]| :: domains[1..][n] in KeysOf(domains)
  {
    NormalSplit(domains);
    NormalKeys(domains);
    forall n | 0 <= n < |domains[1..]| ensures domains[1..][n] in KeysOf(domains) {
      assert domains[1..][n] in domains;
    }
  }

  lemma FreeUnused(t: Tables, h: nat, domains: seq<string>)
    requires Free(t, Host(h), KeysOf(domains)) && Normal(domains)
    requires forall i | i in t.rows :: t.rows[i].hostID != h
    ensures Unused(t.rows, domains[1..])
  {
    TailKeys(domains);
    UnusedIff(t, h, false, domains[1..], KeysOf(domains));
  }

  lemma CanInsertIff(t: Tables, h: nat, domains: seq<string>, clears: bool)
    requires Free(t, Host(h), KeysOf(domains)) && Normal(domains)
    ensures Unused(Cleared(t, h, clears).rows, domains[1..]) <==> CanInsert(t, h, domains[1..], clears)
  {
    TailKeys(domains);
    UnusedIff(t, h, clears, domains[1..], KeysOf(domains));
  }

  lemma NoRowsOf(t: Tables, h: nat)
    requires Sound(t) && h !in t.hosts
    ensures forall i | i in t.rows :: t.rows[i].hostID != h
  {
  }

  /** What is free for a host can only be stored for that host. */
  lemma UnusedIff(t: Tables, h: nat, clears: bool, domains: seq<string>, keys: set<string>)
    requires Free(t, Host(h), keys) && Stored(domains) && forall n | 0 <= n < |domains| :: domains[n] in keys
    ensures Unused(Cleared(t, h, clears).rows, domains) <==>
              clears || forall i | i in t.rows && t.rows[i].hostID == h :: t.rows[i].domain !in domains
  {
    forall i, n | i in t.rows && 0 <= n < |domains| && t.rows[i].domain == domains[n] ensures t.rows[i].hostID == h {
      assert domains[n] in domains;
      assert RowOwns(t, i, t.rows[i].hostID, domains[n]);
      assert Owns(t, t.rows[i].hostID, domains[n]);
    }
  }

  // ---------------------------------------------------------------------------------------------
  // The service
  // ---------------------------------------------------------------------------------------------

  datatype CheckReply = Clear | Taken(domain: string) | CheckFailed

  datatype Reply =
    | Saved(id: nat, applied: bool)   // `applied`: the Caddy configuration was reloaded afterwards
    | Deleted(applied: bool)
    | NotFound
    | BadDomain
    | Refused
    | DbFailed

  datatype Request =
    | CreateHost(primary: string, extras: seq<string>, accepted: bool)
    | UpdateHost(id: nat, primary: string, extras: seq<string>, accepted: bool, clears: bool, authOk: bool)
    | DeleteHost(id: nat)

  class HostService {
    var hosts: map<nat, string>
    var rows: map<nat, Row>
    var nextHost: nat
    var nextRow: nat

    ghost function View(): Tables
      reads this
    {
      Tables(hosts, rows)
    }

    ghost predicate Valid()
      reads this
    {
      && Sound(View()) && OneOwner(View())
      && (forall h | h in hosts :: h < nextHost)
      && (forall i | i in rows :: i < nextRow)
    }

    constructor ()
      ensures Valid() && hosts == map[] && rows == map[]
    {
      hosts, rows, nextHost, nextRow := map[], map[], 0, 0;
    }

    /** The additional domains of a host by `sort_order`, ties in any order, as the database returns them. */
    method LoadDomains(h: nat) returns (ds: seq<nat>)
      ensures forall n | 0 <= n < |ds| :: ds[n] in rows && rows[ds[n]].hostID == h
      ensures forall i | i in rows && rows[i].hostID == h :: i in ds
      ensures forall a, b | 0 <= a < b < |ds| ::
                ds[a] in rows && ds[b] in rows && rows[ds[a]].order <= rows[ds[b]].order
    {
      ds := [];
      var todo := set i | i in rows.Keys && rows[i].hostID == h;
      while todo != {}
        invariant todo <= rows.Keys
        invariant forall n | 0 <= n < |ds| :: ds[n] in rows && rows[ds[n]].hostID == h
        invariant forall i | i in rows && rows[i].hostID == h :: i in todo || i in ds
        invariant forall i | i in todo :: rows[i].hostID == h
        invariant forall n, i | 0 <= n < |ds| && i in todo :: rows[ds[n]].order <= rows[i].order
        invariant forall a, b | 0 <= a < b < |ds| :: rows[ds[a]].order <= rows[ds[b]].order
      {
        LowestExists(rows, todo);
        var i :| i in todo && forall j | j in todo :: rows[i].order <= rows[j].order;
        ds := ds + [i];
        todo := todo - {i};
      }
    }

    /** What the claim leaves of the additional domains, lowest-sorted first. */
    method Remaining(h: nat, keys: set<string>) returns (remaining: seq<nat>)
      requires Sound(View())
      ensures |remaining| == 0 ==> forall i :: !Remains(View(), h, keys, i)
      ensures |remaining| > 0 ==> IsHeir(View(), h, keys, remaining[0])
    {
      hide Remains, IsHeir, Key, Sound;
      ghost var t := View();
      var domains := LoadDomains(h);
      remaining := [];
      var n := 0;
      while n < |domains|
        invariant 0 <= n <= |domains|
        invariant |remaining| == 0 ==> forall a | 0 <= a < n :: !Remains(t, h, keys, domains[a])
        invariant |remaining| > 0 ==> Remains(t, h, keys, remaining[0]) && remaining[0] in rows
        invariant |remaining| > 0 ==> forall a | 0 <= a < |domains| && Remains(t, h, keys, domains[a]) ::
                    rows[remaining[0]].order <= rows[domains[a]].order
      {
        var d := domains[n];
        RemainsIff(t, h, keys, d);
        if Key(rows[d].domain) !in keys {
          remaining := remaining + [d];
        }
        n := n + 1;
      }
      forall i | Remains(t, h, keys, i) ensures i in domains { RemainsHere(t, h, keys, i); }
      if |remaining| > 0 {
        HeirIs(t, h, keys, remaining[0], domains);
      }
    }

    /** One host of the claim. Any statement of the database may fail, unless it is `healthy`. */
    method HandOver(h: nat, keys: set<string>, healthy: bool) returns (ok: bool)
      requires h in hosts && Sound(View())
      modifies `hosts, `rows
      ensures OnlyHost(old(View()), View(), h) && Sound(View()) && Shrinks(old(View()), View())
      ensures ok ==> Gives(old(View()), View(), h, keys)
      ensures healthy ==> ok
    {
      var failed: bool;
      hide OnlyHost, Sound, Shrinks, Gives, Remains, IsHeir;
      ghost var t := View();
      var remaining := Remaining(h, keys);
      assert View() == t;
      NothingLost(t, h);
      if Lower(hosts[h]) in keys {
        if |remaining| == 0 {
          failed :| healthy ==> !failed;
          if failed { return false; }
          VanishStep(t, h, keys);
          hosts, rows := hosts - {h}, DropRowsOf(rows, h);
          return true;
        }
        var heir := remaining[0];
        HeirSteps(t, h, keys, heir);
        HeirHere(t, h, keys, heir);
        var domain := rows[heir].domain;
        failed :| healthy ==> !failed;
        if failed { return false; }
        rows := DropRows(rows, h, {Lower(domain)});
        failed :| healthy ==> !failed;
        if failed { return false; }
        hosts := hosts[h := domain];
        failed :| healthy ==> !failed;
        if failed { return false; }
        rows := DropRows(rows, h, keys);
        return true;
      }
      failed :| healthy ==> !failed;
      if failed { return false; }
      TrimStep(t, h, keys);
      rows := DropRows(rows, h, keys);
      return true;
    }

    static method CollectKeys(domains: seq<string>) returns (keys: set<string>)
      ensures keys == KeysOf(domains)
    {
      hide Key, KeysOf;
      keys := {};
      var n := 0;
      assert KeysOf(domains[..0]) == {} by { KeysOfNone(domains); }
      while n < |domains|
        invariant 0 <= n <= |domains| && keys == KeysOf(domains[..n])
      {
        KeysStep(domains, n);
        if Key(domains[n]) != "" {
          keys := keys + {Key(domains[n])};
        }
        n := n + 1;
      }
      assert domains[..n] == domains;
    }

    /** The loop over the owners. */
    method ServeOwners(owners: set<nat>, keys: set<string>, healthy: bool) returns (ok: bool, ghost harmed: nat)
      requires Sound(View()) && owners <= hosts.Keys
      modifies `hosts, `rows
      ensures Sound(View()) && Shrinks(old(View()), View())
      ensures ok ==> Served(old(View()), View(), keys, owners)
      ensures !ok ==> Broken(old(View()), View(), keys, harmed)
      ensures healthy ==> ok
    {
      hide Sound, Gives, Same, Broken, Served, OnlyHost, Shrinks;
      ghost var t := View();
      NothingServed(t, keys);
      NothingLost(t, 0);
      var todo := owners;
      assert owners - todo == {};
      while todo != {}
        invariant todo <= owners && Sound(View()) && Shrinks(t, View())
        invariant Served(t, View(), keys, owners - todo)
      {
        var h :| h in todo;
        ghost var u, done := View(), owners - todo;
        NotServedYet(t, u, keys, done, h);
        ok := HandOver(h, keys, healthy);
        ShrinksTwice(t, u, View());
        if !ok {
          BreakOff(t, u, View(), keys, done, h);
          return false, h;
        }
        ServeOne(t, u, View(), keys, done, h);
        todo := todo - {h};
        assert owners - todo == done + {h};
      }
      assert owners - todo == owners;
      return true, 0;
    }

    /**
     * Takes the requested domains from all hosts but the exempt one. Without a transaction around it,
     * a claim that breaks off keeps what it has done so far.
     */
    method ClaimRequestedDomains(self: Exempt, domains: seq<string>, healthy: bool)
      returns (ok: bool, ghost harmed: nat)
      requires Valid()
      modifies `hosts, `rows
      ensures Valid() && Shrinks(old(View()), View())
      ensures ok ==> Claimed(old(View()), View(), self, KeysOf(domains))
      ensures !ok ==> Broken(old(View()), View(), KeysOf(domains), harmed)
      ensures healthy ==> ok
    {
      var failed: bool;
      hide Key, KeysOf, Owns, Gives, Same, Loses;
      ghost var t := View();
      harmed := 0;
      var keys := CollectKeys(domains);
      assert View() == t;
      if keys == {} {
        ClaimNothing(t, self);
        return true, harmed;
      }
      failed :| healthy ==> !failed;
      if failed {
        BrokenAtOnce(t, keys);
        return false, harmed;
      }
      var owners := (set h | h in hosts.Keys && Lower(hosts[h]) in keys) +
                    (set i | i in rows.Keys && Lower(rows[i].domain) in keys :: rows[i].hostID);
      owners := owners - if self.Host? then {self.id} else {};
      forall h | h in t.hosts ensures h in owners <==> Loses(t, self, keys, h) {
        OwnersLose(t, self, keys, owners, h);
      }
      SoundOwners(t, keys);
      ok, harmed := ServeOwners(owners, keys, healthy);
      ShrinkKeepsOneOwner(t, View());
      if ok {
        ServedAll(t, View(), self, keys, owners);
      }
    }

    /** Looks for another owner, in both tables. */
    method CheckDomainConflicts(self: Exempt, domains: seq<string>, healthy: bool) returns (r: CheckReply)
      ensures healthy ==> !r.CheckFailed?
      ensures r.Clear? ==> Free(View(), self, LowerAll(domains))
      ensures r.Taken? ==> r.domain in domains && exists h :: Owns(View(), h, Lower(r.domain)) && self != Host(h)
    {
      var failed: bool;
      var n := 0;
      while n < |domains|
        invariant 0 <= n <= |domains|
        invariant forall m, h | 0 <= m < n && Owns(View(), h, Lower(domains[m])) :: self == Host(h)
      {
        var k := Lower(domains[n]);
        failed :| healthy ==> !failed;
        if failed { return CheckFailed; }
        if exists h | h in hosts.Keys :: Lower(hosts[h]) == k && self != Host(h) {
          ghost var h :| h in hosts && Lower(hosts[h]) == k && self != Host(h);
          assert Owns(View(), h, k);
          return Taken(domains[n]);
        }
        failed :| healthy ==> !failed;
        if failed { return CheckFailed; }
        if exists i | i in rows.Keys :: Lower(rows[i].domain) == k && self != Host(rows[i].hostID) {
          ghost var i :| i in rows && Lower(rows[i].domain) == k && self != Host(rows[i].hostID);
          assert RowOwns(View(), i, rows[i].hostID, k);
          assert Owns(View(), rows[i].hostID, k);
          return Taken(domains[n]);
        }
        n := n + 1;
      }
      return Clear;
    }

    /** Inserts the additional domains one by one; the column is unique, and any insert may fail. */
    method InsertRows(id: nat, domains: seq<string>, healthy: bool) returns (ok: bool)
      requires Valid() && id in hosts && Stored(domains) && Free(View(), Host(id), LowerAll(domains))
      requires Distinct(domains)
      modifies `rows, `nextRow
      ensures Valid() && Shrinks(View(), old(View()))
      ensures GrowsOnly(old(View()), View(), id, LowerAll(domains))
      ensures ok ==> forall n | 0 <= n < |domains| ::
                Owns(View(), id, domains[n]) && Stands(rows, id, domains[n], n)
      ensures healthy ==> (ok <==> Unused(old(rows), domains))
    {
      var failed: bool;
      hide Owns, Sound, OneOwner, Free, GrowsOnly, Shrinks, LowerAll, Lower, Unused, Stands, Inserted, Distinct;
      ghost var t, names := View(), LowerAll(domains);
      NothingLost(t, 0);
      NothingInserted(rows, id, domains);
      ShrinkGrows(t, t, id, names);
      var n := 0;
      while n < |domains|
        invariant 0 <= n <= |domains| && hosts == old(hosts)
        invariant Valid() && Free(View(), Host(id), names)
        invariant GrowsOnly(t, View(), id, names) && Shrinks(View(), t)
        invariant Inserted(old(rows), rows, id, domains, n)
      {
        ghost var u := View();
        InsertedNext(old(rows), rows, id, domains, n, nextRow);
        failed :| healthy ==> !failed;
        if failed { return false; }
        if exists i | i in rows.Keys :: rows[i].domain == domains[n] {
          assert !Unused(old(rows), domains);
          return false;
        }
        NameOf(domains, n);
        var row := Row(id, domains[n], n);
        ghost var i := nextRow;
        rows, nextRow := rows[nextRow := row], nextRow + 1;
        InsertOne(u, View(), i, row, names);
        GrowsTwice(t, u, View(), id, names);
        ShrinksTwice(View(), u, t);
        n := n + 1;
      }
      InsertedAll(old(rows), View(), id, domains);
      return true;
    }

    /** The claim and the conflict check behind it, which can fail but never finds a conflict. */
    method ClaimAndCheck(self: Exempt, domains: seq<string>, healthy: bool) returns (check: CheckReply)
      requires Valid() && Normal(domains)
      modifies `hosts, `rows
      ensures Valid() && Shrinks(old(View()), View())
      ensures !check.Taken? && (healthy ==> check.Clear?)
      ensures check.Clear? ==>
                Claimed(old(View()), View(), self, KeysOf(domains)) && Free(View(), self, KeysOf(domains))
    {
      hide Owns, Key, KeysOf, Claimed, Broken, Lower, LowerAll, Normal;
      ghost var t := View();
      ghost var harmed;
      var ok;
      ok, harmed := ClaimRequestedDomains(self, domains, healthy);
      if !ok { return CheckFailed; }
      ClaimFrees(t, View(), self, KeysOf(domains));
      NormalLower(domains);
      check := CheckDomainConflicts(self, domains, healthy);
      NotTaken(View(), self, KeysOf(domains), check, domains);
    }

    /** The database part of Create; `accepted` is whether every other validation of the request passes. */
    method CreateInTransaction(primary: string, extras: seq<string>, valid: string -> bool, accepted: bool,
        healthy: bool)
      returns (r: Reply)
      requires Valid() && !valid("")
      modifies this
      ensures Valid() && (r.Saved? || r.BadDomain? || r.Refused? || r.DbFailed?)
      ensures r.BadDomain? <==> !AllValid(primary, extras, valid)
      ensures r.Refused? ==> !accepted
      ensures healthy && AllValid(primary, extras, valid) ==> if accepted then r.Saved? else r.Refused?
      ensures r.Saved? ==> r.id !in old(hosts) && r.id in hosts && hosts[r.id] == Key(primary)
      ensures r.Saved? ==> Rehomed(old(View()), View(), r.id, KeysOf([primary] + extras))
    {
      var failed: bool;
      hide Owns, OneOwner, Free, GrowsOnly, Shrinks, LowerAll, Lower, Key, KeysOf, Claimed, Normal, Rehomed, InOrder,
        Settled;
      ghost var t := View();
      var ok, domains := NormalizeHostDomains(primary, extras, valid);
      if !ok { return BadDomain; }
      var check := ClaimAndCheck(Nobody, domains, healthy);
      if !check.Clear? { return DbFailed; }
      ghost var u := View();
      if !accepted { return Refused; }
      failed :| healthy ==> !failed;
      if failed { return DbFailed; }
      var id;
      ok, id := InsertHost(domains, healthy);
      if !ok { return DbFailed; }
      ClaimSettles(t, u, View(), Nobody, id, KeysOf(domains), {});
      assert KeysOf(domains) + {} == KeysOf(domains);
      failed :| healthy ==> !failed;
      if failed { return DbFailed; }
      return Saved(id, true);
    }

    /** The host with its associations. */
    method InsertHost(domains: seq<string>, healthy: bool) returns (ok: bool, id: nat)
      requires Valid() && Normal(domains) && Free(View(), Nobody, KeysOf(domains))
      modifies this
      ensures Valid() && id !in old(hosts) && id == old(nextHost)
      ensures ok ==> id in hosts && hosts[id] == domains[0] && Settled(old(View()), View(), id, KeysOf(domains) + {})
      ensures healthy ==> ok
    {
      hide Owns, OneOwner, Free, GrowsOnly, Shrinks, LowerAll, Lower, Key, KeysOf, Normal, Settled, Distinct, Unused;
      ghost var u := View();
      NormalFirst(domains);
      NormalSplit(domains);
      NormalLower(domains);
      id := nextHost;
      hosts, nextHost := hosts[id := domains[0]], nextHost + 1;
      ghost var v := View();
      NewHost(u, v, id, domains[0], KeysOf(domains));
      NothingLost(v, 0);
      FreeShrinks(v, v, Host(id), KeysOf(domains), LowerAll(domains[1..]));
      TailKeys(domains);
      NoRowsOf(u, id);
      FreeUnused(v, id, domains);
      ok := InsertRows(id, domains[1..], healthy);
      if ok {
        Settles(u, v, View(), id, domains, {});
      }
    }

    /** All or nothing, apart from the reload that follows (`applies`). */
    method Create(primary: string, extras: seq<string>, valid: string -> bool, accepted: bool, applies: bool,
        healthy: bool)
      returns (r: Reply)
      requires Valid() && !valid("")
      modifies this
      ensures Valid()
      ensures r.Saved? || (hosts == old(hosts) && rows == old(rows))
      ensures r.BadDomain? <==> !AllValid(primary, extras, valid)
      ensures healthy && AllValid(primary, extras, valid) ==> if accepted then r.Saved? else r.Refused?
      ensures r.Saved? ==> r.id !in old(hosts) && r.id in hosts && hosts[r.id] == Key(primary) && r.applied == applies
      ensures r.Saved? ==> Rehomed(old(View()), View(), r.id, KeysOf([primary] + extras))
    {
      hide Owns, Key, KeysOf, Rehomed;
      var hosts0, rows0, nextHost0, nextRow0 := hosts, rows, nextHost, nextRow;
      r := CreateInTransaction(primary, extras, valid, accepted, healthy);
      if !r.Saved? {
        hosts, rows, nextHost, nextRow := hosts0, rows0, nextHost0, nextRow0;
        assert View() == old(View());
        return;
      }
      r := Saved(r.id, applies);
    }

    /** The writes of Update. */
    method WriteUpdate(id: nat, domains: seq<string>, clears: bool, authOk: bool, healthy: bool) returns (r: Reply)
      requires Valid() && Normal(domains) && id in hosts && Free(View(), Host(id), KeysOf(domains))
      modifies this
      ensures Valid() && GrowsOnly(old(View()), View(), id, KeysOf(domains))
      ensures (r.Refused? && !authOk) || r.DbFailed? || r == Saved(id, true)
      ensures r.Refused? ==> hosts == old(hosts) && rows == if clears then DropRowsOf(old(rows), id) else old(rows)
      ensures r.Saved? ==> id in hosts && hosts[id] == domains[0]
      ensures r.Saved? ==> Settled(old(View()), View(), id, KeysOf(domains) + LeftKeys(old(View()), id, clears))
      ensures healthy && !authOk ==> r.Refused?
      ensures healthy && authOk ==> (r.Saved? <==> CanInsert(old(View()), id, domains[1..], clears))
    {
      var failed: bool;
      hide Owns, OneOwner, Free, GrowsOnly, Shrinks, LowerAll, Lower, Key, KeysOf, Normal, Settled, Distinct, Unused;
      hide LeftKeys, Sound, CanInsert, Stored, Stands;
      ghost var u, keys := View(), KeysOf(domains);
      NormalFirst(domains);
      NormalSplit(domains);
      NormalLower(domains);
      ghost var m := Cleared(u, id, clears);
      ghost var v := m.(hosts := m.hosts[id := domains[0]]);
      NewPrimary(u, m, v, id, domains[0], keys, clears);
      if clears {
        rows := DropRowsOf(rows, id);
      }
      assert View() == m;
      if !authOk { return Refused; }
      failed :| healthy ==> !failed;
      if failed { return DbFailed; }
      hosts := hosts[id := domains[0]];
      assert View() == v;
      failed :| healthy ==> !failed;
      if failed { return DbFailed; }
      NothingLost(v, 0);
      FreeShrinks(v, v, Host(id), keys, LowerAll(domains[1..]));
      TailKeys(domains);
      CanInsertIff(u, id, domains, clears);
      var ok := InsertRows(id, domains[1..], healthy);
      GrowsMore(v, View(), id, LowerAll(domains[1..]), keys);
      GrowsTwice(u, v, View(), id, keys);
      if !ok { return DbFailed; }
      Settles(u, v, View(), id, domains, LeftKeys(u, id, clears));
      failed :| healthy ==> !failed;
      if failed { return DbFailed; }
      return Saved(id, true);
    }

    /**
     * No transaction. `accepted` is whether the validations before the first write pass, `authOk` whether
     * those between the writes do, and `clears` whether the unchecked DELETE of the old rows works.
     */
    method Update(id: nat, primary: string, extras: seq<string>, valid: string -> bool, accepted: bool,
        clears: bool, authOk: bool, applies: bool, healthy: bool) returns (r: Reply)
      requires Valid() && !valid("")
      modifies this
      ensures Valid()
      ensures r.NotFound? <==> id !in old(hosts)
      ensures r.NotFound? || r.BadDomain? ==> View() == old(View())
      ensures GrowsOnly(old(View()), View(), id, KeysOf([primary] + extras))
      ensures r.Refused? && (!accepted || !clears) ==>
                Claimed(old(View()), View(), Host(id), KeysOf([primary] + extras))
      ensures r.Refused? && accepted && clears ==>
                ClaimedThenCleared(old(View()), View(), id, KeysOf([primary] + extras))
      ensures r.Saved? ==> r == Saved(id, applies) && id in hosts && hosts[id] == Key(primary)
      ensures r.Saved? ==>
                Rehomed(old(View()), View(), id, KeysOf([primary] + extras) + LeftKeys(old(View()), id, clears))
      ensures id in old(hosts) ==> (r.BadDomain? <==> !AllValid(primary, extras, valid))
      ensures r.Refused? ==> !accepted || !authOk
      ensures healthy && id in old(hosts) && AllValid(primary, extras, valid) ==>
                if !accepted || !authOk then r.Refused?
                else r.Saved? <==> clears || NoneKept(old(View()), id, primary, extras)
    {
      hide Owns, OneOwner, Free, GrowsOnly, Shrinks, Key, KeysOf, Claimed, Normal, Rehomed, InOrder, Settled,
        DropRowsOf;
      hide ClaimedThenCleared, LeftKeys, CanInsert, NoneKept;
      ghost var t := View();
      NothingLost(t, 0);
      ShrinkGrows(t, t, id, KeysOf([primary] + extras));
      if id !in hosts { return NotFound; }
      var ok, domains := NormalizeHostDomains(primary, extras, valid);
      if !ok { return BadDomain; }
      var check := ClaimAndCheck(Host(id), domains, healthy);
      ghost var u, keys := View(), KeysOf(domains);
      ShrinkGrows(t, u, id, keys);
      if !check.Clear? { return DbFailed; }
      if !accepted { return Refused; }
      ClaimExempts(t, u, id, keys);
      ClaimKeepsLeft(t, u, id, keys, clears);
      CanInsertBefore(t, u, id, primary, extras, domains, clears);
      r := WriteUpdate(id, domains, clears, authOk, healthy);
      GrowsTwice(t, u, View(), id, keys);
      if r.Refused? && clears { ClearedAfter(t, u, View(), id, keys); }
      if r.Saved? {
        ClaimSettles(t, u, View(), Host(id), id, keys, LeftKeys(t, id, clears));
        r := Saved(id, applies);
      }
    }

    method Delete(id: nat, applies: bool, healthy: bool) returns (r: Reply)
      requires Valid()
      modifies this
      ensures Valid()
      ensures r.DbFailed? || (r.NotFound? && id !in old(hosts)) || (r == Deleted(applies) && id in old(hosts))
      ensures healthy ==> !r.DbFailed?
      ensures !r.Deleted? ==> View() == old(View())
      ensures r.Deleted? ==> hosts == old(hosts) - {id}
      ensures r.Deleted? ==> forall h, k :: Owns(View(), h, k) <==> Owns(old(View()), h, k) && h != id
    {
      var failed: bool;
      failed :| healthy ==> !failed;
      if failed { return DbFailed; }
      if id !in hosts { return NotFound; }
      ghost var t := View();
      hosts, rows := hosts - {id}, DropRowsOf(rows, id);
      DropHostOwns(t, View(), id);
      hide Owns;
      ShrinkKeepsOneOwner(t, View());
      return Deleted(applies);
    }

    /** Any run of requests, each of which may fail anywhere, leaves every domain with one owner at most. */
    method Serve(requests: seq<Request>, valid: string -> bool)
      requires Valid() && !valid("")
      modifies this
      ensures Valid()
    {
      for n := 0 to |requests|
        invariant Valid()
      {
        var healthy: bool := *;
        match requests[n] {
          case CreateHost(primary, extras, accepted) =>
            var _ := Create(primary, extras, valid, accepted, true, healthy);
          case UpdateHost(id, primary, extras, accepted, clears, authOk) =>
            var _ := Update(id, primary, extras, valid, accepted, clears, authOk, true, healthy);
          case DeleteHost(id) =>
            var _ := Delete(id, true, healthy);
        }
      }
    }
  }

  ghost predicate Stands(rows: map<nat, Row>, id: nat, d: string, n: int) {
    exists i :: i in rows && rows[i] == Row(id, d, n)
  }

  lemma StandsOwns(t: Tables, id: nat, domains: seq<string>, n: nat)
    requires n < |domains| && Stored(domains) && Stands(t.rows, id, domains[n], n)
    ensures Owns(t, id, domains[n])
  {
    var i :| i in t.rows && t.rows[i] == Row(id, domains[n], n);
    assert domains[n] in domains && RowOwns(t, i, id, domains[n]);
  }

  /** The first `n` names were unused, and are stored now. */
  ghost predicate Inserted(rows0: map<nat, Row>, rows: map<nat, Row>, id: nat, domains: seq<string>, n: nat)
    requires n <= |domains|
  {
    && (forall i | i in rows0 :: i in rows && rows[i] == rows0[i] && rows0[i].domain !in domains[..n])
    && (forall i | i in rows && i !in rows0 :: rows[i].domain in domains[..n])
    && forall m | 0 <= m < n :: Stands(rows, id, domains[m], m)
  }

  lemma InsertedNext(rows0: map<nat, Row>, rows: map<nat, Row>, id: nat, domains: seq<string>, n: nat, i: nat)
    requires n < |domains| && Distinct(domains) && Inserted(rows0, rows, id, domains, n) && i !in rows
    ensures (exists j :: j in rows && rows[j].domain == domains[n]) ==> !Unused(rows0, domains)
    ensures !(exists j :: j in rows && rows[j].domain == domains[n]) ==>
              Inserted(rows0, rows[i := Row(id, domains[n], n)], id, domains, n + 1)
  {
    assert domains[..n + 1] == domains[..n] + [domains[n]];
    if j :| j in rows && rows[j].domain == domains[n] {
      assert forall m | 0 <= m < n :: domains[..n][m] == domains[m] != domains[n];
      assert j in rows0;
    } else {
      var now := rows[i := Row(id, domains[n], n)];
      forall m | 0 <= m < n + 1 ensures Stands(now, id, domains[m], m) {
        if m < n {
          assert Stands(rows, id, domains[m], m);
          var k :| k in rows && rows[k] == Row(id, domains[m], m);
          assert now[k] == rows[k];
        } else {
          assert now[i] == Row(id, domains[m], m);
        }
      }
    }
  }

  lemma InsertedAll(rows0: map<nat, Row>, t: Tables, id: nat, domains: seq<string>)
    requires Inserted(rows0, t.rows, id, domains, |domains|) && Stored(domains)
    ensures Unused(rows0, domains)
    ensures forall n | 0 <= n < |domains| :: Owns(t, id, domains[n]) && Stands(t.rows, id, domains[n], n)
  {
    assert domains[..|domains|] == domains;
    forall n | 0 <= n < |domains| ensures Owns(t, id, domains[n]) { StandsOwns(t, id, domains, n); }
  }

  lemma NothingInserted(rows: map<nat, Row>, id: nat, domains: seq<string>)
    ensures Inserted(rows, rows, id, domains, 0)
  {
  }

  lemma NotTaken(t: Tables, self: Exempt, keys: set<string>, r: CheckReply, domains: seq<string>)
    requires Free(t, self, keys) && keys == LowerAll(domains)
    requires r.Taken? ==> r.domain in domains && exists h :: Owns(t, h, Lower(r.domain)) && self != Host(h)
    ensures !r.Taken?
  {
    assert forall d | d in domains :: Lower(d) in keys;
  }

  lemma NormalFirst(domains: seq<string>)
    requires Normal(domains)
    ensures |domains| > 0 && domains[0] in KeysOf(domains)
  {
    NormalKeys(domains);
    assert domains[0] in domains;
  }

  lemma ClaimExempts(t: Tables, u: Tables, id: nat, keys: set<string>)
    requires Claimed(t, u, Host(id), keys) && id in t.hosts
    ensures id in u.hosts
  {
  }

  /** A claim for host `id`, and then the deletion of its own additional domains. */
  ghost predicate ClaimedThenCleared(t: Tables, v: Tables, id: nat, keys: set<string>) {
    exists u :: Claimed(t, u, Host(id), keys) && v == u.(rows := DropRowsOf(u.rows, id))
  }

  lemma ClearedAfter(t: Tables, u: Tables, v: Tables, id: nat, keys: set<string>)
    requires Claimed(t, u, Host(id), keys) && v.hosts == u.hosts && v.rows == DropRowsOf(u.rows, id)
    ensures ClaimedThenCleared(t, v, id, keys)
  {
    hide Claimed, DropRowsOf;
    assert v == u.(rows := DropRowsOf(u.rows, id));
  }

  /** An update that is refused between its writes leaves the host with its old primary domain only, and the
      other hosts without what was claimed. */
  lemma RefusalClears(t: Tables, v: Tables, id: nat, keys: set<string>, h: nat, k: string)
    requires Sound(t) && id in t.hosts && ClaimedThenCleared(t, v, id, keys)
    ensures Owns(v, h, k) <==> if h == id then k == Lower(t.hosts[id]) else Owns(t, h, k) && k !in keys
  {
    var u :| Claimed(t, u, Host(id), keys) && v == u.(rows := DropRowsOf(u.rows, id));
    DropRowsOwns(u, v, id);
    ClaimMoves(t, u, Host(id), keys, h, k);
    assert Same(t, u, id);
    forall i ensures !RowOwns(v, i, id, k) {}
  }

  lemma NameOf(domains: seq<string>, n: nat)
    requires n < |domains| && Stored(domains)
    ensures domains[n] in LowerAll(domains) && Lower(domains[n]) == domains[n] && TrimSpace(domains[n]) == domains[n]
  {
    assert domains[n] in domains;
  }
}
