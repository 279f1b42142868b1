/**
 * The client's routing-table cache: for each target, the host ids last fetched
 * from the matchmaker with the time of that fetch, and the round-robin queue of
 * host ids currently being handed out.
 *
 * The functions on `Cache` values specify one lookup each; the class
 * `RoutingTable` updates its two dictionaries in place and is proved to follow
 * them. A lookup receives the clock reading and the matchmaker's answer for it
 * as a `Lookup`; the answer is used only when the lookup fetches.
 */
module Routing {
  import opened Outcomes
  import opened Wire

  /** The id of a remote DEALER, used as the routing key of a request. */
  type Host = Bytes

  /** The hosts fetched for a target and the time they were fetched. */
  datatype Record = Record(hosts: seq<Host>, fetchedAt: int)

  /** The two dictionaries of the cache: fetched records and round-robin queues. */
  datatype Cache = Cache(records: map<Target, Record>, queues: map<Target, seq<Host>>)

  /** The clock reading at one lookup and what the matchmaker answers for the target then. */
  datatype Lookup = Lookup(now: int, discovered: seq<Host>)

  const EmptyCache := Cache(map[], map[])

  /** A target has a queue exactly when it has a record. */
  predicate Consistent(c: Cache) {
    c.records.Keys == c.queues.Keys
  }

  /** Whether a record fetched at `fetchedAt` is stale at `now` under time-to-live `ttl`. */
  function IsExpired(ttl: int, now: int, fetchedAt: int): (expired: bool)
    ensures ttl < 0 ==> !expired
    ensures ttl == 0 ==> (expired <==> fetchedAt <= now)
    ensures ttl > 0 ==> (expired <==> now - fetchedAt >= ttl)
  {
    0 <= ttl <= now - fetchedAt
  }

  /** Once stale, a record stays stale as the clock moves forward. */
  lemma ExpiryPersists(ttl: int, now: int, later: int, fetchedAt: int)
    requires IsExpired(ttl, now, fetchedAt) && now <= later
    ensures IsExpired(ttl, later, fetchedAt)
  {
  }

  /** Replaces the target's record by the matchmaker's answer, stamped with the clock. */
  function Fetch(c: Cache, t: Target, l: Lookup): (r: Cache)
    ensures r.queues == c.queues && r.records.Keys == c.records.Keys + {t}
    ensures r.records[t].hosts == l.discovered && r.records[t].fetchedAt == l.now
    ensures forall u :: u in c.records && u != t ==> r.records[u] == c.records[u]
  {
    c.(records := c.records[t := Record(l.discovered, l.now)])
  }

  /** Rebuilds the target's queue as a copy of the hosts of its current record. */
  function Renew(c: Cache, t: Target): (r: Cache)
    requires t in c.records
    ensures r.records == c.records && r.queues.Keys == c.queues.Keys + {t}
    ensures r.queues[t] == c.records[t].hosts
    ensures forall u :: u in c.queues && u != t ==> r.queues[u] == c.queues[u]
  {
    c.(queues := c.queues[t := c.records[t].hosts])
  }

  /**
   * The freshness step every lookup starts with: a missing record is fetched and
   * its queue built; a stale record is fetched again and its queue left alone.
   */
  function Update(c: Cache, ttl: int, t: Target, l: Lookup): (r: Cache)
    ensures t in r.records && r.records.Keys == c.records.Keys + {t}
    ensures Consistent(c) ==> Consistent(r)
    ensures forall u :: u in c.records && u != t ==> r.records[u] == c.records[u]
    ensures t !in c.records ==> r.records[t] == Record(l.discovered, l.now) && r.queues == c.queues[t := l.discovered]
    ensures t in c.records ==> r.queues == c.queues
    ensures t in c.records ==>
      r.records[t] == (if IsExpired(ttl, l.now, c.records[t].fetchedAt) then Record(l.discovered, l.now) else c.records[t])
  {
    if t !in c.records then Renew(Fetch(c, t, l), t)
    else if IsExpired(ttl, l.now, c.records[t].fetchedAt) then Fetch(c, t, l)
    else c
  }

  /**
   * A non-consuming read: the freshness step, then the target's queue as it stands.
   * Once a target is known, the answer is its queue, whatever the matchmaker says now.
   */
  function AllHosts(c: Cache, ttl: int, t: Target, l: Lookup): (r: (Cache, seq<Host>))
    requires Consistent(c)
    ensures r.0 == Update(c, ttl, t, l) && Consistent(r.0)
    ensures t in c.queues ==> r.1 == c.queues[t] && r.0.queues == c.queues
    ensures t !in c.queues ==> r.1 == l.discovered
  {
    var u := Update(c, ttl, t, l);
    (u, if t in u.queues then u.queues[t] else [])
  }

  /**
   * The round-robin read: the freshness step, then the head of the target's queue
   * is taken off; a queue left empty is rebuilt from the record current at that
   * moment. An empty queue yields no host and is left as it is.
   */
  function NextHost(c: Cache, ttl: int, t: Target, l: Lookup): (r: (Cache, Option<Host>))
    requires Consistent(c)
    ensures Consistent(r.0)
    ensures r.0.records == Update(c, ttl, t, l).records
    ensures forall u :: u in c.queues && u != t ==> u in r.0.queues && r.0.queues[u] == c.queues[u]
    ensures r.1.None? <==> Update(c, ttl, t, l).queues[t] == []
    ensures r.1.None? ==> r.0 == Update(c, ttl, t, l)
    ensures t in c.queues && c.queues[t] != [] ==> r.1 == Some(c.queues[t][0])
    ensures t in c.queues && |c.queues[t]| > 1 ==> r.0.queues[t] == c.queues[t][1..]
    ensures t in c.queues && |c.queues[t]| == 1 ==> r.0.queues[t] == r.0.records[t].hosts
    ensures t !in c.queues && l.discovered != [] ==> r.1 == Some(l.discovered[0])
    ensures t !in c.queues && |l.discovered| > 1 ==> r.0.queues[t] == l.discovered[1..]
    ensures t !in c.queues && |l.discovered| == 1 ==> r.0.queues[t] == l.discovered
  {
    var u := Update(c, ttl, t, l);
    var queue := u.queues[t];
    if queue == [] then (u, None)
    else
      var popped := u.(queues := u.queues[t := queue[1..]]);
      (if queue[1..] == [] then Renew(popped, t) else popped, Some(queue[0]))
  }

  /** A run of round-robin reads for one target, one per lookup, and the cache they leave. */
  function Rotation(c: Cache, ttl: int, t: Target, calls: seq<Lookup>): (r: (Cache, seq<Option<Host>>))
    requires Consistent(c)
    ensures Consistent(r.0) && |r.1| == |calls|
    ensures t in c.queues ==> t in r.0.queues
    decreases |calls|
  {
    if calls == [] then (c, [])
    else
      var step := NextHost(c, ttl, t, calls[0]);
      var rest := Rotation(step.0, ttl, t, calls[1..]);
      (rest.0, [step.1] + rest.1)
  }

  /**
   * A rotation in progress is never disturbed: whatever the clock and the
   * matchmaker say, the next reads return the queue's hosts in order, and the
   * read that empties it rebuilds it from the record current at that read.
   */
  lemma {:induction false} DrainUndisturbed(c: Cache, ttl: int, t: Target, calls: seq<Lookup>)
    requires Consistent(c) && t in c.queues && |calls| <= |c.queues[t]|
    ensures forall i :: 0 <= i < |calls| ==> Rotation(c, ttl, t, calls).1[i] == Some(c.queues[t][i])
    ensures |calls| < |c.queues[t]| ==> Rotation(c, ttl, t, calls).0.queues[t] == c.queues[t][|calls|..]
    ensures 0 < |calls| == |c.queues[t]| ==>
      var after := Rotation(c, ttl, t, calls).0; after.queues[t] == after.records[t].hosts
    decreases |calls|
  {
    if calls != [] {
      var queue := c.queues[t];
      var step := NextHost(c, ttl, t, calls[0]);
      var rest := calls[1..];
      if |queue| > 1 {
        DrainUndisturbed(step.0, ttl, t, rest);
        assert step.0.queues[t][|rest|..] == queue[|calls|..];
      } else {
        assert rest == [];
      }
    }
  }

  /** The matchmaker keeps answering `hosts` for every lookup, or records never expire. */
  predicate Steady(ttl: int, hosts: seq<Host>, calls: seq<Lookup>) {
    ttl < 0 || forall k :: 0 <= k < |calls| ==> calls[k].discovered == hosts
  }

  /**
   * With a steady host list, round-robin reads cycle through the fetched hosts in
   * fetch order, starting where the queue stands.
   */
  lemma {:induction false} RoundRobin(c: Cache, ttl: int, t: Target, calls: seq<Lookup>, hosts: seq<Host>, i: nat)
    requires Consistent(c) && t in c.records && c.records[t].hosts == hosts
    requires i < |hosts| && c.queues[t] == hosts[i..]
    requires Steady(ttl, hosts, calls)
    ensures forall j :: 0 <= j < |calls| ==> Rotation(c, ttl, t, calls).1[j] == Some(hosts[(i + j) % |hosts|])
    decreases |calls|
  {
    if calls != [] {
      var n := |hosts|;
      var next := if i + 1 == n then 0 else i + 1;
      var step := NextHost(c, ttl, t, calls[0]);
      SteadyStep(c, ttl, t, calls[0], hosts, i);
      var rest := calls[1..];
      assert Steady(ttl, hosts, rest) by {
        if ttl >= 0 {
          forall k | 0 <= k < |rest| ensures rest[k].discovered == hosts {
            assert rest[k] == calls[k + 1];
          }
        }
      }
      RoundRobin(step.0, ttl, t, rest, hosts, next);
      var tail := Rotation(step.0, ttl, t, rest).1;
      assert Rotation(c, ttl, t, calls).1 == [step.1] + tail;
      CursorShift(hosts, i, tail);
    }
  }

  /** Prefixing the host at cursor `i` to a cycle read from the next cursor gives a cycle read from `i`. */
  lemma CursorShift(hosts: seq<Host>, i: nat, tail: seq<Option<Host>>)
    requires i < |hosts|
    requires forall j :: 0 <= j < |tail| ==> tail[j] == Some(hosts[((if i + 1 == |hosts| then 0 else i + 1) + j) % |hosts|])
    ensures forall j :: 0 <= j < |tail| + 1 ==> ([Some(hosts[i])] + tail)[j] == Some(hosts[(i + j) % |hosts|])
  {
    var n := |hosts|;
    forall j | 0 <= j < |tail| + 1 ensures ([Some(hosts[i])] + tail)[j] == Some(hosts[(i + j) % n]) {
      if j == 0 {
        ModUnique(i, n, 0, i);
      } else {
        WrapStep(i, j, n);
      }
    }
  }

  /** One read of a steady rotation hands out the host at the cursor and moves the cursor on. */
  lemma SteadyStep(c: Cache, ttl: int, t: Target, l: Lookup, hosts: seq<Host>, i: nat)
    requires Consistent(c) && t in c.records && c.records[t].hosts == hosts
    requires i < |hosts| && c.queues[t] == hosts[i..]
    requires ttl < 0 || l.discovered == hosts
    ensures var step := NextHost(c, ttl, t, l);
      && step.1 == Some(hosts[i])
      && t in step.0.records && step.0.records[t].hosts == hosts
      && step.0.queues[t] == hosts[if i + 1 == |hosts| then 0 else i + 1..]
  {
    var step := NextHost(c, ttl, t, l);
    assert Update(c, ttl, t, l).records[t].hosts == hosts;
    if i + 1 == |hosts| {
      assert hosts[0..] == hosts;
    } else {
      assert hosts[i..][1..] == hosts[i + 1..];
    }
  }

  /** Moving the cursor one place, with wrap-around, then `j - 1` more is moving it `j` places. */
  lemma WrapStep(i: nat, j: nat, n: nat)
    requires i < n && 0 < j
    ensures ((if i + 1 == n then 0 else i + 1) + (j - 1)) % n == (i + j) % n
  {
    if i + 1 == n {
      ModShift(j - 1, n);
      assert (j - 1) + n == i + j;
    }
  }

  /** Adding the modulus does not change the remainder. */
  lemma ModShift(a: int, n: int)
    requires n > 0
    ensures (a + n) % n == a % n
  {
    var q, r := a / n, a % n;
    assert a + n == (q + 1) * n + r;
    ModUnique(a + n, n, q + 1, r);
  }

  /** A remainder is determined by any division identity with a remainder in range. */
  lemma ModUnique(x: int, n: int, q: int, r: int)
    requires n > 0 && x == q * n + r && 0 <= r < n
    ensures x % n == r
  {
    var q', r' := x / n, x % n;
    assert (q - q') * n == r' - r;
    if q - q' >= 1 {
      assert false;
    } else if q' - q >= 1 {
      assert false;
    }
  }

  /**
   * From a target not yet cached, with a steady non-empty host list, read j returns
   * host j mod N of the list fetched by the first read.
   */
  lemma FirstReadsCycle(c: Cache, ttl: int, t: Target, calls: seq<Lookup>, hosts: seq<Host>)
    requires Consistent(c) && t !in c.records
    requires hosts != [] && calls != [] && calls[0].discovered == hosts
    requires Steady(ttl, hosts, calls)
    ensures forall j :: 0 <= j < |calls| ==> Rotation(c, ttl, t, calls).1[j] == Some(hosts[j % |hosts|])
  {
    var n := |hosts|;
    var step := NextHost(c, ttl, t, calls[0]);
    var next := if n == 1 then 0 else 1;
    assert step.0.records[t].hosts == hosts;
    assert step.0.queues[t] == hosts[next..];
    var rest := calls[1..];
    assert Steady(ttl, hosts, rest) by {
      if ttl >= 0 {
        forall k | 0 <= k < |rest| ensures rest[k].discovered == hosts {
          assert rest[k] == calls[k + 1];
        }
      }
    }
    RoundRobin(step.0, ttl, t, rest, hosts, next);
    var tail := Rotation(step.0, ttl, t, rest).1;
    assert Rotation(c, ttl, t, calls).1 == [step.1] + tail;
    CursorShift(hosts, 0, tail);
    forall j | 0 <= j < |calls| ensures (0 + j) % n == j % n { }
  }

  /**
   * An empty queue stays empty: the freshness step never rebuilds the queue of a
   * cached target, and only a read that hands out a host rebuilds it, so every
   * later read fails whatever the matchmaker answers.
   */
  lemma {:induction false} EmptyQueueSticks(c: Cache, ttl: int, t: Target, calls: seq<Lookup>)
    requires Consistent(c) && t in c.queues && c.queues[t] == []
    ensures forall j :: 0 <= j < |calls| ==> Rotation(c, ttl, t, calls).1[j] == None
    ensures Rotation(c, ttl, t, calls).0.queues[t] == []
    decreases |calls|
  {
    if calls != [] {
      var step := NextHost(c, ttl, t, calls[0]);
      assert step.1 == None && step.0.queues[t] == [];
      EmptyQueueSticks(step.0, ttl, t, calls[1..]);
    }
  }

  /** A first fetch of no hosts, then `[A]`: both reads fail. */
  lemma EmptyFirstFetchScenario(t: Target)
    ensures Rotation(EmptyCache, 0, t, [Lookup(0, []), Lookup(1, [HostA])]).1 == [None, None]
  {
    var calls := [Lookup(0, []), Lookup(1, [HostA])];
    var s1 := NextHost(EmptyCache, 0, t, calls[0]);
    assert s1.1 == None && s1.0.queues[t] == [];
    EmptyQueueSticks(s1.0, 0, t, calls[1..]);
  }

  /** A fan-out read never consumes: the same lookup made twice answers the same. */
  lemma AllHostsIdempotent(c: Cache, ttl: int, t: Target, l: Lookup)
    requires Consistent(c) && t in c.queues && !IsExpired(ttl, l.now, c.records[t].fetchedAt)
    ensures AllHosts(c, ttl, t, l).0 == c
    ensures AllHosts(AllHosts(c, ttl, t, l).0, ttl, t, l) == AllHosts(c, ttl, t, l)
  {
  }

  /** A run of fan-out reads for one target, one per lookup, and the cache they leave. */
  function Snapshots(c: Cache, ttl: int, t: Target, calls: seq<Lookup>): (r: (Cache, seq<seq<Host>>))
    requires Consistent(c)
    ensures Consistent(r.0) && |r.1| == |calls|
    decreases |calls|
  {
    if calls == [] then (c, [])
    else
      var step := AllHosts(c, ttl, t, calls[0]);
      var rest := Snapshots(step.0, ttl, t, calls[1..]);
      (rest.0, [step.1] + rest.1)
  }

  /** Fan-out reads of a cached target all answer its queue and leave the queues as they were. */
  lemma {:induction false} SnapshotsKeepQueue(c: Cache, ttl: int, t: Target, calls: seq<Lookup>)
    requires Consistent(c) && t in c.queues
    ensures Snapshots(c, ttl, t, calls).0.queues == c.queues
    ensures forall j :: 0 <= j < |calls| ==> Snapshots(c, ttl, t, calls).1[j] == c.queues[t]
    decreases |calls|
  {
    if calls != [] {
      SnapshotsKeepQueue(AllHosts(c, ttl, t, calls[0]).0, ttl, t, calls[1..]);
    }
  }

  /**
   * When only fan-out reads are made, the queue is never rebuilt after the first
   * fetch, so every read answers the hosts of that first fetch.
   */
  lemma SnapshotFixedAtFirstFetch(ttl: int, t: Target, calls: seq<Lookup>)
    requires calls != []
    ensures forall j :: 0 <= j < |calls| ==> Snapshots(EmptyCache, ttl, t, calls).1[j] == calls[0].discovered
  {
    var step := AllHosts(EmptyCache, ttl, t, calls[0]);
    SnapshotsKeepQueue(step.0, ttl, t, calls[1..]);
  }

  const HostA: Host := [65]
  const HostB: Host := [66]
  const HostC: Host := [67]

  /** Hosts `[A, B, C]` fetched on the first read: four reads give A, B, C, A. */
  lemma ThreeHostsScenario(ttl: int, t: Target, l: Lookup)
    requires l.discovered == [HostA, HostB, HostC]
    ensures Rotation(EmptyCache, ttl, t, [l, l, l, l]).1 == [Some(HostA), Some(HostB), Some(HostC), Some(HostA)]
  {
    var hosts := l.discovered;
    var first := NextHost(EmptyCache, ttl, t, l);
    assert first.1 == Some(HostA);
    assert first.0.queues[t] == hosts[1..];
    var rest := [l, l, l];
    RoundRobin(first.0, ttl, t, rest, hosts, 1);
    var r := Rotation(first.0, ttl, t, rest).1;
    assert r[0] == Some(hosts[1 % 3]) && r[1] == Some(hosts[2 % 3]) && r[2] == Some(hosts[3 % 3]);
    assert [l, l, l, l][1..] == rest;
  }

  /**
   * Time-to-live 0: `[A, B]` is fetched, then the matchmaker answers `[C]`. The
   * refresh at the second read does not disturb the rotation: B still comes next,
   * and C is seen only once the queue has been used up.
   */
  lemma RefreshWaitsForDrain(t: Target)
    ensures Rotation(EmptyCache, 0, t, [Lookup(0, [HostA, HostB]), Lookup(1, [HostC]), Lookup(2, [HostC])]).1
            == [Some(HostA), Some(HostB), Some(HostC)]
  {
    var calls := [Lookup(0, [HostA, HostB]), Lookup(1, [HostC]), Lookup(2, [HostC])];
    var s1 := NextHost(EmptyCache, 0, t, calls[0]);
    assert s1.1 == Some(HostA) && s1.0.queues[t] == [HostB];
    var s2 := NextHost(s1.0, 0, t, calls[1]);
    assert s2.1 == Some(HostB) && s2.0.queues[t] == [HostC];
    var s3 := NextHost(s2.0, 0, t, calls[2]);
    assert s3.1 == Some(HostC);
    assert calls[1..][1..] == [calls[2]];
    assert Rotation(s2.0, 0, t, [calls[2]]).1 == [Some(HostC)];
    assert Rotation(s1.0, 0, t, calls[1..]).1 == [Some(HostB), Some(HostC)];
  }

  /** The routing table of one publisher, updated in place by its lookups. */
  class RoutingTable {
    const ttl: int
    var routingTable: map<Target, Record>
    var routableHosts: map<Target, seq<Host>>

    function State(): Cache
      reads this
    {
      Cache(routingTable, routableHosts)
    }

    ghost predicate Valid()
      reads this
    {
      Consistent(State())
    }

    constructor (ttl: int)
      ensures this.ttl == ttl && State() == EmptyCache && Valid()
    {
      this.ttl := ttl;
      routingTable := map[];
      routableHosts := map[];
    }

    /** A copy of the target's current queue, after the freshness step. */
    method GetAllHosts(target: Target, l: Lookup) returns (hosts: seq<Host>)
      requires Valid()
      modifies this
      ensures Valid()
      ensures (State(), hosts) == AllHosts(old(State()), ttl, target, l)
    {
      UpdateRoutingTable(target, l);
      hosts := if target in routableHosts then routableHosts[target] else [];
    }

    /** The next host of the target's rotation; `None` when the queue is empty. */
    method GetRoutableHost(target: Target, l: Lookup) returns (host: Option<Host>)
      requires Valid()
      modifies this
      ensures Valid()
      ensures (State(), host) == NextHost(old(State()), ttl, target, l)
    {
      UpdateRoutingTable(target, l);
      var hostsForTarget := routableHosts[target];
      if hostsForTarget == [] {
        host := None;
        return;
      }
      host := Some(hostsForTarget[0]);
      routableHosts := routableHosts[target := hostsForTarget[1..]];
      if routableHosts[target] == [] {
        RenewRoutableHosts(target);
      }
    }

    method UpdateRoutingTable(target: Target, l: Lookup)
      modifies this
      ensures State() == Update(old(State()), ttl, target, l)
    {
      if target !in routingTable {
        FetchHosts(target, l);
        RenewRoutableHosts(target);
      } else if IsExpired(ttl, l.now, routingTable[target].fetchedAt) {
        FetchHosts(target, l);
      }
    }

    method FetchHosts(target: Target, l: Lookup)
      modifies this
      ensures State() == Fetch(old(State()), target, l)
    {
      routingTable := routingTable[target := Record(l.discovered, l.now)];
    }

    method RenewRoutableHosts(target: Target)
      requires target in routingTable
      modifies this
      ensures State() == Renew(old(State()), target)
    {
      routableHosts := routableHosts[target := routingTable[target].hosts];
    }
  }
}
