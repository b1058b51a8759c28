/**
 The leader lease of the coordinators (redis_store.py) and who works under it (monitor.py, main.py). Time is in
 microseconds; lifetimes and thresholds are in seconds, as Redis takes them.
 */
module NctLease {
  import opened Wrappers

  const SECOND: int := 1_000_000

  /** The key nct:leader: absent, or a holder until an instant. */
  datatype Lease = Free | Held(holder: string, expiry: int)

  /** GET at an instant. */
  function Holder(l: Lease, now: int): Option<string> {
    if l.Held? && now < l.expiry then Some(l.holder) else None
  }

  function Granted(id: string, ttl: int, now: int): Lease {
    Held(id, now + ttl * SECOND)
  }

  /** How the store is configured: the lifetime of an acquisition, the one renewals give, the threshold, and the
      whole seconds the TTL command answers for a lifetime in microseconds. */
  datatype Terms = Terms(ttl: int, renewal: int, deadThreshold: int, report: int -> int)

  /** try_acquire_leadership: SET NX. */
  function Tried(c: Terms, l: Lease, id: string, now: int): (Lease, bool) {
    if Holder(l, now).Some? then (l, false) else (Granted(id, c.ttl, now), true)
  }

  /** elect_acquire_leadership, as one step. */
  function Elected(c: Terms, l: Lease, id: string, now: int): (Lease, bool) {
    var current := Holder(l, now);
    if current.None? || current.value == id then (Granted(id, c.ttl, now), true)
    else
      var remaining := c.report(l.expiry - now);
      if 0 <= remaining <= c.deadThreshold then (Granted(id, c.ttl, now), true) else (l, false)
  }

  /** renew_leadership: the script extends the key only for its holder. */
  function Renewed(c: Terms, l: Lease, id: string, now: int): (Lease, bool) {
    if Holder(l, now) == Some(id) then (Granted(id, c.renewal, now), true) else (l, false)
  }

  // ---- a holder that keeps renewing ----

  datatype Attempt = Try(id: string, now: int) | Elect(id: string, now: int) | Renew(id: string, now: int)

  function Done(c: Terms, l: Lease, a: Attempt): (Lease, bool) {
    match a
    case Try(id, now) => Tried(c, l, id, now)
    case Elect(id, now) => Elected(c, l, id, now)
    case Renew(id, now) => Renewed(c, l, id, now)
  }

  function AfterAll(c: Terms, l: Lease, attempts: seq<Attempt>): Lease
    decreases |attempts|
  {
    if attempts == [] then l else AfterAll(c, Done(c, l, attempts[0]).0, attempts[1..])
  }

  /** The TTL answer is short of the true lifetime by at most slack: 0 if it is exact or rounds up, half a second if it
      rounds to the nearest second. */
  ghost predicate ShortBy(c: Terms, slack: int) {
    forall rem :: c.report(rem) * SECOND >= rem - slack
  }

  /** Every attempt of anyone comes sooner after the last acquisition or renewal of h than the lifetime it gave, less the
      threshold and the slack. */
  predicate KeepsUp(c: Terms, slack: int, h: string, refreshed: int, ttl: int, attempts: seq<Attempt>)
    decreases |attempts|
  {
    attempts != [] ==>
      var a := attempts[0];
      && refreshed <= a.now
      && a.now - refreshed < (ttl - c.deadThreshold) * SECOND - slack
      && (if a.id == h && a.Renew? then KeepsUp(c, slack, h, a.now, c.renewal, attempts[1..])
          else if a.id == h && a.Elect? then KeepsUp(c, slack, h, a.now, c.ttl, attempts[1..])
          else KeepsUp(c, slack, h, refreshed, ttl, attempts[1..]))
  }

  /** No attempt of another succeeds. */
  predicate OthersFail(c: Terms, l: Lease, h: string, attempts: seq<Attempt>)
    decreases |attempts|
  {
    attempts != [] ==>
      && (attempts[0].id != h ==> !Done(c, l, attempts[0]).1)
      && OthersFail(c, Done(c, l, attempts[0]).0, h, attempts[1..])
  }

  lemma OneAttempt(c: Terms, slack: int, h: string, refreshed: int, ttl: int, a: Attempt)
    requires slack >= 0 && c.deadThreshold >= 0 && ShortBy(c, slack)
    requires refreshed <= a.now && a.now - refreshed < (ttl - c.deadThreshold) * SECOND - slack
    ensures var (l, ok) := Done(c, Granted(h, ttl, refreshed), a);
      && (a.id != h ==> !ok && l == Granted(h, ttl, refreshed))
      && (a.id == h ==> l == (if a.Renew? then Granted(h, c.renewal, a.now) else if a.Elect? then Granted(h, c.ttl, a.now)
                              else Granted(h, ttl, refreshed)))
  {
    var rem := refreshed + ttl * SECOND - a.now;
    assert rem > c.deadThreshold * SECOND + slack;
    assert c.report(rem) * SECOND >= rem - slack;
  }

  /** A holder that renews in time is never displaced, whoever tries or holds elections, and whenever. */
  lemma {:induction false} PunctualHolderStays(c: Terms, slack: int, h: string, refreshed: int, ttl: int, attempts: seq<Attempt>)
    requires slack >= 0 && c.deadThreshold >= 0 && ShortBy(c, slack)
    requires KeepsUp(c, slack, h, refreshed, ttl, attempts)
    ensures var l := AfterAll(c, Granted(h, ttl, refreshed), attempts); l.Held? && l.holder == h
    ensures OthersFail(c, Granted(h, ttl, refreshed), h, attempts)
    decreases |attempts|
  {
    if attempts != [] {
      var a := attempts[0];
      OneAttempt(c, slack, h, refreshed, ttl, a);
      hide Done, ShortBy, Granted;
      if a.id == h && a.Renew? {
        PunctualHolderStays(c, slack, h, a.now, c.renewal, attempts[1..]);
      } else if a.id == h && a.Elect? {
        PunctualHolderStays(c, slack, h, a.now, c.ttl, attempts[1..]);
      } else {
        PunctualHolderStays(c, slack, h, refreshed, ttl, attempts[1..]);
      }
    }
  }

  /** An election takes a lease from a live holder exactly when the answered lifetime is down to the threshold. */
  lemma DisplacedIff(c: Terms, l: Lease, id: string, now: int)
    requires Holder(l, now).Some? && l.holder != id
    ensures Elected(c, l, id, now).1 <==> 0 <= c.report(l.expiry - now) <= c.deadThreshold
    ensures !Tried(c, l, id, now).1 && !Renewed(c, l, id, now).1
  {
  }

  // ---- elections whose GET and SET are apart ----

  /** The key and the nodes that believe they lead. */
  datatype Cluster = Cluster(lease: Lease, leaders: set<string>)

  datatype Act =
      /** The SET of an election decided on an older GET: it overwrites whoever is there. */
    | Seize(id: string, now: int)
      /** A leader renews; a refusal makes it step down. */
    | Keep(id: string, now: int)

  function Acted(c: Terms, k: Cluster, a: Act): Cluster {
    match a
    case Seize(id, now) => Cluster(Granted(id, c.ttl, now), k.leaders + {id})
    case Keep(id, now) =>
      if id !in k.leaders then k
      else
        var (l, ok) := Renewed(c, k.lease, id, now);
        Cluster(l, if ok then k.leaders else k.leaders - {id})
  }

  function ActedAll(c: Terms, k: Cluster, acts: seq<Act>): Cluster
    decreases |acts|
  {
    if acts == [] then k else ActedAll(c, Acted(c, k, acts[0]), acts[1..])
  }

  predicate OnlyKeeps(acts: seq<Act>) {
    forall i :: 0 <= i < |acts| ==> acts[i].Keep?
  }

  /** Who has renewed at least once. */
  function Renewers(acts: seq<Act>): set<string> {
    set i | 0 <= i < |acts| :: acts[i].id
  }

  /** The given leaders are at most the holder of the key. */
  predicate HolderAlone(k: Cluster, leaders: set<string>) {
    forall id :: id in leaders ==> k.lease.Held? && k.lease.holder == id
  }

  lemma KeptAlone(c: Terms, k: Cluster, id: string, now: int, done: set<string>)
    requires HolderAlone(k, k.leaders * done)
    ensures var next := Acted(c, k, Keep(id, now)); next.leaders <= k.leaders && HolderAlone(next, next.leaders * (done + {id}))
  {
    var next := Acted(c, k, Keep(id, now));
    forall other | other in next.leaders * (done + {id}) ensures next.lease.Held? && next.lease.holder == other {
      assert other in done ==> other in k.leaders * done;
    }
  }

  lemma {:induction false} OnlyTheHolderRemains(c: Terms, k: Cluster, acts: seq<Act>, done: set<string>)
    requires OnlyKeeps(acts) && k.leaders <= done + Renewers(acts)
    requires HolderAlone(k, k.leaders * done)
    ensures HolderAlone(ActedAll(c, k, acts), ActedAll(c, k, acts).leaders)
    decreases |acts|
  {
    if acts != [] {
      var id := acts[0].id;
      assert Renewers(acts) <= {id} + Renewers(acts[1..]) by {
        forall other | other in Renewers(acts) ensures other in {id} + Renewers(acts[1..]) {
          var i :| 0 <= i < |acts| && acts[i].id == other;
          assert i > 0 ==> acts[1..][i - 1] == acts[i];
        }
      }
      assert acts[0].Keep?;
      KeptAlone(c, k, id, acts[0].now, done);
      OnlyTheHolderRemains(c, Acted(c, k, acts[0]), acts[1..], done + {id});
    } else {
      assert Renewers(acts) == {};
      assert k.leaders * done == k.leaders;
    }
  }

  /** However many elections overlapped, once no more of them write and every node that believes it leads has renewed
      once, at most the holder of the key still leads. */
  lemma OverlappingElections(c: Terms, k: Cluster, acts: seq<Act>, keeps: seq<Act>)
    requires OnlyKeeps(keeps) && ActedAll(c, k, acts).leaders <= Renewers(keeps)
    ensures var end := ActedAll(c, ActedAll(c, k, acts), keeps); HolderAlone(end, end.leaders)
  {
    OnlyTheHolderRemains(c, ActedAll(c, k, acts), keeps, {});
  }

  // ---- the node ----

  /** The key in Redis. */
  class LeaderKey {
    const terms: Terms
    var lease: Lease

    constructor (terms: Terms)
      ensures this.terms == terms && lease == Free
    {
      this.terms := terms;
      lease := Free;
    }

    method TryAcquire(id: string, now: int) returns (ok: bool)
      modifies this
      ensures (lease, ok) == Tried(terms, old(lease), id, now)
    {
      if Holder(lease, now).Some? {
        return false;
      }
      lease := Granted(id, terms.ttl, now);
      return true;
    }

    method Elect(id: string, now: int) returns (ok: bool)
      modifies this
      ensures (lease, ok) == Elected(terms, old(lease), id, now)
    {
      var current := Holder(lease, now);
      if current.None? || current.value == id {
        lease := Granted(id, terms.ttl, now);
        return true;
      }
      var remaining := terms.report(lease.expiry - now);
      if remaining >= 0 && remaining <= terms.deadThreshold {
        lease := Granted(id, terms.ttl, now);
        return true;
      }
      return false;
    }

    method Renew(id: string, now: int) returns (ok: bool)
      modifies this
      ensures (lease, ok) == Renewed(terms, old(lease), id, now)
    {
      if Holder(lease, now) != Some(id) {
        return false;
      }
      lease := Granted(id, terms.renewal, now);
      return true;
    }
  }

  /** A process: its coordinator, its consumers of the work queues, and its monitor. */
  class NCTNode {
    const id: string
    const key: LeaderKey
    const heartbeatInterval: int
    const heartbeatTimeout: int

    /** NCTCoordinator.is_leader */
    var isLeader: bool
    /** Subscribed to propuestas and respuesta_nonce. */
    var consumesWork: bool
    var lastHeartbeatPub: int
    /** NCTHeartbeatMonitor._is_leader */
    var monitorLeads: bool
    var lastHeartbeat: int
    var electionInProgress: bool

    /** The node consumes the work queues iff it leads iff its monitor believes so. */
    ghost predicate Valid()
      reads this
    {
      consumesWork == isLeader == monitorLeads && !electionInProgress
    }

    /** main.py: a primary tries to take the key, and starts as a follower if it cannot. */
    constructor (id: string, key: LeaderKey, primary: bool, heartbeatInterval: int, heartbeatTimeout: int, now: int)
      modifies key
      ensures Valid() && this.id == id && this.key == key
      ensures isLeader <==> primary && Tried(key.terms, old(key.lease), id, now).1
      ensures key.lease == if primary then Tried(key.terms, old(key.lease), id, now).0 else old(key.lease)
      ensures lastHeartbeat == now
    {
      this.id := id;
      this.key := key;
      this.heartbeatInterval := heartbeatInterval;
      this.heartbeatTimeout := heartbeatTimeout;
      lastHeartbeatPub := 0;
      lastHeartbeat := now;
      electionInProgress := false;
      var acquired := false;
      if primary {
        acquired := key.TryAcquire(id, now);
      }
      isLeader := acquired;
      monitorLeads := acquired;
      consumesWork := acquired;
    }

    method HandleHeartbeat(now: int)
      requires Valid()
      modifies this`lastHeartbeat
      ensures Valid() && lastHeartbeat == now
    {
      lastHeartbeat := now;
    }

    /** become_leader, as far as queues go. */
    method BecomeLeader()
      modifies this`isLeader, this`consumesWork
      ensures isLeader && (old(isLeader) == old(consumesWork) ==> consumesWork)
    {
      if isLeader {
        return;
      }
      isLeader := true;
      consumesWork := true;
    }

    /** notify_stepdown */
    method NotifyStepdown(now: int)
      modifies this`monitorLeads, this`lastHeartbeat, this`electionInProgress
      ensures !monitorLeads && lastHeartbeat == now && !electionInProgress
    {
      monitorLeads := false;
      lastHeartbeat := now;
      electionInProgress := false;
    }

    /** step_down, with the monitor wired to it. */
    method StepDown(now: int)
      requires Valid()
      modifies this
      ensures Valid() && !isLeader && lastHeartbeatPub == old(lastHeartbeatPub)
      ensures lastHeartbeat == if old(isLeader) then now else old(lastHeartbeat)
    {
      if !isLeader {
        return;
      }
      isLeader := false;
      consumesWork := false;
      NotifyStepdown(now);
    }

    /** NCTHeartbeatMonitor.tick: a follower that has heard nothing for the timeout runs for the key, and leads exactly
        if it gets it. */
    method MonitorTick(now: int)
      requires Valid()
      modifies this, key
      ensures Valid() && lastHeartbeat == old(lastHeartbeat) && lastHeartbeatPub == old(lastHeartbeatPub)
      ensures var runs := !old(isLeader) && now - old(lastHeartbeat) >= heartbeatTimeout;
        var (l, won) := Elected(key.terms, old(key.lease), id, now);
        && isLeader == (old(isLeader) || (runs && won))
        && key.lease == (if runs then l else old(key.lease))
    {
      if monitorLeads || electionInProgress {
        return;
      }
      if now - lastHeartbeat < heartbeatTimeout {
        return;
      }
      electionInProgress := true;
      var won := key.Elect(id, now);
      if won {
        monitorLeads := true;
        BecomeLeader();
      }
      electionInProgress := false;
    }

    /** _maybe_publish_heartbeat: a leader that is due renews the key, and steps down exactly if it is not its own. */
    method MaybePublishHeartbeat(now: int) returns (published: bool)
      requires Valid()
      modifies this, key
      ensures Valid()
      ensures var due := old(isLeader) && heartbeatInterval > 0 && now - old(lastHeartbeatPub) >= heartbeatInterval;
        var (l, kept) := Renewed(key.terms, old(key.lease), id, now);
        && isLeader == (old(isLeader) && (due ==> kept))
        && published == (due && kept)
        && key.lease == (if due then l else old(key.lease))
        && lastHeartbeatPub == (if due then now else old(lastHeartbeatPub))
    {
      if !isLeader || heartbeatInterval <= 0 {
        return false;
      }
      if now - lastHeartbeatPub < heartbeatInterval {
        return false;
      }
      lastHeartbeatPub := now;
      var kept := key.Renew(id, now);
      if !kept {
        StepDown(now);
        return false;
      }
      return true;
    }
  }
}
