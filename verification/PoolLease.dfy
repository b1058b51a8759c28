/**
 The lease of a pool and the election of its coordinator (pool_coordinator/election.py and the leadership methods of
 pool_coordinator/coordinator.py). Time is in microseconds.
 */
module PoolLease {
  import opened Wrappers
  import opened Text

  const SECOND: int := 1_000_000

  const DESIGNATED: string := "designated"
  const ELECTED: string := "elected"
  const SEPARATOR: char := '|'

  predicate Known(rank: string) {
    rank == DESIGNATED || rank == ELECTED
  }

  // ---- the text of the lease ----

  function EncodeLease(holder: string, rank: string): string {
    rank + [SEPARATOR] + holder
  }

  /** decode_lease: (rank, holder). None is a key that does not exist; a text without a known rank is read as that of
      a designated holder. */
  function DecodeLease(raw: Option<string>): (string, string) {
    if raw.None? then (DESIGNATED, "")
    else
      var k := IndexFrom(raw.value, SEPARATOR, 0);
      if k == |raw.value| || !Known(raw.value[..k]) then (DESIGNATED, raw.value)
      else (raw.value[..k], raw.value[k + 1..])
  }

  /** The first separator of an encoded lease is the one after a rank that has none. */
  lemma {:induction false} FirstSeparator(rank: string, holder: string, i: nat)
    requires i <= |rank| && SEPARATOR !in rank
    ensures IndexFrom(EncodeLease(holder, rank), SEPARATOR, i) == |rank|
    decreases |rank| - i
  {
    var s := EncodeLease(holder, rank);
    if i < |rank| {
      assert s[i] == rank[i];
      FirstSeparator(rank, holder, i + 1);
    } else {
      assert s[i] == SEPARATOR;
    }
  }

  /** Decoding gives back rank and holder exactly for the two ranks there are, whatever the holder is called: it may
      contain the separator. */
  lemma DecodeInvertsEncode(holder: string, rank: string)
    ensures DecodeLease(Some(EncodeLease(holder, rank))) == (rank, holder) <==> Known(rank)
  {
    if Known(rank) {
      FirstSeparator(rank, holder, 0);
      var s := EncodeLease(holder, rank);
      assert s[..|rank|] == rank && s[|rank| + 1..] == holder;
    } else {
      var s := EncodeLease(holder, rank);
      assert |s| == |rank| + 1 + |holder|;
    }
  }

  function RankOrder(rank: string): int {
    if rank == ELECTED then 0 else 1
  }

  /** outranks: strictly higher; an unknown rank counts as designated. */
  predicate Outranks(rank: string, other: string) {
    RankOrder(rank) > RankOrder(other)
  }

  // ---- the election of one epoch ----

  /** Claims of a pool: who claimed an epoch, and until when the claim stands. */
  type Claims = map<int, (string, int)>

  /** int(clock() / epoch_duration), for a clock that is not negative. */
  function EpochOf(now: int, epochMicros: int): int
    requires epochMicros > 0
  {
    now / epochMicros
  }

  predicate Claimed(claims: Claims, epoch: int, now: int) {
    epoch in claims && now < claims[epoch].1
  }

  /** The end of run_pool_election: the epoch is looked at again and the claim is SET NX for three lease lifetimes. */
  function Claim(claims: Claims, id: string, epoch: int, now: int, ttl: int, epochMicros: int): (Claims, bool)
    requires epochMicros > 0
  {
    if EpochOf(now, epochMicros) != epoch || Claimed(claims, epoch, now) then (claims, false)
    else (claims[epoch := (id, now + 3 * ttl * SECOND)], true)
  }

  datatype Candidacy = Candidacy(id: string, epoch: int, now: int)

  /** The i-th candidate wins its epoch. */
  predicate Wins(claims: Claims, cs: seq<Candidacy>, i: nat, ttl: int, epochMicros: int)
    requires epochMicros > 0 && i < |cs|
    decreases i
  {
    var (next, won) := Claim(claims, cs[0].id, cs[0].epoch, cs[0].now, ttl, epochMicros);
    if i == 0 then won else Wins(next, cs[1..], i - 1, ttl, epochMicros)
  }

  predicate InOrder(cs: seq<Candidacy>) {
    forall i, j :: 0 <= i < j < |cs| ==> cs[i].now <= cs[j].now
  }

  lemma EpochEnds(t: int, now: int, epochMicros: int)
    requires epochMicros > 0 && EpochOf(t, epochMicros) == EpochOf(now, epochMicros)
    ensures now < t + epochMicros
  {
    var e := t / epochMicros;
    assert t == e * epochMicros + t % epochMicros && now == e * epochMicros + now % epochMicros;
  }

  /** A claim that outlives its epoch keeps everybody else from winning it. */
  lemma {:induction false} ClaimStands(claims: Claims, cs: seq<Candidacy>, j: nat, epoch: int, since: int, ttl: int, epochMicros: int)
    requires epochMicros > 0 && 3 * ttl * SECOND >= epochMicros && j < |cs| && cs[j].epoch == epoch && InOrder(cs)
    requires epoch in claims && EpochOf(since, epochMicros) == epoch && claims[epoch].1 >= since + 3 * ttl * SECOND
    ensures !Wins(claims, cs, j, ttl, epochMicros)
    decreases j
  {
    var c := cs[0];
    var next := Claim(claims, c.id, c.epoch, c.now, ttl, epochMicros).0;
    if EpochOf(c.now, epochMicros) == epoch {
      EpochEnds(since, c.now, epochMicros);
    }
    if j > 0 {
      assert forall a, b :: 0 <= a < b < |cs[1..]| ==> cs[1..][a].now == cs[a + 1].now && cs[1..][b].now == cs[b + 1].now;
      ClaimStands(next, cs[1..], j - 1, epoch, since, ttl, epochMicros);
    }
  }

  lemma {:induction false} OnceWon(claims: Claims, cs: seq<Candidacy>, i: nat, j: nat, ttl: int, epochMicros: int)
    requires epochMicros > 0 && 3 * ttl * SECOND >= epochMicros && i < j < |cs| && InOrder(cs)
    requires cs[i].epoch == cs[j].epoch && Wins(claims, cs, i, ttl, epochMicros)
    ensures !Wins(claims, cs, j, ttl, epochMicros)
    decreases i
  {
    var c := cs[0];
    var next := Claim(claims, c.id, c.epoch, c.now, ttl, epochMicros).0;
    assert forall a, b :: 0 <= a < b < |cs[1..]| ==> cs[1..][a].now == cs[a + 1].now && cs[1..][b].now == cs[b + 1].now;
    if i == 0 {
      ClaimStands(next, cs[1..], j - 1, c.epoch, c.now, ttl, epochMicros);
    } else {
      OnceWon(next, cs[1..], i - 1, j - 1, ttl, epochMicros);
    }
  }

  /** Two candidates, one at the start of an epoch and one when the first claim has just lapsed. */
  function LateRival(epoch: int, ttl: int, epochMicros: int): seq<Candidacy> {
    [Candidacy("a", epoch, epoch * epochMicros), Candidacy("b", epoch, epoch * epochMicros + 3 * ttl * SECOND)]
  }

  lemma SameEpoch(epoch: int, d: int, epochMicros: int)
    requires epochMicros > 0 && 0 <= d < epochMicros
    ensures EpochOf(epoch * epochMicros + d, epochMicros) == epoch
  {
    var n := epoch * epochMicros + d;
    var q, r := n / epochMicros, n % epochMicros;
    assert n == q * epochMicros + r;
    Quotient(epoch, q, d, r, epochMicros);
  }

  lemma {:induction false} AtLeastOnce(x: int, m: int)
    requires x >= 1 && m > 0
    ensures x * m >= m
    decreases x
  {
    if x > 1 {
      AtLeastOnce(x - 1, m);
      assert x * m == (x - 1) * m + m;
    }
  }

  lemma Quotient(a: int, q: int, d: int, r: int, m: int)
    requires m > 0 && 0 <= d < m && 0 <= r < m && a * m + d == q * m + r
    ensures a == q
  {
    assert a * m - q * m == (a - q) * m && q * m - a * m == (q - a) * m;
    if a > q {
      AtLeastOnce(a - q, m);
    } else if a < q {
      AtLeastOnce(q - a, m);
    }
  }

  lemma RivalWins(epoch: int, ttl: int, epochMicros: int)
    requires epochMicros > 0 && ttl > 0 && 3 * ttl * SECOND < epochMicros
    ensures var cs := LateRival(epoch, ttl, epochMicros);
      InOrder(cs) && Wins(map[], cs, 0, ttl, epochMicros) && Wins(map[], cs, 1, ttl, epochMicros)
  {
    var cs := LateRival(epoch, ttl, epochMicros);
    SameEpoch(epoch, 0, epochMicros);
    SameEpoch(epoch, 3 * ttl * SECOND, epochMicros);
    assert cs[1..][0] == cs[1];
  }

  ghost predicate OneWinnerPerEpoch(ttl: int, epochMicros: int)
    requires epochMicros > 0
  {
    forall claims: Claims, cs: seq<Candidacy>, i: nat, j: nat ::
      i < j < |cs| && InOrder(cs) && cs[i].epoch == cs[j].epoch && Wins(claims, cs, i, ttl, epochMicros)
      ==> !Wins(claims, cs, j, ttl, epochMicros)
  }

  /** At most one candidate wins an epoch, in every run of candidacies, exactly if the claim lives at least as long as an
      epoch. */
  lemma OneWinnerIff(ttl: int, epochMicros: int)
    requires epochMicros > 0 && ttl > 0
    ensures OneWinnerPerEpoch(ttl, epochMicros) <==> 3 * ttl * SECOND >= epochMicros
  {
    if 3 * ttl * SECOND >= epochMicros {
      forall claims: Claims, cs: seq<Candidacy>, i: nat, j: nat |
        i < j < |cs| && InOrder(cs) && cs[i].epoch == cs[j].epoch && Wins(claims, cs, i, ttl, epochMicros)
        ensures !Wins(claims, cs, j, ttl, epochMicros)
      {
        OnceWon(claims, cs, i, j, ttl, epochMicros);
      }
    } else {
      RivalWins(0, ttl, epochMicros);
      var cs := LateRival(0, ttl, epochMicros);
      assert Wins(map[], cs, 0, ttl, epochMicros) && Wins(map[], cs, 1, ttl, epochMicros) && cs[0].epoch == cs[1].epoch;
    }
  }

  // ---- who holds the lease ----

  datatype Lease = Free | Held(value: string, expiry: int)

  /** GET at an instant. */
  function Read(l: Lease, now: int): Option<string> {
    if l.Held? && now < l.expiry then Some(l.value) else None
  }

  /** One coordinator: the name it writes and its rank. An elected one never runs the election over Redis. */
  datatype Node = Node(instance: string, rank: string)

  function ValueOf(n: Node): string {
    EncodeLease(n.instance, n.rank)
  }

  function Grant(n: Node, ttl: int, now: int): Lease {
    Held(ValueOf(n), now + ttl * SECOND)
  }

  /** renew_leadership: renewed, or lost to the holder. */
  function Renewed(l: Lease, n: Node, ttl: int, now: int): (Lease, bool) {
    var current := Read(l, now);
    if current.None? then (Grant(n, ttl, now), true)
    else
      var (rank, holder) := DecodeLease(current);
      if holder == n.instance || Outranks(n.rank, rank) then (Grant(n, ttl, now), true) else (l, false)
  }

  /** try_acquire_leadership, with _try_outrank_holder behind a refused SET NX. */
  function Acquired(l: Lease, n: Node, ttl: int, now: int): (Lease, bool) {
    var current := Read(l, now);
    if current.None? then (Grant(n, ttl, now), true)
    else
      var (rank, holder) := DecodeLease(current);
      if holder == n.instance || !Outranks(n.rank, rank) then (l, false) else (Grant(n, ttl, now), true)
  }

  /** release_leadership by a node that leads. */
  function Released(l: Lease, n: Node, now: int): Lease {
    if DecodeLease(Read(l, now)).1 == n.instance then Free else l
  }

  datatype Move =
    | Renew(node: Node, now: int)
    | Acquire(node: Node, now: int)
    | Release(node: Node, now: int)
      /** A candidate that won its epoch writes the lease over whatever it holds. */
    | WinElection(node: Node, now: int)

  function Moved(l: Lease, m: Move, ttl: int): Lease {
    match m
    case Renew(n, now) => Renewed(l, n, ttl, now).0
    case Acquire(n, now) => Acquired(l, n, ttl, now).0
    case Release(n, now) => Released(l, n, now)
    case WinElection(n, now) => Grant(n, ttl, now)
  }

  function AfterMoves(l: Lease, moves: seq<Move>, ttl: int): Lease
    decreases |moves|
  {
    if moves == [] then l else AfterMoves(Moved(l, moves[0], ttl), moves[1..], ttl)
  }

  /** At an instant the lease is live and of a designated coordinator. */
  predicate DesignatedAt(l: Lease, now: int) {
    Read(l, now).Some? && DecodeLease(Read(l, now)).0 == DESIGNATED
  }

  /** Names are one per process; elected coordinators come from the election by messages, not from this one. */
  predicate Honest(m: Move, l: Lease) {
    && Known(m.node.rank)
    && (m.node.rank == ELECTED ==> !m.WinElection? && DecodeLease(Read(l, m.now)).1 != m.node.instance)
  }

  /** While a designated coordinator holds the lease no move of an elected one changes it, and the moves of designated ones
      leave it designated, or free when its own holder lets it go. */
  lemma DesignatedStays(l: Lease, m: Move, ttl: int)
    requires ttl > 0 && DesignatedAt(l, m.now) && Honest(m, l)
    ensures m.node.rank == ELECTED ==> Moved(l, m, ttl) == l
    ensures m.node.rank == ELECTED && m.Renew? ==> !Renewed(l, m.node, ttl, m.now).1
    ensures m.node.rank == DESIGNATED ==>
      || DesignatedAt(Moved(l, m, ttl), m.now)
      || (m.Release? && Moved(l, m, ttl) == Free && DecodeLease(Read(l, m.now)).1 == m.node.instance)
  {
    DecodeInvertsEncode(m.node.instance, m.node.rank);
    hide DecodeLease, EncodeLease;
  }

  /** Each move happens while the lease is still live, and none is a release: the lease neither lapses nor is let go. */
  predicate Unbroken(l: Lease, moves: seq<Move>, ttl: int)
    decreases |moves|
  {
    moves != [] ==>
      && Read(l, moves[0].now).Some? && Honest(moves[0], l) && (moves[0].Release? ==> moves[0].node.rank == ELECTED)
      && Unbroken(Moved(l, moves[0], ttl), moves[1..], ttl)
  }

  predicate IsDesignated(l: Lease) {
    l.Held? && DecodeLease(Some(l.value)).0 == DESIGNATED
  }

  /** A lease held by a designated coordinator is never in an elected one's hands until it lapses or is released. */
  lemma {:induction false} ElectedNeverTakes(l: Lease, moves: seq<Move>, ttl: int)
    requires ttl > 0 && IsDesignated(l) && Unbroken(l, moves, ttl)
    ensures IsDesignated(AfterMoves(l, moves, ttl))
    decreases |moves|
  {
    hide DecodeLease, Moved, Honest;
    if moves != [] {
      DesignatedKept(l, moves[0], ttl);
      ElectedNeverTakes(Moved(l, moves[0], ttl), moves[1..], ttl);
    }
  }

  lemma DesignatedKept(l: Lease, m: Move, ttl: int)
    requires ttl > 0 && IsDesignated(l) && Read(l, m.now).Some? && Honest(m, l) && (m.Release? ==> m.node.rank == ELECTED)
    ensures IsDesignated(Moved(l, m, ttl))
  {
    DesignatedStays(l, m, ttl);
    hide DecodeLease;
  }

  /** A designated coordinator gets its pool back from an elected one at its next renewal. */
  lemma DesignatedDisplaces(l: Lease, n: Node, ttl: int, now: int)
    requires n.rank == DESIGNATED && Read(l, now).Some? && DecodeLease(Read(l, now)).0 == ELECTED
    ensures Renewed(l, n, ttl, now) == (Grant(n, ttl, now), true)
    ensures DecodeLease(Some(Grant(n, ttl, now).value)) == (DESIGNATED, n.instance)
  {
    DecodeInvertsEncode(n.instance, n.rank);
    hide DecodeLease, EncodeLease;
  }

  // ---- the objects ----

  /** The key pool:leader:<pool_id>. */
  class LeaseKey {
    var lease: Lease

    constructor ()
      ensures lease == Free
    {
      lease := Free;
    }
  }

  /** The leadership of one PoolCoordinator that reaches Redis. */
  class Leadership {
    const node: Node
    const key: LeaseKey
    const ttl: int
    /** False where the election by messages already decided. */
    const electLeader: bool
    var isLeader: bool
    var standby: bool

    /** Who waits for another does not lead. */
    ghost predicate Valid()
      reads this
    {
      standby ==> !isLeader
    }

    constructor (node: Node, key: LeaseKey, ttl: int, electLeader: bool)
      ensures Valid() && this.node == node && this.key == key && this.ttl == ttl && this.electLeader == electLeader
      ensures isLeader == !electLeader && !standby
    {
      this.node := node;
      this.key := key;
      this.ttl := ttl;
      this.electLeader := electLeader;
      isLeader := !electLeader;
      standby := false;
    }

    method RenewLeadership(now: int) returns (ok: bool)
      requires Valid()
      modifies this, key
      ensures Valid() && (key.lease, ok) == Renewed(old(key.lease), node, ttl, now)
      ensures isLeader == (old(isLeader) && ok) && standby == (old(standby) || !ok)
    {
      var current := Read(key.lease, now);
      if current.None? {
        key.lease := Grant(node, ttl, now);
        return true;
      }
      var (rank, holder) := DecodeLease(current);
      if holder == node.instance {
        key.lease := Grant(node, ttl, now);
        return true;
      }
      if Outranks(node.rank, rank) {
        key.lease := Grant(node, ttl, now);
        return true;
      }
      isLeader := false;
      standby := true;
      return false;
    }

    method ReleaseLeadership(now: int)
      requires Valid()
      modifies this, key
      ensures Valid() && !isLeader && standby == old(standby)
      ensures key.lease == if old(isLeader) then Released(old(key.lease), node, now) else old(key.lease)
    {
      if !isLeader {
        return;
      }
      if DecodeLease(Read(key.lease, now)).1 == node.instance {
        key.lease := Free;
      }
      isLeader := false;
    }

    /** _maybe_start_election: a follower runs for the lease unless a holder of its rank or higher has it. */
    method MaybeStartElection(now: int) returns (runs: bool)
      requires Valid() && !isLeader
      modifies this`standby
      ensures Valid() && standby == !runs
      ensures var (rank, holder) := DecodeLease(Read(key.lease, now));
        runs <==> holder == "" || holder == node.instance || Outranks(node.rank, rank)
    {
      var (rank, holder) := DecodeLease(Read(key.lease, now));
      standby := holder != "" && holder != node.instance && !Outranks(node.rank, rank);
      return !standby;
    }

    /** tick, when the election thread has ended. */
    method CollectElection(won: bool)
      requires Valid()
      modifies this
      ensures Valid() && isLeader == (old(isLeader) || won) && standby == (old(standby) && !won)
    {
      if won {
        isLeader := true;
        standby := false;
      }
    }
  }
}
