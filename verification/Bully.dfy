/** The election of a pool coordinator by messages (worker_pkg/bully.py). Time is in microseconds. */
module Bully {
  import opened Wrappers
  import opened Platform
  import opened Text
  import opened Challenge

  const LEADER_TIMEOUT: int := 12_000_000
  const HEARTBEAT_INTERVAL: int := 5_000_000

  datatype Role = Candidate | Coordinator | Miner

  datatype Message =
    | Claim(author: string, address: string, seed: string, nonce: int, nZeros: int)
    | Heartbeat(author: string, address: string)

  /** _verify_claim */
  predicate VerifyClaim(p: Platform, m: Message)
    requires m.Claim?
  {
    m.seed != "" && m.nonce >= 0 && VerifyNonce(p, m.seed, m.nonce, m.nZeros)
  }

  /** The fields of one node that messages change. */
  datatype Node = Node(role: Role, leader: string, leaderAddress: string, lastHeartbeat: int, pending: Option<Message>)

  const NEW: Node := Node(Candidate, "", "", 0, None)

  /** _handle_message */
  function Heard(p: Platform, id: string, address: string, n: Node, m: Message, now: int): Node {
    match m
    case Heartbeat(author, where) =>
      if author == id then n
      else
        var seen := n.(lastHeartbeat := now, pending := None);
        if n.role == Candidate then seen.(role := Miner, leader := author, leaderAddress := where) else seen
    case Claim(author, where, _, _, _) =>
      if author == id then
        if n.role == Candidate then n.(role := Coordinator, leader := id, leaderAddress := address) else n
      else if n.role == Candidate && VerifyClaim(p, m) then
        Node(Miner, author, where, now, None)
      else n
  }

  // ---- the object ----

  class PoolBully {
    const p: Platform
    const id: string
    const address: string

    var state: Role
    var leaderId: string
    var leaderAddress: string
    var lastHeartbeat: int
    var lastHbSent: int
    var electionInProgress: bool
    var pendingClaim: Option<Message>
    /** What it has published. */
    var published: seq<Message>

    function NodeOf(): Node
      reads this
    {
      Node(state, leaderId, leaderAddress, lastHeartbeat, pendingClaim)
    }

    constructor (p: Platform, id: string, address: string)
      ensures this.p == p && this.id == id && this.address == address
      ensures NodeOf() == NEW && published == [] && !electionInProgress
    {
      this.p := p;
      this.id := id;
      this.address := address;
      state := Candidate;
      leaderId, leaderAddress := "", "";
      lastHeartbeat, lastHbSent := 0, 0;
      electionInProgress := false;
      pendingClaim := None;
      published := [];
    }

    method TransitionTo(role: Role)
      modifies this
      ensures published == old(published) && electionInProgress == old(electionInProgress)
      ensures NodeOf() == if role == old(state) then old(NodeOf()) else
        match role
        case Coordinator => old(NodeOf()).(role := role, leader := id, leaderAddress := address)
        case Miner => old(NodeOf()).(role := role)
        case Candidate => old(NodeOf()).(role := role, leader := "", leaderAddress := "", lastHeartbeat := 0)
    {
      if role == state {
        return;
      }
      state := role;
      match role
      case Coordinator =>
        leaderId := id;
        leaderAddress := address;
        lastHbSent := 0;
      case Miner =>
      case Candidate =>
        leaderId := "";
        leaderAddress := "";
        lastHeartbeat := 0;
    }

    method BecomeMiner(leader: string, where: string)
      modifies this
      ensures NodeOf() == old(NodeOf()).(role := Miner, leader := leader, leaderAddress := where)
      ensures published == old(published) && electionInProgress == old(electionInProgress)
    {
      leaderId := leader;
      leaderAddress := where;
      TransitionTo(Miner);
    }

    method HandleMessage(m: Message, now: int)
      modifies this
      ensures NodeOf() == Heard(p, id, address, old(NodeOf()), m, now) && published == old(published)
    {
      match m
      case Heartbeat(author, where) =>
        if author == id {
          return;
        }
        lastHeartbeat := now;
        pendingClaim := None;
        if state == Candidate {
          BecomeMiner(author, where);
        }
      case Claim(author, where, _, _, _) =>
        if author == id {
          if state == Candidate {
            TransitionTo(Coordinator);
          }
          return;
        }
        if state == Candidate && VerifyClaim(p, m) {
          lastHeartbeat := now;
          pendingClaim := None;
          BecomeMiner(author, where);
        }
    }

    /** The end of _solve_pow: the mini challenge of the pool and epoch is solved by search, and what is found verifies. */
    method SolvePow(poolId: string, epoch: nat, nZeros: nat, maxIter: nat)
      requires poolId != ""
      modifies this
      ensures NodeOf() == old(NodeOf()).(pending := pendingClaim) && published == old(published)
      ensures pendingClaim == old(pendingClaim) || (pendingClaim.Some? && pendingClaim.value.Claim?
        && pendingClaim.value.author == id && VerifyClaim(p, pendingClaim.value))
    {
      var seed := poolId + ":" + Decimal(epoch);
      var nonce := SolveMiniChallenge(p, seed, nZeros, maxIter);
      if nonce.Some? {
        pendingClaim := Some(Claim(id, address, seed, nonce.value, nZeros));
      }
    }

    /** One tick. starts says that the search for a new claim begins. */
    method Tick(now: int) returns (starts: bool)
      modifies this
      ensures old(state) == Candidate && old(pendingClaim).Some? ==>
        published == old(published) + [old(pendingClaim).value] && NodeOf() == old(NodeOf()).(pending := None) && !starts
      ensures starts ==> old(state) == Candidate && old(pendingClaim).None? && now - old(lastHeartbeat) >= LEADER_TIMEOUT
      ensures old(state) == Candidate && old(pendingClaim).None? ==> published == old(published) && NodeOf() == old(NodeOf())
      ensures old(state) == Coordinator ==> NodeOf() == old(NodeOf())
      ensures old(state) == Coordinator ==>
        published == old(published) + if now - old(lastHbSent) >= HEARTBEAT_INTERVAL then [Heartbeat(id, address)] else []
      ensures old(state) == Miner ==> published == old(published)
      ensures old(state) == Miner ==> (state == Candidate <==> now - old(lastHeartbeat) >= 2 * LEADER_TIMEOUT)
      ensures old(state) == Miner && state != Candidate ==> NodeOf() == old(NodeOf())
    {
      starts := false;
      match state
      case Candidate =>
        if pendingClaim.Some? {
          published := published + [pendingClaim.value];
          pendingClaim := None;
          electionInProgress := false;
        } else if now - lastHeartbeat >= LEADER_TIMEOUT && !electionInProgress {
          electionInProgress := true;
          starts := true;
        }
      case Coordinator =>
        if now - lastHbSent >= HEARTBEAT_INTERVAL {
          published := published + [Heartbeat(id, address)];
          lastHbSent := now;
        }
      case Miner =>
        if now - lastHeartbeat >= 2 * LEADER_TIMEOUT {
          TransitionTo(Candidate);
        }
    }
  }

  // ---- one pool ----

  /** A node and how much of the common broadcast it has processed. */
  datatype Member = Member(node: Node, address: string, seen: nat)

  datatype Pool = Pool(log: seq<Message>, members: map<string, Member>)

  datatype Move =
      /** the search ends with a claim */
    | Solved(id: string, claim: Message)
      /** a candidate publishes its claim */
    | Publish(id: string)
      /** a coordinator publishes a heartbeat */
    | Beat(id: string)
      /** a node processes the next message of the broadcast */
    | Deliver(id: string, now: int)
      /** somebody outside publishes a claim that does not verify */
    | Stray(claim: Message)

  predicate Possible(p: Platform, pool: Pool, move: Move) {
    match move
    case Solved(id, claim) => id in pool.members && claim.Claim? && claim.author == id && VerifyClaim(p, claim)
    case Publish(id) => id in pool.members && pool.members[id].node.role == Candidate && pool.members[id].node.pending.Some?
    case Beat(id) => id in pool.members && pool.members[id].node.role == Coordinator
    case Deliver(id, _) => id in pool.members && pool.members[id].seen < |pool.log|
    case Stray(claim) => claim.Claim? && claim.author !in pool.members && !VerifyClaim(p, claim)
  }

  function Next(p: Platform, pool: Pool, move: Move): Pool
    requires Possible(p, pool, move)
  {
    match move
    case Solved(id, claim) =>
      var m := pool.members[id];
      pool.(members := pool.members[id := m.(node := m.node.(pending := Some(claim)))])
    case Publish(id) =>
      var m := pool.members[id];
      Pool(pool.log + [m.node.pending.value], pool.members[id := m.(node := m.node.(pending := None))])
    case Beat(id) => pool.(log := pool.log + [Heartbeat(id, pool.members[id].address)])
    case Deliver(id, now) =>
      var m := pool.members[id];
      pool.(members := pool.members[id := m.(node := Heard(p, id, m.address, m.node, pool.log[m.seen], now), seen := m.seen + 1)])
    case Stray(claim) => pool.(log := pool.log + [claim])
  }

  /** A message that counts: a claim that verifies, or a heartbeat. */
  predicate Counts(p: Platform, m: Message) {
    m.Claim? ==> VerifyClaim(p, m)
  }

  /** The author of the first message that counts. */
  function FirstAuthor(p: Platform, log: seq<Message>): Option<string> {
    if log == [] then None
    else
      var before := FirstAuthor(p, log[..|log| - 1]);
      if before.Some? then before
      else if Counts(p, log[|log| - 1]) then Some(log[|log| - 1].author)
      else None
  }

  lemma FirstAuthorAppended(p: Platform, log: seq<Message>, m: Message)
    ensures FirstAuthor(p, log + [m]) ==
      if FirstAuthor(p, log).Some? then FirstAuthor(p, log) else if Counts(p, m) then Some(m.author) else None
  {
    assert (log + [m])[..|log|] == log;
  }

  lemma {:induction false} FirstAuthorStays(p: Platform, log: seq<Message>, k: nat)
    requires k <= |log| && FirstAuthor(p, log[..k]).Some?
    ensures FirstAuthor(p, log) == FirstAuthor(p, log[..k])
    decreases |log|
  {
    if k < |log| {
      assert log[..|log| - 1][..k] == log[..k];
      FirstAuthorStays(p, log[..|log| - 1], k);
    } else {
      assert log[..k] == log;
    }
  }

  /** What is in the broadcast: claims of members verify, others do not, and only the first author sends heartbeats. */
  predicate LogOk(p: Platform, pool: Pool) {
    forall i :: 0 <= i < |pool.log| ==>
      var m := pool.log[i];
      if m.Heartbeat? then FirstAuthor(p, pool.log[..i]) == Some(m.author)
      else (m.author in pool.members <==> VerifyClaim(p, m))
  }

  /** What a node that has processed messages with this first author must be. */
  predicate Decided(id: string, n: Node, first: Option<string>) {
    match first
    case None => n.role == Candidate
    case Some(a) => n.leader == a && n.role == if a == id then Coordinator else Miner
  }

  lemma HeardDecides(p: Platform, id: string, address: string, n: Node, m: Message, now: int, first: Option<string>)
    requires Decided(id, n, first)
    requires m.Heartbeat? ==> first == Some(m.author)
    requires m.Claim? && m.author == id ==> VerifyClaim(p, m)
    ensures var after := Heard(p, id, address, n, m, now);
      && Decided(id, after, if first.Some? then first else if Counts(p, m) then Some(m.author) else None)
      && (after.pending.None? || after.pending == n.pending)
  {
    hide VerifyClaim;
  }

  /** Where a member stands, given the part of the broadcast it has processed. */
  predicate Stands(p: Platform, pool: Pool, id: string, m: Member) {
    && m.seen <= |pool.log|
    && (m.node.pending.Some? ==> m.node.pending.value.Claim? && m.node.pending.value.author == id && VerifyClaim(p, m.node.pending.value))
    && Decided(id, m.node, FirstAuthor(p, pool.log[..m.seen]))
  }

  predicate Agreed(p: Platform, pool: Pool) {
    LogOk(p, pool) && forall id :: id in pool.members ==> Stands(p, pool, id, pool.members[id])
  }

  /** A longer broadcast changes nothing about what has been processed. */
  lemma Longer(p: Platform, pool: Pool, m: Message, members: map<string, Member>)
    requires Agreed(p, pool) && members.Keys == pool.members.Keys
    requires if m.Heartbeat? then FirstAuthor(p, pool.log) == Some(m.author) else (m.author in pool.members <==> VerifyClaim(p, m))
    requires forall id :: id in members ==>
      members[id].seen == pool.members[id].seen && members[id].node == pool.members[id].node.(pending := members[id].node.pending)
      && (members[id].node.pending.None? || members[id].node.pending == pool.members[id].node.pending)
    ensures Agreed(p, Pool(pool.log + [m], members))
  {
    hide FirstAuthor, VerifyClaim;
    var next := Pool(pool.log + [m], members);
    forall i | 0 <= i < |next.log|
      ensures var msg := next.log[i];
        if msg.Heartbeat? then FirstAuthor(p, next.log[..i]) == Some(msg.author)
        else (msg.author in next.members <==> VerifyClaim(p, msg))
    {
      assert next.log[..i] == pool.log[..i];
      assert i == |pool.log| ==> pool.log[..i] == pool.log;
    }
    forall id | id in next.members ensures Stands(p, next, id, next.members[id]) {
      assert Stands(p, pool, id, pool.members[id]);
      assert next.log[..members[id].seen] == pool.log[..members[id].seen];
    }
  }

  /** One message, seen from one member. */
  lemma DeliverStands(p: Platform, pool: Pool, id: string, now: int)
    requires Agreed(p, pool) && id in pool.members && pool.members[id].seen < |pool.log|
    ensures var m := pool.members[id];
      Stands(p, pool, id, m.(node := Heard(p, id, m.address, m.node, pool.log[m.seen], now), seen := m.seen + 1))
  {
    var m := pool.members[id];
    var msg := pool.log[m.seen];
    assert pool.log[..m.seen + 1] == pool.log[..m.seen] + [msg];
    FirstAuthorAppended(p, pool.log[..m.seen], msg);
    hide FirstAuthor, VerifyClaim, Heard, Decided;
    assert Stands(p, pool, id, m);
    HeardDecides(p, id, m.address, m.node, msg, now, FirstAuthor(p, pool.log[..m.seen]));
  }

  lemma NextAgrees(p: Platform, pool: Pool, move: Move)
    requires Agreed(p, pool) && Possible(p, pool, move)
    ensures Agreed(p, Next(p, pool, move))
  {
    hide FirstAuthor, VerifyClaim, Heard;
    match move
    case Solved(id, claim) =>
      assert Stands(p, pool, id, pool.members[id]);
    case Publish(id) =>
      var m := pool.members[id];
      assert Stands(p, pool, id, m);
      Longer(p, pool, m.node.pending.value, pool.members[id := m.(node := m.node.(pending := None))]);
    case Beat(id) =>
      assert Stands(p, pool, id, pool.members[id]);
      BeatsFirst(p, pool, id);
      Longer(p, pool, Heartbeat(id, pool.members[id].address), pool.members);
    case Deliver(id, now) => DeliverStands(p, pool, id, now);
    case Stray(claim) => Longer(p, pool, claim, pool.members);
  }

  lemma BeatsFirst(p: Platform, pool: Pool, id: string)
    requires Agreed(p, pool) && id in pool.members && pool.members[id].node.role == Coordinator
    ensures FirstAuthor(p, pool.log) == Some(id)
  {
    assert Stands(p, pool, id, pool.members[id]);
    FirstAuthorStays(p, pool.log, pool.members[id].seen);
  }

  predicate PossibleRun(p: Platform, pool: Pool, moves: seq<Move>)
    decreases |moves|
  {
    moves != [] ==> Possible(p, pool, moves[0]) && PossibleRun(p, Next(p, pool, moves[0]), moves[1..])
  }

  function After(p: Platform, pool: Pool, moves: seq<Move>): Pool
    requires PossibleRun(p, pool, moves)
    decreases |moves|
  {
    if moves == [] then pool else After(p, Next(p, pool, moves[0]), moves[1..])
  }

  lemma {:induction false} RunAgrees(p: Platform, pool: Pool, moves: seq<Move>)
    requires Agreed(p, pool) && PossibleRun(p, pool, moves)
    ensures Agreed(p, After(p, pool, moves))
    decreases |moves|
  {
    hide Agreed, Possible, Next;
    if moves != [] {
      NextAgrees(p, pool, moves[0]);
      RunAgrees(p, Next(p, pool, moves[0]), moves[1..]);
    }
  }

  /** Every member starts as a candidate that has processed nothing. */
  predicate Fresh(pool: Pool) {
    pool.log == [] && forall id :: id in pool.members ==> pool.members[id].node == NEW && pool.members[id].seen == 0
  }

  lemma FreshAgrees(p: Platform, pool: Pool)
    requires Fresh(pool)
    ensures Agreed(p, pool)
  {
  }

  /** However many candidates compete, whatever invalid claims are broadcast, and however far each has read: a member that
      has processed a message that counts is the coordinator if it wrote the first one, and otherwise a miner of whoever
      did. So no two members follow different leaders, and at most one coordinates. */
  lemma OneLeader(p: Platform, pool: Pool, moves: seq<Move>, id: string, other: string)
    requires Fresh(pool) && PossibleRun(p, pool, moves)
    requires var end := After(p, pool, moves); id in end.members && other in end.members
    ensures var end := After(p, pool, moves);
      var a, b := end.members[id], end.members[other];
      && a.seen <= |end.log|
      && (a.node.role == Candidate <==> FirstAuthor(p, end.log[..a.seen]).None?)
      && (a.node.role != Candidate ==> FirstAuthor(p, end.log) == Some(a.node.leader))
      && (a.node.role != Candidate ==> (a.node.role == Coordinator <==> a.node.leader == id))
      && (a.node.role != Candidate && b.node.role != Candidate ==> a.node.leader == b.node.leader)
      && (a.node.role == Coordinator && b.node.role == Coordinator ==> id == other)
  {
    FreshAgrees(p, pool);
    RunAgrees(p, pool, moves);
    var end := After(p, pool, moves);
    hide After, FirstAuthor, PossibleRun;
    assert Stands(p, end, id, end.members[id]) && Stands(p, end, other, end.members[other]);
    if end.members[id].node.role != Candidate {
      FirstAuthorStays(p, end.log, end.members[id].seen);
    }
    if end.members[other].node.role != Candidate {
      FirstAuthorStays(p, end.log, end.members[other].seen);
    }
  }
}
