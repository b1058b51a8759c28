/** The Redis state of VoxChain and its single writes (common/storage/redis_store.py). Every function named after
    a method of VoxChainStore is one atomic write: a crash falls between two of them. */
module Store {
  import opened Wrappers
  import opened Platform
  import opened Text
  import opened Laws
  import opened Categories
  import opened Chain
  import Ratchet
  import Turns
  import Deliberation

  datatype WindowResult = Sealed | ExpiredPending | ExpiredNoQuorum

  /** window:<id>. Numbers and instants are the texts Redis holds. */
  datatype Window = Window(
    lawId: string, action: Action, nZeros: string, openedAt: string, deadline: string, base: string,
    category: string, participants: Option<seq<string>>, result: Option<WindowResult>,
    winningNonce: Option<int>, winner: Option<string>)

  datatype CooldownReason = ProposedNew | ReproposedIdentical

  datatype Cooldown = Cooldown(untilWindow: int, reason: CooldownReason)

  /** nct:deliberation: the announced law with everything that was frozen when it was announced. */
  datatype Announced = Announced(
    lawId: string, action: Action, category: string, startedAt: string, decideUntil: int,
    nZerosRequired: int, windowSeconds: int, nonceSpace: int, biggest: real,
    convocados: seq<Deliberation.Convocado>)

  datatype DeliberationResult = DeliberationResult(
    outcome: Deliberation.Outcome, accepted: seq<string>, rejected: seq<string>, silent: seq<string>,
    defaulted: seq<string>, decidedAt: string)

  datatype Db = Db(
    laws: map<string, Law>, queue: seq<string>, discarded: set<string>, counter: nat,
    windows: map<string, Window>, guards: map<string, string>, active: Option<string>,
    lastAuthor: Option<string>, turns: seq<string>, cooldowns: map<string, Cooldown>,
    difficulty: map<string, Ratchet.Fields>, deliberation: Option<Announced>,
    decisions: map<string, map<string, string>>, results: map<string, DeliberationResult>,
    chain: seq<string>, blocks: map<string, Fields>)

  const EMPTY: Db := Db(map[], [], {}, 0, map[], map[], None, None, [], map[], map[], None, map[], map[], [], map[])

  // ---- laws ----

  function GetLaw(db: Db, id: string): Option<Law> {
    if id in db.laws then Some(db.laws[id]) else None
  }

  /** save_law: HSET of the fields given, over whatever the record held. */
  function SaveLaw(db: Db, id: string, author: string, textHash: string, createdAt: string, category: string,
                   textCompressed: string, textOriginalLen: int): Db {
    var prior := GetLaw(db, id);
    var law := Law(id, author, if prior.Some? then prior.value.requestedBy else "", textHash, textCompressed,
                   if textOriginalLen == 0 && prior.Some? then prior.value.textOriginalLen else textOriginalLen,
                   createdAt, PendingQueue, Promulgacion, NormalizeCategory(Some(category)),
                   if prior.Some? then prior.value.silent else 0);
    db.(laws := db.laws[id := law])
  }

  /** The HSETs on one field of a law. Their callers hold a law that exists. */
  function SetLawStatus(db: Db, id: string, status: Status): Db {
    if id in db.laws then db.(laws := db.laws[id := db.laws[id].(status := status)]) else db
  }

  function SetLawAction(db: Db, id: string, action: Action): Db {
    if id in db.laws then db.(laws := db.laws[id := db.laws[id].(action := action)]) else db
  }

  function SetLawRequestedBy(db: Db, id: string, author: string): Db {
    if id in db.laws then db.(laws := db.laws[id := db.laws[id].(requestedBy := author)]) else db
  }

  function SetSilentDeliberations(db: Db, id: string, n: int): Db {
    if id in db.laws then db.(laws := db.laws[id := db.laws[id].(silent := n)]) else db
  }

  // ---- queue ----

  function EnqueueLaw(db: Db, id: string): Db {
    db.(queue := db.queue + [id])
  }

  /** LREM with count 0: every occurrence goes. */
  function Remove(queue: seq<string>, id: string): (r: seq<string>)
    ensures forall q :: q in r <==> q in queue && q != id
  {
    if queue == [] then []
    else if queue[0] == id then Remove(queue[1..], id)
    else [queue[0]] + Remove(queue[1..], id)
  }

  function RemoveFromQueue(db: Db, id: string): Db {
    db.(queue := Remove(db.queue, id))
  }

  /** queued_laws: the records of the queued ids that have one. */
  function QueuedLaws(laws: map<string, Law>, queue: seq<string>): (r: seq<Law>)
    ensures forall law :: law in r ==> exists id :: id in queue && id in laws && laws[id] == law
  {
    if queue == [] then []
    else
      var rest := QueuedLaws(laws, queue[1..]);
      assert forall id :: id in queue[1..] ==> id in queue;
      if queue[0] in laws then [laws[queue[0]]] + rest else rest
  }

  // ---- counters, turns, cooldowns, difficulty ----

  function MarkTextHashDiscarded(db: Db, textHash: string): Db {
    db.(discarded := db.discarded + {textHash})
  }

  function NextWindowNumber(db: Db): Db {
    db.(counter := db.counter + 1)
  }

  function SetLastAuthor(db: Db, author: string): Db {
    db.(lastAuthor := Some(author))
  }

  function PushWindowAuthor(db: Db, author: string): Db {
    db.(turns := Turns.Push(db.turns, author))
  }

  function SetCooldown(db: Db, author: string, until: int, reason: CooldownReason): Db {
    db.(cooldowns := db.cooldowns[author := Cooldown(until, reason)])
  }

  predicate IsInCooldown(db: Db, author: string) {
    author in db.cooldowns && db.counter < db.cooldowns[author].untilWindow
  }

  function GetDifficultyState(db: Db, scope: string): Ratchet.Fields {
    if scope in db.difficulty then db.difficulty[scope] else map[]
  }

  function SaveDifficultyState(db: Db, scope: string, s: Ratchet.State): Db {
    db.(difficulty := db.difficulty[scope := Ratchet.Saved(s)])
  }

  // ---- windows ----

  function SaveWindow(db: Db, wid: string, w: Window): Db {
    db.(windows := db.windows[wid := w])
  }

  /** set_window_result: a nonce or winner that is not given leaves the field as it was. */
  function SetWindowResult(db: Db, wid: string, result: WindowResult, nonce: Option<int>, winner: Option<string>): Db {
    if wid in db.windows then
      var w := db.windows[wid];
      db.(windows := db.windows[wid := w.(
        result := Some(result),
        winningNonce := if nonce.Some? then nonce else w.winningNonce,
        winner := if winner.Some? then winner else w.winner)])
    else db
  }

  /** try_seal_window: SETNX on the guard. */
  function TrySealWindow(db: Db, wid: string, winner: string): (Db, bool) {
    if wid in db.guards then (db, false) else (db.(guards := db.guards[wid := winner]), true)
  }

  /** release_window_seal; the expiry of the guard has the same effect. */
  function ReleaseWindowSeal(db: Db, wid: string): Db {
    db.(guards := db.guards - {wid})
  }

  function SetActiveWindow(db: Db, wid: string): Db {
    db.(active := Some(wid))
  }

  function ClearActiveWindow(db: Db): Db {
    db.(active := None)
  }

  // ---- deliberation ----

  function SaveDeliberation(db: Db, a: Announced): Db {
    db.(deliberation := Some(a))
  }

  function ClearDeliberation(db: Db): Db {
    db.(deliberation := None)
  }

  function DeliberationDecisions(db: Db, id: string): map<string, string> {
    if id in db.decisions then db.decisions[id] else map[]
  }

  function SetDeliberationDecision(db: Db, id: string, voter: string, decision: string): Db {
    db.(decisions := db.decisions[id := DeliberationDecisions(db, id)[voter := decision]])
  }

  function ClearDeliberationDecisions(db: Db, id: string): Db {
    db.(decisions := db.decisions - {id})
  }

  function SaveDeliberationResult(db: Db, id: string, r: DeliberationResult): Db {
    db.(results := db.results[id := r])
  }

  // ---- chain ----

  /** get_block */
  function GetBlock(blocks: map<string, Fields>, h: string): Option<Block> {
    if h in blocks then FromFields(blocks[h]) else None
  }

  function LastBlockHash(db: Db): string {
    if db.chain == [] then GENESIS else db.chain[|db.chain| - 1]
  }

  /** append_block: the script compares the tip with the block's parent only if there is a tip. */
  function AppendBlock(db: Db, b: Block): (Db, bool) {
    if db.chain != [] && LastBlockHash(db) != b.previousHash then (db, false)
    else (db.(chain := db.chain + [b.blockHash], blocks := db.blocks[b.blockHash := ToFields(b)]), true)
  }

  /** get_chain: the blocks of the listed hashes that have one. */
  function GetChain(chain: seq<string>, blocks: map<string, Fields>): seq<Block> {
    if chain == [] then []
    else
      var n := |chain| - 1;
      var last := GetBlock(blocks, chain[n]);
      GetChain(chain[..n], blocks) + if last.Some? then [last.value] else []
  }

  function Blocks(db: Db): seq<Block> {
    GetChain(db.chain, db.blocks)
  }

  /** Every stored block reads back as a block that carries its key as hash, and the hash is right. */
  ghost predicate WellStored(p: Platform, blocks: map<string, Fields>) {
    forall h :: h in blocks ==>
      GetBlock(blocks, h).Some? && GetBlock(blocks, h).value.blockHash == h
      && IsHashValid(p, GetBlock(blocks, h).value) && blocks[h] == ToFields(GetBlock(blocks, h).value)
  }

  ghost predicate Complete(chain: seq<string>, blocks: map<string, Fields>) {
    forall i :: 0 <= i < |chain| ==> chain[i] in blocks
  }

  lemma {:induction false} ChainAligned(p: Platform, chain: seq<string>, blocks: map<string, Fields>)
    requires WellStored(p, blocks) && Complete(chain, blocks)
    ensures |GetChain(chain, blocks)| == |chain|
    ensures forall i :: 0 <= i < |chain| ==> GetChain(chain, blocks)[i].blockHash == chain[i]
  {
    hide FromFields, ToFields;
    if chain != [] {
      var n := |chain| - 1;
      ChainAligned(p, chain[..n], blocks);
      assert chain[n] in blocks;
    }
  }

  lemma {:induction false} ChainDepends(chain: seq<string>, a: map<string, Fields>, b: map<string, Fields>)
    requires forall i :: 0 <= i < |chain| ==> GetBlock(a, chain[i]) == GetBlock(b, chain[i])
    ensures GetChain(chain, a) == GetChain(chain, b)
  {
    hide FromFields, ToFields;
    if chain != [] {
      ChainDepends(chain[..|chain| - 1], a, b);
    }
  }

  /** Storing a block changes no other: even under an existing key the content is the same. */
  lemma StoringIsHarmless(p: Platform, blocks: map<string, Fields>, b: Block)
    requires CollisionFree(p) && WellStored(p, blocks) && IsHashValid(p, b)
    ensures var after := blocks[b.blockHash := ToFields(b)];
      && GetBlock(after, b.blockHash) == Some(b)
      && WellStored(p, after)
      && forall h :: h in blocks ==> GetBlock(after, h) == GetBlock(blocks, h)
  {
    hide FromFields, ToFields;
    BlockRoundTrip(b);
    if b.blockHash in blocks {
      HashDeterminesBlock(p, GetBlock(blocks, b.blockHash).value, b);
    }
  }

  /** An append that passes the comparison extends the chain by exactly its block. */
  lemma AppendExtends(p: Platform, db: Db, b: Block)
    requires CollisionFree(p) && WellStored(p, db.blocks) && Complete(db.chain, db.blocks) && IsHashValid(p, b)
    requires AppendBlock(db, b).1
    ensures var after := AppendBlock(db, b).0;
      && Blocks(after) == Blocks(db) + [b]
      && WellStored(p, after.blocks) && Complete(after.chain, after.blocks)
  {
    hide FromFields, ToFields;
    var after := AppendBlock(db, b).0;
    StoringIsHarmless(p, db.blocks, b);
    ChainDepends(db.chain, db.blocks, after.blocks);
    assert after.chain[..|after.chain| - 1] == db.chain;
  }
}
