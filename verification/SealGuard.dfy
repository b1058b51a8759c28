/**
 One block per window among many leaders: what keeps it is the guard, and a guard may go exactly if its window has no block
 and nobody can still append to it, or if nobody will try to seal it any more.
 */
module SealGuard {
  import opened Wrappers
  import opened Platform
  import opened Text
  import opened Challenge
  import opened Laws
  import opened Chain
  import opened Store
  import opened Nct
  import opened NctInvariant
  import opened NctSafety
  import opened SplitBrain

  // ---- who can still append ----

  /** The block still names the tip, so its append would pass. */
  predicate NamesTip(b: Block, db: Db) {
    db.chain == [] || LastBlockHash(db) == b.previousHash
  }

  /** The parent of the first block is the hash of no block. */
  ghost predicate GenesisIsNoHash(p: Platform) {
    forall b: Block :: p.sha256(b) != GENESIS
  }

  /** Its append passes now, or could pass later: if genesis were the hash of some block, the tip could be genesis again. */
  ghost predicate MayPass(p: Platform, b: Block, db: Db) {
    NamesTip(b, db) || (b.previousHash == GENESIS && !GenesisIsNoHash(p))
  }

  /** The leader is past the guard of this window and can still append to it. */
  ghost predicate PastGuard(p: Platform, l: Leader, wid: string, db: Db) {
    || (l.Accepted? && l.held.wid == wid)
    || (l.InFlight? && l.block.votingWindowId == wid && MayPass(p, l.block, db))
  }

  /** The window has no block and nobody is past its guard. */
  ghost predicate Free(p: Platform, world: World, wid: string) {
    !FromWid(Blocks(world.db), wid) && forall who :: !PastGuard(p, world.leaders(who), wid, world.db)
  }

  // ---- who can still seal ----

  /** The deadline of the window is over. */
  predicate Late(p: Platform, world: World, wid: string) {
    && wid in world.db.windows
    && var t := p.fromisoformat(world.db.windows[wid].deadline); t.Some? ==> t.value < world.now
  }

  predicate Unclosed(db: Db, wid: string) {
    wid in db.windows && db.windows[wid].result.None?
  }

  /** The leader has the window in hand, or is about to. */
  predicate Taker(l: Leader, wid: string, db: Db) {
    || ((l.Saved? || l.Holding? || l.Unresolved? || l.Untipped? || l.Guarded?) && l.held.wid == wid)
    || (l == Pointed(wid) && Unclosed(db, wid))
  }

  /** The leader verified a nonce in time and is about to call try_seal_window. */
  predicate Poised(l: Leader, wid: string) {
    l.Verified? && l.held.wid == wid
  }

  /** A coordinator that takes over finds the window. */
  predicate Findable(db: Db, wid: string) {
    db.active == Some(wid) && Unclosed(db, wid)
  }

  /** Nobody will call try_seal_window for the window any more: nobody is about to, and either its deadline is over or nobody
      has it in hand and nobody can find it. */
  ghost predicate Over(p: Platform, world: World, wid: string) {
    && wid in world.db.windows
    && (forall who :: !Poised(world.leaders(who), wid))
    && (Late(p, world, wid) || (!Findable(world.db, wid) && forall who :: !Taker(world.leaders(who), wid, world.db)))
  }

  // ---- letting go of a guard ----

  /** The move lets go of a guard that is in place: by taking over, or by time to live. */
  predicate Releases(world: World, move: Move, wid: string) {
    && wid in world.db.guards
    && (move == Lapse(wid)
        || (move.Release? && world.leaders(move.who).Guarded? && world.leaders(move.who).held.wid == wid))
  }

  ghost predicate Careful(p: Platform, world: World, move: Move) {
    forall wid :: Releases(world, move, wid) ==> Free(p, world, wid) || Over(p, world, wid)
  }

  ghost predicate OnePerWindow(bs: seq<Block>) {
    forall i, j :: 0 <= i < j < |bs| ==> bs[i].votingWindowId != bs[j].votingWindowId
  }

  /** The guard of the window is taken, or needed no more. */
  ghost predicate Spent(p: Platform, world: World, wid: string) {
    wid in world.db.guards || Over(p, world, wid)
  }

  /** Whoever is past a guard is so alone, and before any block of the window. */
  ghost predicate Exclusive(p: Platform, world: World) {
    && OnePerWindow(Blocks(world.db))
    && (forall i :: 0 <= i < |Blocks(world.db)| ==> Spent(p, world, Blocks(world.db)[i].votingWindowId))
    && (forall who, wid :: PastGuard(p, world.leaders(who), wid, world.db) ==>
          Spent(p, world, wid) && !FromWid(Blocks(world.db), wid))
    && (forall who, other, wid :: who != other && PastGuard(p, world.leaders(who), wid, world.db) ==>
          !PastGuard(p, world.leaders(other), wid, world.db))
  }

  // ---- a window that is over stays so ----

  /** What a move of one leader must not do to a window that is over. */
  predicate NoReturn(p: Platform, world: World, l: Leader, db: Db, wid: string) {
    !Poised(l, wid) && (Late(p, world, wid) || (!Taker(l, wid, db) && !Findable(db, wid)))
  }

  lemma OverCarries(p: Platform, world: World, next: World, who: string, wid: string)
    requires Over(p, world, wid) && OnlyMoved(world, next, who) && world.now <= next.now
    requires SeenAlike(world.db.windows, next.db.windows)
    requires NoReturn(p, world, next.leaders(who), next.db, wid)
    ensures Over(p, next, wid)
  {
    assert RecordAlike(world.db.windows[wid], next.db.windows[wid]);
    hide SeenAlike;
    if !Late(p, world, wid) {
      forall other ensures !Taker(next.leaders(other), wid, next.db) {
        assert other != who ==> !Taker(world.leaders(other), wid, world.db);
      }
    }
  }

  lemma OverAt(p: Platform, world: World, who: string, wid: string)
    requires Over(p, world, wid)
    ensures wid in world.db.windows && NoReturn(p, world, world.leaders(who), world.db, wid)
  {
    hide Late, Taker, Poised, Findable;
  }

  /** No move brings its leader back to a window that is over: a nonce would be late, and a record to resume has no result. */
  lemma MoverStays(p: Platform, world: World, move: Move, wid: string)
    requires Calm(move) && Possible(p, world, move) && LeaderOk(p, world.leaders(move.who), world.db)
    requires wid in world.db.windows && NoReturn(p, world, world.leaders(move.who), world.db, wid)
    ensures var next := Next(p, world, move); NoReturn(p, world, next.leaders(move.who), next.db, wid)
  {
    hide VerifyNonce, TipOf, BlockOf, FlightOk, ParseInt;
  }

  lemma OverStays(p: Platform, world: World, move: Move, wid: string)
    requires CollisionFree(p) && Consistent(p, world) && Possible(p, world, move) && Over(p, world, wid)
    ensures Over(p, Next(p, world, move), wid)
  {
    if Calm(move) {
      var who := move.who;
      hide *;
      CalmIs(p, world, move);
      OverAt(p, world, who, wid);
      LeaderOkAt(p, world, who);
      MoverStays(p, world, move, wid);
      AlikeSelf(world.db.windows);
      OverCarries(p, world, Next(p, world, move), who, wid);
    } else {
      RestStays(p, world, move, wid);
    }
  }

  lemma RestStays(p: Platform, world: World, move: Move, wid: string)
    requires CollisionFree(p) && Consistent(p, world) && Possible(p, world, move) && Over(p, world, wid) && !Calm(move)
    ensures Over(p, Next(p, world, move), wid)
  {
    hide *;
    var next := Next(p, world, move);
    var who := WhoMoves(p, world, move);
    OverAt(p, world, who, wid);
    if move.Save? {
      SaveKeeps(p, world, move.who, move.rest, move.w, move.held);
    }
    RestIs(p, world, move, who, wid);
    OverCarries(p, world, next, who, wid);
  }

  lemma WhoMoves(p: Platform, world: World, move: Move) returns (who: string)
    requires Possible(p, world, move) && !Calm(move)
    ensures OnlyMoved(world, Next(p, world, move), who)
    ensures move.Reserve? || move.Save? || move.Append? ==> who == move.who
    ensures !(move.Reserve? || move.Save? || move.Append?) ==> Next(p, world, move).leaders == world.leaders
  {
    hide VerifyNonce, TipOf, BlockOf, Describes, SeenAlike, AppendBlock;
    who := if move.Reserve? || move.Save? || move.Append? then move.who else "";
  }

  lemma RestIs(p: Platform, world: World, move: Move, who: string, wid: string)
    requires Possible(p, world, move) && !Calm(move) && wid in world.db.windows
    requires move.Reserve? || move.Save? || move.Append? ==> who == move.who
    requires move.Save? ==> move.held.wid !in world.db.windows
    requires NoReturn(p, world, world.leaders(who), world.db, wid)
    ensures var next := Next(p, world, move);
      && world.now <= next.now && SeenAlike(world.db.windows, next.db.windows)
      && NoReturn(p, world, next.leaders(who), next.db, wid)
  {
    RestAlike(p, world, move, who, wid);
    hide *;
    var next := Next(p, world, move);
    Unreturned(p, world, world.leaders(who), next.leaders(who), next.db, wid);
  }

  lemma RestAlike(p: Platform, world: World, move: Move, who: string, wid: string)
    requires Possible(p, world, move) && !Calm(move) && wid in world.db.windows
    requires move.Reserve? || move.Save? || move.Append? ==> who == move.who
    requires move.Save? ==> move.held.wid !in world.db.windows
    ensures var next := Next(p, world, move);
      && world.now <= next.now && SeenAlike(world.db.windows, next.db.windows)
      && (next.db.active == world.db.active || next.db.active == None)
      && var l := next.leaders(who); l == world.leaders(who) || l.Numbered? || l.Nobody? || (l.Saved? && l.held.wid != wid)
  {
    if move.Save? {
      SavedAlike(world.db, move.held.wid, move.w);
    }
    AlikeSelf(world.db.windows);
    hide VerifyNonce, TipOf, BlockOf, Describes, ToFields, SeenAlike, WindowId;
  }

  lemma Unreturned(p: Platform, world: World, l: Leader, m: Leader, db: Db, wid: string)
    requires NoReturn(p, world, l, world.db, wid) && wid in world.db.windows && SeenAlike(world.db.windows, db.windows)
    requires db.active == world.db.active || db.active == None
    requires m == l || m.Numbered? || m.Nobody? || (m.Saved? && m.held.wid != wid)
    ensures NoReturn(p, world, m, db, wid)
  {
    assert RecordAlike(world.db.windows[wid], db.windows[wid]);
    hide SeenAlike, Late;
  }

  /** Over is for good, whatever the leaders do. */
  lemma {:induction false} OverLasts(p: Platform, world: World, moves: seq<Move>, wid: string)
    requires CollisionFree(p) && Consistent(p, world) && PossibleRun(p, world, moves) && Over(p, world, wid)
    ensures Over(p, AfterMoves(p, world, moves), wid)
    decreases |moves|
  {
    hide Consistent, Possible, Next, CollisionFree, Over;
    if moves != [] {
      MoveKeeps(p, world, moves[0]);
      OverStays(p, world, moves[0], wid);
      OverLasts(p, Next(p, world, moves[0]), moves[1..], wid);
    }
  }

  // ---- careful moves ----

  lemma GuardsAfter(p: Platform, world: World, move: Move, wid: string)
    requires Possible(p, world, move) && wid in world.db.guards && !Releases(world, move, wid)
    ensures wid in Next(p, world, move).db.guards
  {
    hide VerifyNonce, TipOf, BlockOf, Describes, SeenAlike, ToFields;
  }

  /** A guard that is taken or needed no more stays so under a careful move, if its window has a block or somebody is past it. */
  lemma SpentStays(p: Platform, world: World, move: Move, wid: string)
    requires CollisionFree(p) && Consistent(p, world) && Possible(p, world, move) && Careful(p, world, move)
    requires Spent(p, world, wid) && !Free(p, world, wid)
    ensures Spent(p, Next(p, world, move), wid)
  {
    hide Consistent, Possible, CollisionFree, Free, Over, Releases, Next;
    if Over(p, world, wid) {
      OverStays(p, world, move, wid);
    } else {
      assert !Releases(world, move, wid);
      GuardsAfter(p, world, move, wid);
    }
  }

  lemma NotFree(p: Platform, world: World, who: string, wid: string)
    ensures PastGuard(p, world.leaders(who), wid, world.db) ==> !Free(p, world, wid)
    ensures FromWid(Blocks(world.db), wid) ==> !Free(p, world, wid)
  {
    hide PastGuard, FromWid, Blocks;
  }

  lemma BlocksNotFree(p: Platform, world: World, i: nat)
    requires i < |Blocks(world.db)|
    ensures !Free(p, world, Blocks(world.db)[i].votingWindowId) && FromWid(Blocks(world.db), Blocks(world.db)[i].votingWindowId)
  {
    hide PastGuard, Blocks;
  }

  /** Each guard that matters is spent in the new world, too. */
  ghost predicate StillSpent(p: Platform, world: World, next: World) {
    forall wid :: Spent(p, world, wid) && !Free(p, world, wid) ==> Spent(p, next, wid)
  }

  lemma CarefulSpends(p: Platform, world: World, move: Move)
    requires CollisionFree(p) && Consistent(p, world) && Possible(p, world, move) && Careful(p, world, move)
    ensures StillSpent(p, world, Next(p, world, move))
  {
    hide Consistent, Possible, CollisionFree, Free, Spent, Careful, Next;
    forall wid | Spent(p, world, wid) && !Free(p, world, wid) ensures Spent(p, Next(p, world, move), wid) {
      SpentStays(p, world, move, wid);
    }
  }

  /** Nobody is past a guard that was not before. */
  ghost predicate NoneMorePast(p: Platform, world: World, next: World) {
    forall who, wid :: PastGuard(p, next.leaders(who), wid, next.db) ==> PastGuard(p, world.leaders(who), wid, world.db)
  }

  lemma QuietExclusive(p: Platform, world: World, next: World)
    requires Exclusive(p, world) && next.db.chain == world.db.chain && next.db.blocks == world.db.blocks
    requires StillSpent(p, world, next) && NoneMorePast(p, world, next)
    ensures Exclusive(p, next)
  {
    SameBlocks(world.db, next.db);
    hide Blocks, PastGuard, Spent, Free, FromWid, OnePerWindow;
    forall i | 0 <= i < |Blocks(next.db)| ensures Spent(p, next, Blocks(next.db)[i].votingWindowId) {
      BlocksNotFree(p, world, i);
    }
    forall who, wid | PastGuard(p, next.leaders(who), wid, next.db) ensures Spent(p, next, wid) && !FromWid(Blocks(next.db), wid) {
      NotFree(p, world, who, wid);
    }
  }

  lemma SamePast(p: Platform, a: Db, b: Db, l: Leader, wid: string)
    requires b.chain == a.chain
    ensures PastGuard(p, l, wid, b) == PastGuard(p, l, wid, a)
  {
    hide GenesisIsNoHash;
  }

  lemma MoverPast(p: Platform, world: World, move: Move, wid: string)
    requires Calm(move) && Possible(p, world, move)
    requires move.Guard? ==> world.leaders(move.who).Verified? && world.leaders(move.who).held.wid in world.db.guards
    ensures var next := Next(p, world, move);
      PastGuard(p, next.leaders(move.who), wid, next.db) ==> PastGuard(p, world.leaders(move.who), wid, world.db)
  {
    hide VerifyNonce, TipOf, Recorded, GenesisIsNoHash, MayPass;
  }

  lemma CalmPast(p: Platform, world: World, move: Move)
    requires Calm(move) && Possible(p, world, move)
    requires move.Guard? ==> world.leaders(move.who).Verified? && world.leaders(move.who).held.wid in world.db.guards
    ensures NoneMorePast(p, world, Next(p, world, move))
  {
    CalmIs(p, world, move);
    hide Possible, Next, PastGuard, Calm;
    var next := Next(p, world, move);
    forall who, wid | PastGuard(p, next.leaders(who), wid, next.db) ensures PastGuard(p, world.leaders(who), wid, world.db) {
      if who == move.who {
        MoverPast(p, world, move, wid);
      } else {
        SamePast(p, world.db, next.db, world.leaders(who), wid);
      }
    }
  }

  lemma RestPast(p: Platform, world: World, move: Move)
    requires !Calm(move) && Possible(p, world, move) && !move.Append?
    ensures NoneMorePast(p, world, Next(p, world, move))
  {
    hide VerifyNonce, TipOf, Describes, SeenAlike, GenesisIsNoHash;
  }

  lemma GuardIs(p: Platform, world: World, who: string)
    requires Possible(p, world, Guard(who))
    ensures var l, next := world.leaders(who), Next(p, world, Guard(who));
      && l.Verified? && OnlyMoved(world, next, who)
      && (l.held.wid in world.db.guards ==> next == world.(leaders := next.leaders) && next.leaders(who) == Holding(l.held))
      && (l.held.wid !in world.db.guards ==>
            && next == world.(db := world.db.(guards := world.db.guards[l.held.wid := l.winner]), leaders := next.leaders,
                since := next.since)
            && next.leaders(who) == Accepted(l.held, l.nonce, l.winner) && next.since == world.since[l.held.wid := world.now])
  {
  }

  lemma PoisedIsNotOver(p: Platform, world: World, who: string, wid: string)
    requires Poised(world.leaders(who), wid)
    ensures !Over(p, world, wid)
  {
    hide Poised, Late, Taker, Findable;
  }

  lemma AcceptedPast(p: Platform, l: Leader, db: Db)
    requires l.Accepted?
    ensures forall wid :: PastGuard(p, l, wid, db) <==> wid == l.held.wid
  {
    hide MayPass;
  }

  /** A guard that was free is taken by one leader, while nobody is past it and the window has no block. */
  lemma TakenExclusive(p: Platform, world: World, who: string, wid: string, next: World)
    requires Exclusive(p, world) && next.db.chain == world.db.chain && next.db.blocks == world.db.blocks
    requires !Spent(p, world, wid) && Spent(p, next, wid) && StillSpent(p, world, next) && OnlyMoved(world, next, who)
    requires forall w :: PastGuard(p, next.leaders(who), w, next.db) <==> w == wid
    ensures Exclusive(p, next)
  {
    SameBlocks(world.db, next.db);
    hide Blocks, PastGuard, Spent, Free, OnePerWindow;
    forall other, w | other != who ensures PastGuard(p, next.leaders(other), w, next.db) == PastGuard(p,
        world.leaders(other), w, world.db) {
      SamePast(p, world.db, next.db, world.leaders(other), w);
    }
    forall i | 0 <= i < |Blocks(next.db)| ensures Spent(p, next, Blocks(next.db)[i].votingWindowId) {
      BlocksNotFree(p, world, i);
    }
    forall other, w | PastGuard(p, next.leaders(other), w, next.db) ensures Spent(p, next, w) && !FromWid(Blocks(next.db), w) {
      NotFree(p, world, other, w);
      assert w == wid || PastGuard(p, world.leaders(other), w, world.db);
    }
  }

  lemma GuardIsExclusive(p: Platform, world: World, who: string)
    requires CollisionFree(p) && Consistent(p, world) && Exclusive(p, world) && Possible(p, world, Guard(who))
    ensures Exclusive(p, Next(p, world, Guard(who)))
  {
    hide *;
    var l, next := world.leaders(who), Next(p, world, Guard(who));
    GuardIs(p, world, who);
    GuardIsCareful(p, world, who);
    CarefulSpends(p, world, Guard(who));
    if l.held.wid in world.db.guards {
      GuardCalm(who);
      CalmPast(p, world, Guard(who));
      QuietExclusive(p, world, next);
    } else {
      var wid := l.held.wid;
      PoisedIs(l);
      PoisedIsNotOver(p, world, who, wid);
      SpentIs(p, world, wid);
      SpentIs(p, next, wid);
      AcceptedPast(p, next.leaders(who), next.db);
      TakenExclusive(p, world, who, wid, next);
    }
  }

  lemma GuardCalm(who: string)
    ensures Calm(Guard(who))
  {
  }

  lemma PoisedIs(l: Leader)
    requires l.Verified?
    ensures Poised(l, l.held.wid)
  {
  }

  lemma SpentIs(p: Platform, world: World, wid: string)
    ensures Spent(p, world, wid) <==> wid in world.db.guards || Over(p, world, wid)
  {
    hide Over;
  }

  lemma GuardIsCareful(p: Platform, world: World, who: string)
    ensures Careful(p, world, Guard(who))
  {
    hide Free, Over;
  }

  // ---- an append makes every other block in flight stale ----

  /** The hash of a block of a window without blocks is new. */
  lemma NewHash(p: Platform, db: Db, b: Block)
    requires CollisionFree(p) && Linked(p, db.chain, db.blocks, db.windows)
    requires IsHashValid(p, b) && !FromWid(Blocks(db), b.votingWindowId)
    ensures b.blockHash !in db.chain && (GenesisIsNoHash(p) ==> b.blockHash != GENESIS)
  {
    hide LinksOk, FromWindow, NoStrayBlocks;
    ChainAligned(p, db.chain, db.blocks);
    forall i | 0 <= i < |db.chain| ensures db.chain[i] != b.blockHash {
      StoredAt(p, db.chain, db.blocks, i);
      assert Blocks(db)[i].votingWindowId != b.votingWindowId;
      if db.chain[i] == b.blockHash {
        HashDeterminesBlock(p, Blocks(db)[i], b);
      }
    }
  }

  /** The i-th block read back is the one stored under the i-th hash. */
  lemma {:induction false} StoredAt(p: Platform, chain: seq<string>, blocks: map<string, Fields>, i: nat)
    requires WellStored(p, blocks) && Complete(chain, blocks) && i < |chain|
    ensures |GetChain(chain, blocks)| == |chain| && IsHashValid(p, GetChain(chain, blocks)[i])
    ensures GetBlock(blocks, chain[i]) == Some(GetChain(chain, blocks)[i])
    decreases |chain|
  {
    hide FromFields, ToFields, IsHashValid;
    ChainAligned(p, chain, blocks);
    var n := |chain| - 1;
    ChainAligned(p, chain[..n], blocks);
    if i < n {
      StoredAt(p, chain[..n], blocks, i);
    } else {
      assert chain[n] in blocks;
    }
  }

  lemma StaleAfter(p: Platform, db: Db, d: Db, b: Block, c: Block)
    requires d.chain == db.chain + [b.blockHash] && b.blockHash !in db.chain && (GenesisIsNoHash(p) ==> b.blockHash != GENESIS)
    requires c.previousHash == GENESIS || c.previousHash in db.chain
    ensures MayPass(p, c, d) ==> MayPass(p, c, db)
  {
    hide GenesisIsNoHash;
  }

  lemma FlightIs(p: Platform, b: Block, db: Db)
    requires FlightOk(p, b, db)
    ensures IsHashValid(p, b) && (b.previousHash == GENESIS || b.previousHash in db.chain)
  {
    hide IsHashValid, FromWindow;
  }

  lemma AppendIs(db: Db, b: Block)
    ensures var (d, appended) := AppendBlock(db, b);
      && d == db.(chain := d.chain, blocks := d.blocks) && (appended <==> NamesTip(b, db))
      && d.chain == db.chain + (if appended then [b.blockHash] else []) && (!appended ==> d == db)
  {
    hide ToFields;
  }

  /** Whoever can append after the append could before. */
  lemma OthersStale(p: Platform, world: World, who: string, other: string, wid: string)
    requires CollisionFree(p) && Consistent(p, world) && world.leaders(who).InFlight? && other != who
    requires var b := world.leaders(who).block; AppendBlock(world.db, b).1 && !FromWid(Blocks(world.db), b.votingWindowId)
    ensures PastGuard(p, world.leaders(other), wid, AppendBlock(world.db, world.leaders(who).block).0)
      ==> PastGuard(p, world.leaders(other), wid, world.db)
  {
    hide *;
    var b := world.leaders(who).block;
    LeaderOkAt(p, world, who);
    InFlightOk(p, world.leaders(who), world.db);
    FlightIs(p, b, world.db);
    ConsistentLinked(p, world);
    AppendIs(world.db, b);
    NewHash(p, world.db, b);
    var d := AppendBlock(world.db, b).0;
    LeaderOkAt(p, world, other);
    if world.leaders(other).InFlight? {
      InFlightOk(p, world.leaders(other), world.db);
      FlightIs(p, world.leaders(other).block, world.db);
      StaleAfter(p, world.db, d, b, world.leaders(other).block);
    }
    PastFrom(p, world.leaders(other), wid, world.db, d);
  }

  lemma PastFrom(p: Platform, l: Leader, wid: string, a: Db, b: Db)
    requires l.InFlight? ==> (MayPass(p, l.block, b) ==> MayPass(p, l.block, a))
    ensures PastGuard(p, l, wid, b) ==> PastGuard(p, l, wid, a)
  {
    hide MayPass;
  }

  lemma TipIsPast(p: Platform, world: World, who: string, b: Block)
    requires Exclusive(p, world) && world.leaders(who) == InFlight(b) && NamesTip(b, world.db)
    ensures PastGuard(p, world.leaders(who), b.votingWindowId, world.db) && !FromWid(Blocks(world.db), b.votingWindowId)
  {
    hide Blocks, FromWid, NamesTip, GenesisIsNoHash, Spent;
  }

  lemma NobodyIsPast(p: Platform, wid: string, db: Db)
    ensures !PastGuard(p, Nobody, wid, db)
  {
  }

  lemma RefusedPast(p: Platform, world: World, next: World, who: string)
    requires OnlyMoved(world, next, who) && next.leaders(who) == Nobody && next.db.chain == world.db.chain
    ensures NoneMorePast(p, world, next)
  {
    hide PastGuard;
    forall other, wid | PastGuard(p, next.leaders(other), wid, next.db) ensures PastGuard(p, world.leaders(other), wid, world.db) {
      NobodyIsPast(p, wid, next.db);
      SamePast(p, world.db, next.db, next.leaders(other), wid);
    }
  }

  lemma AppendedExclusive(p: Platform, world: World, b: Block, next: World, who: string)
    requires Exclusive(p, world) && PastGuard(p, world.leaders(who), b.votingWindowId, world.db)
    requires Blocks(next.db) == Blocks(world.db) + [b] && StillSpent(p, world, next) && OnlyMoved(world, next, who)
    requires next.leaders(who) == Nobody && NoneMorePast(p, world, next)
    ensures Exclusive(p, next)
  {
    hide Blocks, PastGuard, Spent, Free;
    var bs, wid := Blocks(world.db), b.votingWindowId;
    NotFree(p, world, who, wid);
    forall i | 0 <= i < |bs + [b]| ensures Spent(p, next, (bs + [b])[i].votingWindowId) {
      if i < |bs| {
        BlocksNotFree(p, world, i);
      }
    }
    forall other, w | PastGuard(p, next.leaders(other), w, next.db) ensures Spent(p, next, w) && !FromWid(bs + [b], w) {
      NotFree(p, world, other, w);
      NobodyIsPast(p, w, next.db);
      assert other != who && w != wid && !FromWid(bs, w);
      assert forall i :: 0 <= i < |bs| ==> (bs + [b])[i] == bs[i];
    }
    forall i | 0 <= i < |bs| ensures bs[i].votingWindowId != wid {
    }
  }

  lemma AppendIsExclusive(p: Platform, world: World, who: string)
    requires CollisionFree(p) && Consistent(p, world) && Exclusive(p, world) && world.leaders(who).InFlight?
    ensures Possible(p, world, Append(who)) && Exclusive(p, Next(p, world, Append(who)))
  {
    hide *;
    AppendMoves(p, world, who);
    var b, next := world.leaders(who).block, Next(p, world, Append(who));
    LeaderOkAt(p, world, who);
    InFlightOk(p, world.leaders(who), world.db);
    ConsistentLinked(p, world);
    CasAccepts(p, world.db, b);
    AppendIs(world.db, b);
    AppendIsCareful(p, world, who);
    CarefulSpends(p, world, Append(who));
    if AppendBlock(world.db, b).1 {
      TipIsPast(p, world, who, b);
      AppendPast(p, world, who);
      AppendedExclusive(p, world, b, next, who);
    } else {
      RefusedPast(p, world, next, who);
      QuietExclusive(p, world, next);
    }
  }

  lemma AppendIsCareful(p: Platform, world: World, who: string)
    ensures Careful(p, world, Append(who))
  {
    hide Free, Over;
  }

  lemma AppendPast(p: Platform, world: World, who: string)
    requires CollisionFree(p) && Consistent(p, world) && world.leaders(who).InFlight? && Possible(p, world, Append(who))
    requires var b := world.leaders(who).block; AppendBlock(world.db, b).1 && !FromWid(Blocks(world.db), b.votingWindowId)
    ensures NoneMorePast(p, world, Next(p, world, Append(who)))
  {
    AppendMoves(p, world, who);
    hide CollisionFree, Consistent, Possible, Next, AppendBlock, PastGuard, FromWid, Blocks;
    var next := Next(p, world, Append(who));
    forall other, wid | PastGuard(p, next.leaders(other), wid, next.db) ensures PastGuard(p, world.leaders(other), wid, world.db) {
      NobodyIsPast(p, wid, next.db);
      OthersStale(p, world, who, other, wid);
    }
  }

  /** Short of letting go of a guard that still matters, no interleaving of leaders gives a window two blocks. */
  lemma CarefulMove(p: Platform, world: World, move: Move)
    requires CollisionFree(p) && Consistent(p, world) && Exclusive(p, world)
    requires Possible(p, world, move) && Careful(p, world, move)
    ensures Exclusive(p, Next(p, world, move))
  {
    hide Consistent, CollisionFree, Exclusive, Careful, Possible, Next;
    match move
    case Guard(who) => GuardIsExclusive(p, world, who);
    case Append(who) =>
      FliesIf(p, world, who);
      AppendIsExclusive(p, world, who);
    case _ =>
      CarefulSpends(p, world, move);
      BlocksKept(p, world, move);
      if Calm(move) {
        CalmPast(p, world, move);
      } else {
        RestPast(p, world, move);
      }
      QuietExclusive(p, world, Next(p, world, move));
  }

  lemma FliesIf(p: Platform, world: World, who: string)
    requires Possible(p, world, Append(who))
    ensures world.leaders(who).InFlight?
  {
  }

  // ---- runs ----

  ghost predicate CarefulRun(p: Platform, world: World, moves: seq<Move>)
    decreases |moves|
  {
    moves != [] ==>
      && Possible(p, world, moves[0]) && Careful(p, world, moves[0])
      && CarefulRun(p, Next(p, world, moves[0]), moves[1..])
  }

  lemma {:induction false} CarefulRunIsPossible(p: Platform, world: World, moves: seq<Move>)
    requires CarefulRun(p, world, moves)
    ensures PossibleRun(p, world, moves)
    decreases |moves|
  {
    hide Possible, Careful, Next;
    if moves != [] {
      CarefulRunIsPossible(p, Next(p, world, moves[0]), moves[1..]);
    }
  }

  lemma {:induction false} CarefulRunKeeps(p: Platform, world: World, moves: seq<Move>)
    requires CollisionFree(p) && Consistent(p, world) && Exclusive(p, world) && CarefulRun(p, world, moves)
    ensures PossibleRun(p, world, moves) && Exclusive(p, AfterMoves(p, world, moves))
    decreases |moves|
  {
    CarefulRunIsPossible(p, world, moves);
    hide Consistent, Possible, Next, CollisionFree, Blocks, Exclusive, Careful, GenesisIsNoHash;
    if moves != [] {
      MoveKeeps(p, world, moves[0]);
      CarefulMove(p, world, moves[0]);
      CarefulRunKeeps(p, Next(p, world, moves[0]), moves[1..]);
    }
  }

  lemma StartExclusive(p: Platform, now: int)
    ensures Exclusive(p, Start(now))
  {
    assert Blocks(EMPTY) == [];
  }

  lemma OneOfExclusive(p: Platform, world: World)
    requires Exclusive(p, world)
    ensures OnePerWindow(Blocks(world.db))
  {
    hide Blocks, OnePerWindow, PastGuard, Spent, FromWid;
  }

  /** Any number of leaders seal at most one block per window, as long as nobody lets go of a guard, by hand or by time to
      live, of a window that has a block or that somebody can still append to, while somebody will still try to seal it. */
  lemma OneBlockUnlessReleased(p: Platform, now: int, moves: seq<Move>)
    requires CollisionFree(p) && CarefulRun(p, Start(now), moves)
    ensures PossibleRun(p, Start(now), moves) && OnePerWindow(Blocks(AfterMoves(p, Start(now), moves).db))
  {
    StartConsistent(p, now);
    StartExclusive(p, now);
    hide *;
    CarefulRunKeeps(p, Start(now), moves);
    OneOfExclusive(p, AfterMoves(p, Start(now), moves));
  }

  // ---- guards that lapse ----

  /** Windows last no longer than this, releases are careful, and when a guard lapses nobody has verified a nonce for its
      window without calling try_seal_window. */
  ghost predicate Prompt(p: Platform, world: World, move: Move, length: int) {
    && (move.Save? ==> move.held.deadline <= world.now + length)
    && (move.Release? ==> Careful(p, world, move))
    && (move.Lapse? ==> forall who :: !Poised(world.leaders(who), move.wid))
  }

  ghost predicate PromptRun(p: Platform, world: World, moves: seq<Move>, length: int)
    decreases |moves|
  {
    moves != [] ==>
      && Possible(p, world, moves[0]) && Prompt(p, world, moves[0], length)
      && PromptRun(p, Next(p, world, moves[0]), moves[1..], length)
  }

  /** The record carries a deadline, and not a later one than this. */
  predicate Due(p: Platform, w: Window, latest: int) {
    p.fromisoformat(w.deadline).Some? && p.fromisoformat(w.deadline).value <= latest
  }

  /** No deadline is further away than a window lasts, and none is later than that after its guard was taken. */
  ghost predicate Dated(p: Platform, world: World, length: int) {
    && (forall wid :: wid in world.db.windows ==> Due(p, world.db.windows[wid], world.now + length))
    && (forall wid :: wid in world.db.guards ==>
          wid in world.db.windows && wid in world.since && Due(p, world.db.windows[wid], world.since[wid] + length))
  }

  lemma DueOf(p: Platform, w: Window, held: Active, latest: int)
    requires Describes(p, w, held) && held.deadline <= latest
    ensures Due(p, w, latest)
  {
    hide ParseInt;
  }

  lemma Postponed(p: Platform, v: Window, w: Window, earlier: int, later: int)
    requires Due(p, v, earlier) && RecordAlike(v, w) && earlier <= later
    ensures Due(p, w, later)
  {
  }

  /** A move that opens no window and takes no guard. */
  lemma DatesCarry(p: Platform, world: World, next: World, length: int)
    requires Dated(p, world, length) && world.now <= next.now && next.since == world.since
    requires next.db.guards.Keys <= world.db.guards.Keys
    requires next.db.windows.Keys == world.db.windows.Keys && SeenAlike(world.db.windows, next.db.windows)
    ensures Dated(p, next, length)
  {
    hide Due, RecordAlike;
    forall wid | wid in next.db.windows ensures Due(p, next.db.windows[wid], next.now + length) {
      assert wid in world.db.windows;
      Postponed(p, world.db.windows[wid], next.db.windows[wid], world.now + length, next.now + length);
    }
    forall wid | wid in next.db.guards
      ensures wid in next.db.windows && wid in next.since && Due(p, next.db.windows[wid], next.since[wid] + length)
    {
      assert wid in world.db.guards;
      Postponed(p, world.db.windows[wid], next.db.windows[wid], world.since[wid] + length, next.since[wid] + length);
    }
  }

  lemma GuardDated(p: Platform, world: World, who: string, length: int)
    requires Dated(p, world, length) && Possible(p, world, Guard(who)) && LeaderOk(p, world.leaders(who), world.db)
    ensures Dated(p, Next(p, world, Guard(who)), length)
  {
    hide Due, Describes, VerifyNonce, FlightOk;
  }

  lemma SaveDated(p: Platform, world: World, next: World, wid: string, w: Window, length: int)
    requires Dated(p, world, length) && wid !in world.db.windows && Due(p, w, world.now + length)
    requires next.db == SaveWindow(world.db, wid, w) && next.now == world.now && next.since == world.since
    ensures Dated(p, next, length)
  {
    hide Due;
  }

  lemma Undated(p: Platform, world: World, move: Move)
    requires Possible(p, world, move) && !move.Save? && !move.Guard?
    ensures var next := Next(p, world, move);
      && world.now <= next.now && next.since == world.since && next.db.guards.Keys <= world.db.guards.Keys
      && next.db.windows.Keys == world.db.windows.Keys && SeenAlike(world.db.windows, next.db.windows)
  {
    hide *;
    AlikeSelf(world.db.windows);
    if move.Other? {
      OtherIs(p, world, move.db);
    } else {
      WindowsKept(p, world, move);
      GuardsShrink(p, world, move);
    }
  }

  lemma WindowsKept(p: Platform, world: World, move: Move)
    requires Possible(p, world, move) && !move.Save? && !move.Other?
    ensures var next := Next(p, world, move); next.db.windows == world.db.windows && world.now <= next.now
  {
    hide VerifyNonce, TipOf, BlockOf, Recorded, ToFields;
  }

  lemma GuardsShrink(p: Platform, world: World, move: Move)
    requires Possible(p, world, move) && !move.Guard? && !move.Other?
    ensures var next := Next(p, world, move); next.since == world.since && next.db.guards.Keys <= world.db.guards.Keys
  {
    hide VerifyNonce, TipOf, BlockOf, Recorded, ToFields, Describes;
  }

  lemma OtherIs(p: Platform, world: World, db: Db)
    requires Possible(p, world, Other(db))
    ensures Next(p, world, Other(db)) == world.(db := db)
    ensures db.guards == world.db.guards && db.windows.Keys == world.db.windows.Keys && SeenAlike(world.db.windows, db.windows)
  {
    hide SeenAlike;
  }

  lemma DatedKeeps(p: Platform, world: World, move: Move, length: int)
    requires CollisionFree(p) && Consistent(p, world) && Dated(p, world, length)
    requires Possible(p, world, move) && Prompt(p, world, move, length)
    ensures Dated(p, Next(p, world, move), length)
  {
    var next := Next(p, world, move);
    if move.Save? {
      PromptSave(p, world, move, length);
      hide *;
      SaveKeeps(p, world, move.who, move.rest, move.w, move.held);
      SaveIs(p, world, move.who, move.rest, move.w, move.held);
      DueOf(p, move.w, move.held, world.now + length);
      SaveDated(p, world, next, move.held.wid, move.w, length);
    } else if move.Guard? {
      hide *;
      LeaderOkAt(p, world, move.who);
      GuardDated(p, world, move.who, length);
    } else {
      hide *;
      Undated(p, world, move);
      DatesCarry(p, world, next, length);
    }
  }

  lemma PromptSave(p: Platform, world: World, move: Move, length: int)
    requires Prompt(p, world, move, length) && move.Save?
    ensures move.held.deadline <= world.now + length
  {
    hide Careful, Poised;
  }

  /** A guard that lapses outlived the deadline of its window. */
  lemma LapsesLate(p: Platform, world: World, wid: string, length: int)
    requires Dated(p, world, length) && length < SEAL_TTL && Possible(p, world, Lapse(wid))
    ensures Late(p, world, wid)
  {
  }

  lemma PromptIsCareful(p: Platform, world: World, move: Move, length: int)
    requires Dated(p, world, length) && length < SEAL_TTL && Possible(p, world, move) && Prompt(p, world, move, length)
    ensures Careful(p, world, move)
  {
    if move.Lapse? {
      LapsesLate(p, world, move.wid, length);
    }
    hide Free, Late, Possible, Dated, Poised;
  }

  lemma {:induction false} PromptRunIsCareful(p: Platform, world: World, moves: seq<Move>, length: int)
    requires CollisionFree(p) && Consistent(p, world) && Dated(p, world, length) && length < SEAL_TTL
    requires PromptRun(p, world, moves, length)
    ensures CarefulRun(p, world, moves)
    decreases |moves|
  {
    hide CollisionFree, Consistent, Possible, Next, Prompt, Dated, Careful, Blocks;
    if moves != [] {
      PromptIsCareful(p, world, moves[0], length);
      MoveKeeps(p, world, moves[0]);
      DatedKeeps(p, world, moves[0], length);
      PromptRunIsCareful(p, Next(p, world, moves[0]), moves[1..], length);
    }
  }

  lemma StartDated(p: Platform, now: int, length: int)
    ensures Dated(p, Start(now), length)
  {
  }

  /** With windows shorter than the time to live of a guard, guards may lapse: one block per window is in danger only from a
      release, or from a leader that verified a nonce before the deadline and tries the guard after the lapse. */
  lemma LapsesAreHarmless(p: Platform, now: int, moves: seq<Move>, length: int)
    requires CollisionFree(p) && length < SEAL_TTL && PromptRun(p, Start(now), moves, length)
    ensures CarefulRun(p, Start(now), moves) && PossibleRun(p, Start(now), moves)
    ensures OnePerWindow(Blocks(AfterMoves(p, Start(now), moves).db))
  {
    hide *;
    StartConsistent(p, now);
    StartDated(p, now, length);
    PromptRunIsCareful(p, Start(now), moves, length);
    OneBlockUnlessReleased(p, now, moves);
  }
}
