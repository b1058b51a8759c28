/**
 Any number of coordinators that all believe they lead, interleaving write by write on one Redis. What survives is
 the chain: it always validates and is only ever extended. One block per window does not survive.
 */
module SplitBrain {
  import opened Wrappers
  import opened Platform
  import opened Text
  import opened Challenge
  import opened Laws
  import opened Chain
  import opened Store
  import opened Nct
  import opened NctInvariant
  import opened NctSafety

  /** What one coordinator is doing between two of its reads and writes. */
  datatype Leader =
      /** no window and no work */
    | Nobody
      /** it reserved the number of a window */
    | Numbered(number: nat)
      /** it recorded a window and has not set the pointer yet */
    | Saved(held: Active)
      /** its active window */
    | Holding(held: Active)
      /** it verified a nonce in time and has not called try_seal_window yet */
    | Verified(held: Active, nonce: int, winner: string)
      /** it took the guard and has not read the tip yet */
    | Accepted(held: Active, nonce: int, winner: string)
      /** it built the block on the tip it read */
    | InFlight(block: Block)
      /** taking over: it read the pointer */
    | Pointed(wid: string)
      /** taking over: it read the record, which has no result */
    | Unresolved(held: Active)
      /** taking over: the last block of the chain is not of the window */
    | Untipped(held: Active)
      /** taking over: it read that the guard is taken and has not released it yet */
    | Guarded(held: Active)

  /** since says when each guard was taken last; the instant is one all coordinators and Redis agree on. */
  datatype World = World(db: Db, leaders: string -> Leader, now: int, since: map<string, int>)

  /** An empty store, and nobody doing anything. */
  function Start(now: int): World {
    World(EMPTY, who => Nobody, now, map[])
  }

  /** The time to live of a guard: 3600 seconds. */
  const SEAL_TTL: int := 3600 * MICROS

  datatype Move =
      /** next_window_number */
    | Reserve(who: string)
      /** save_window with the reserved number */
    | Save(who: string, rest: string, w: Window, held: Active)
      /** set_active_window, and the window is in memory */
    | Point(who: string)
      /** become_leader reads the pointer */
    | Look(who: string)
      /** it reads the record of that window, which has no result */
    | LookRecord(who: string, held: Active)
      /** it reads the last block, which is not of the window */
    | LookTip(who: string)
      /** it reads the guard; if there is none the window is in memory */
    | LookGuard(who: string)
      /** release_window_seal, and the window is in memory */
    | Release(who: string)
      /** a nonce passes the checks, the deadline among them */
    | Verify(who: string, nonce: int, winner: string)
      /** try_seal_window */
    | Guard(who: string)
      /** last_block_hash is read and the block is built */
    | ReadTip(who: string, senses: Senses)
      /** append_block */
    | Append(who: string)
      /** any other write of anyone */
    | Other(db: Db)
      /** a guard reaches its time to live */
    | Lapse(wid: string)
      /** time passes */
    | Wait(until: int)
      /** a process dies or steps down */
    | Forget(who: string)

  function Put(leaders: string -> Leader, who: string, l: Leader): string -> Leader {
    k => if k == who then l else leaders(k)
  }

  /** The window in memory is what its record says. */
  predicate Recorded(p: Platform, a: Active, windows: map<string, Window>) {
    && a.wid in windows
    && Describes(p, windows[a.wid], a)
  }

  /** The record says the same of the window as the memory. */
  predicate Describes(p: Platform, w: Window, a: Active) {
    && w.lawId == a.lawId && w.action == a.action && w.base == a.base
    && ParseInt(w.nZeros) == Some(a.nZeros) && p.fromisoformat(w.deadline) == Some(a.deadline)
  }

  /** Other writes leave the chain and the guards alone, keep what is recorded of a window, and set no pointer. */
  predicate Framed(a: Db, b: Db) {
    && b.chain == a.chain && b.blocks == a.blocks && b.counter == a.counter && b.guards == a.guards
    && b.windows.Keys == a.windows.Keys && SeenAlike(a.windows, b.windows)
    && (b.active == a.active || b.active == None)
  }

  /** The records say the same of every window there was, and a window with a result keeps one. */
  predicate SeenAlike(a: map<string, Window>, b: map<string, Window>) {
    forall wid :: wid in a ==> wid in b && RecordAlike(a[wid], b[wid])
  }

  predicate RecordAlike(v: Window, w: Window) {
    && w.lawId == v.lawId && w.action == v.action && w.base == v.base && w.nZeros == v.nZeros && w.deadline == v.deadline
    && (v.result.Some? ==> w.result.Some?)
  }

  /** The last block of the chain is of this window. */
  predicate TipOf(db: Db, wid: string) {
    LastBlock(db).Some? && LastBlock(db).value.votingWindowId == wid
  }

  predicate Possible(p: Platform, world: World, move: Move) {
    match move
    case Reserve(who) => world.leaders(who).Nobody?
    case Save(who, rest, w, held) =>
      && world.leaders(who).Numbered? && held.wid == WindowId(world.leaders(who).number, rest)
      && w.result.None? && Describes(p, w, held)
    case Point(who) => world.leaders(who).Saved?
    case Look(who) => world.leaders(who).Nobody? && world.db.active.Some?
    case LookRecord(who, held) =>
      && world.leaders(who) == Pointed(held.wid) && Recorded(p, held, world.db.windows)
      && world.db.windows[held.wid].result.None?
    case LookTip(who) => world.leaders(who).Unresolved? && !TipOf(world.db, world.leaders(who).held.wid)
    case LookGuard(who) => world.leaders(who).Untipped?
    case Release(who) => world.leaders(who).Guarded?
    case Verify(who, nonce, winner) =>
      && world.leaders(who).Holding?
      && var a := world.leaders(who).held; world.now <= a.deadline && VerifyNonce(p, a.base, nonce, a.nZeros)
    case Guard(who) => world.leaders(who).Verified?
    case ReadTip(who, s) => world.leaders(who).Accepted?
    case Append(who) => world.leaders(who).InFlight?
    case Other(db) => Framed(world.db, db)
    case Lapse(wid) => wid in world.db.guards && wid in world.since && world.since[wid] + SEAL_TTL <= world.now
    case Wait(until) => world.now <= until
    case Forget(who) => true
  }

  function Next(p: Platform, world: World, move: Move): World
    requires Possible(p, world, move)
  {
    var db, leaders := world.db, world.leaders;
    match move
    case Reserve(who) =>
      var d := NextWindowNumber(db);
      world.(db := d, leaders := Put(leaders, who, Numbered(d.counter)))
    case Save(who, rest, w, held) =>
      world.(db := SaveWindow(db, held.wid, w), leaders := Put(leaders, who, Saved(held)))
    case Point(who) =>
      world.(db := SetActiveWindow(db, leaders(who).held.wid), leaders := Put(leaders, who, Holding(leaders(who).held)))
    case Look(who) => world.(leaders := Put(leaders, who, Pointed(db.active.value)))
    case LookRecord(who, held) => world.(leaders := Put(leaders, who, Unresolved(held)))
    case LookTip(who) => world.(leaders := Put(leaders, who, Untipped(leaders(who).held)))
    case LookGuard(who) =>
      var a := leaders(who).held;
      world.(leaders := Put(leaders, who, if a.wid in db.guards then Guarded(a) else Holding(a)))
    case Release(who) =>
      var a := leaders(who).held;
      world.(db := ReleaseWindowSeal(db, a.wid), leaders := Put(leaders, who, Holding(a)))
    case Verify(who, nonce, winner) =>
      world.(leaders := Put(leaders, who, Verified(leaders(who).held, nonce, winner)))
    case Guard(who) =>
      var l := leaders(who);
      var (d, won) := TrySealWindow(db, l.held.wid, l.winner);
      if won then
        world.(db := d, leaders := Put(leaders, who, Accepted(l.held, l.nonce, l.winner)),
            since := world.since[l.held.wid := world.now])
      else world.(leaders := Put(leaders, who, Holding(l.held)))
    case ReadTip(who, s) =>
      var l := leaders(who);
      world.(leaders := Put(leaders, who, InFlight(BlockOf(p, db, l.held, l.nonce, l.winner, s))))
    case Append(who) =>
      world.(db := AppendBlock(db, leaders(who).block).0, leaders := Put(leaders, who, Nobody))
    case Other(d) => world.(db := d)
    case Lapse(wid) => world.(db := ReleaseWindowSeal(db, wid))
    case Wait(until) => world.(now := until)
    case Forget(who) => world.(leaders := Put(leaders, who, Nobody))
  }

  // ---- the invariant ----

  /** Numbers handed out and not yet used are distinct and used by no window. */
  ghost predicate NumbersOk(world: World) {
    && (forall who :: world.leaders(who).Numbered? ==> world.leaders(who).number <= world.db.counter)
    && (forall who, other :: who != other && world.leaders(who).Numbered? ==> world.leaders(who) != world.leaders(other))
    && (forall wid :: wid in world.db.windows ==> WindowNumber(wid) <= world.db.counter)
    && (forall wid, who :: wid in world.db.windows ==> world.leaders(who) != Numbered(WindowNumber(wid)))
  }

  /** The block a leader is about to append answers its window and names genesis or some block of the chain. */
  predicate FlightOk(p: Platform, b: Block, db: Db) {
    IsHashValid(p, b) && FromWindow(p, b, db.windows) && (b.previousHash == GENESIS || b.previousHash in db.chain)
  }

  /** The leader has a window in hand, in one way or another. */
  predicate InHand(l: Leader) {
    l.Saved? || l.Holding? || l.Verified? || l.Accepted? || l.Unresolved? || l.Untipped? || l.Guarded?
  }

  predicate LeaderOk(p: Platform, l: Leader, db: Db) {
    && (InHand(l) ==> Recorded(p, l.held, db.windows))
    && (l.Verified? || l.Accepted? ==> VerifyNonce(p, l.held.base, l.nonce, l.held.nZeros))
    && (l.InFlight? ==> FlightOk(p, l.block, db))
  }

  ghost predicate LeadersOk(p: Platform, world: World) {
    forall who :: LeaderOk(p, world.leaders(who), world.db)
  }

  ghost predicate Consistent(p: Platform, world: World) {
    && Linked(p, world.db.chain, world.db.blocks, world.db.windows) && NumbersOk(world) && LeadersOk(p, world)
    && world.db.guards.Keys <= world.db.windows.Keys
  }

  lemma ConsistentParts(p: Platform, world: World)
    ensures Consistent(p, world) <==>
      && Linked(p, world.db.chain, world.db.blocks, world.db.windows) && NumbersOk(world) && LeadersOk(p, world)
      && world.db.guards.Keys <= world.db.windows.Keys
  {
  }

  /** Leaders whose memory does not change keep it when windows only grow and the chain never shrinks. */
  lemma LeaderCarries(p: Platform, l: Leader, a: Db, b: Db)
    requires LeaderOk(p, l, a) && a.chain <= b.chain
    requires SeenAlike(a.windows, b.windows)
    ensures LeaderOk(p, l, b)
  {
    hide VerifyNonce, IsHashValid, ParseInt;
  }

  lemma CasAccepts(p: Platform, db: Db, b: Block)
    requires CollisionFree(p) && Linked(p, db.chain, db.blocks, db.windows) && FlightOk(p, b, db)
    ensures var (d, appended) := AppendBlock(db, b);
      && Linked(p, d.chain, d.blocks, d.windows)
      && Blocks(d) == Blocks(db) + (if appended then [b] else [])
      && (appended ==> b.previousHash == LastBlockHash(db))
  {
    if AppendBlock(db, b).1 {
      LinkedExtension(p, db, b);
    }
    hide Linked, GetChain, IsHashValid, FromWindow, ToFields;
  }

  /** Only this leader may have changed. */
  ghost predicate OnlyMoved(world: World, next: World, who: string) {
    forall other :: other != who ==> next.leaders(other) == world.leaders(other)
  }

  lemma LeadersCarry(p: Platform, world: World, next: World, who: string)
    requires LeadersOk(p, world) && SeenAlike(world.db.windows, next.db.windows)
    requires world.db.chain <= next.db.chain
    requires OnlyMoved(world, next, who) && LeaderOk(p, next.leaders(who), next.db)
    ensures LeadersOk(p, next)
  {
    hide LeaderOk, SeenAlike;
    forall other ensures LeaderOk(p, next.leaders(other), next.db) {
      if other != who {
        assert LeaderOk(p, world.leaders(other), world.db);
        LeaderCarries(p, world.leaders(other), world.db, next.db);
      }
    }
  }

  lemma AlikeSelf(windows: map<string, Window>)
    ensures SeenAlike(windows, windows)
  {
  }

  /** The numbers hold on when no window is recorded and no number handed out. */
  lemma NumbersCarry(world: World, next: World, who: string)
    requires NumbersOk(world) && OnlyMoved(world, next, who) && next.db.counter == world.db.counter
    requires next.db.windows.Keys == world.db.windows.Keys && !next.leaders(who).Numbered?
    ensures NumbersOk(next)
  {
    hide WindowNumber;
    assert forall wid :: wid in next.db.windows ==> wid in world.db.windows;
  }

  /** A move that writes nothing the chain or the numbers depend on. */
  lemma QuietMove(p: Platform, world: World, next: World, who: string)
    requires Consistent(p, world)
    requires next.db.chain == world.db.chain && next.db.blocks == world.db.blocks && next.db.windows == world.db.windows
    requires next.db.counter == world.db.counter && next.db.guards.Keys <= next.db.windows.Keys
    requires OnlyMoved(world, next, who) && LeaderOk(p, next.leaders(who), next.db) && !next.leaders(who).Numbered?
    ensures Consistent(p, next)
  {
    hide *;
    ConsistentParts(p, world);
    ConsistentParts(p, next);
    AlikeSelf(world.db.windows);
    LeadersCarry(p, world, next, who);
    NumbersCarry(world, next, who);
  }

  lemma ReserveKeeps(p: Platform, world: World, who: string)
    requires Consistent(p, world) && world.leaders(who).Nobody?
    ensures Consistent(p, Next(p, world, Reserve(who)))
  {
    hide Linked, LeaderOk, WindowNumber;
    var next := Next(p, world, Reserve(who));
    NumberedOk(p, next.db);
    LeadersCarry(p, world, next, who);
  }

  lemma NumberedOk(p: Platform, db: Db)
    ensures LeaderOk(p, Numbered(db.counter), db) && LeaderOk(p, Nobody, db)
  {
    hide VerifyNonce, IsHashValid;
  }

  lemma SavedNumbers(world: World, who: string, wid: string, w: Window, next: World)
    requires NumbersOk(world) && world.leaders(who) == Numbered(WindowNumber(wid))
    requires next.db == SaveWindow(world.db, wid, w) && OnlyMoved(world, next, who) && !next.leaders(who).Numbered?
    ensures NumbersOk(next) && wid !in world.db.windows
  {
    hide WindowNumber;
  }

  lemma SavedAlike(db: Db, wid: string, w: Window)
    requires wid !in db.windows
    ensures var d := SaveWindow(db, wid, w);
      && SeenAlike(db.windows, d.windows) && d.chain == db.chain && d.blocks == db.blocks && d.guards == db.guards
      && d.windows.Keys == db.windows.Keys + {wid}
  {
  }

  lemma SavedLinked(p: Platform, db: Db, wid: string, w: Window)
    requires Linked(p, db.chain, db.blocks, db.windows) && wid !in db.windows
    ensures var d := SaveWindow(db, wid, w); Linked(p, d.chain, d.blocks, d.windows)
  {
    LinkedTransfers(p, db.chain, db.blocks, db.windows, SaveWindow(db, wid, w).windows);
    hide Linked;
  }

  lemma SavedOk(p: Platform, db: Db, held: Active, w: Window)
    requires Describes(p, w, held)
    ensures LeaderOk(p, Saved(held), SaveWindow(db, held.wid, w))
  {
    hide ParseInt;
  }

  lemma SaveKeeps(p: Platform, world: World, who: string, rest: string, w: Window, held: Active)
    requires Consistent(p, world) && Possible(p, world, Save(who, rest, w, held))
    ensures Consistent(p, Next(p, world, Save(who, rest, w, held))) && held.wid !in world.db.windows
    ensures SeenAlike(world.db.windows, Next(p, world, Save(who, rest, w, held)).db.windows)
  {
    hide *;
    SaveIs(p, world, who, rest, w, held);
    WindowNumberOfId(world.leaders(who).number, rest);
    var next := Next(p, world, Save(who, rest, w, held));
    ConsistentParts(p, world);
    SavedNumbers(world, who, held.wid, w, next);
    SavedAlike(world.db, held.wid, w);
    SavedLinked(p, world.db, held.wid, w);
    SavedOk(p, world.db, held, w);
    LeadersCarry(p, world, next, who);
    ConsistentParts(p, next);
  }

  lemma SaveIs(p: Platform, world: World, who: string, rest: string, w: Window, held: Active)
    requires Possible(p, world, Save(who, rest, w, held))
    ensures var next := Next(p, world, Save(who, rest, w, held));
      && world.leaders(who) == Numbered(world.leaders(who).number) && held.wid == WindowId(world.leaders(who).number, rest)
      && Describes(p, w, held) && w.result.None?
      && next == world.(db := SaveWindow(world.db, held.wid, w), leaders := next.leaders)
      && next.leaders(who) == Saved(held) && OnlyMoved(world, next, who)
  {
    hide Describes, WindowId;
  }

  lemma BuiltBlock(p: Platform, db: Db, a: Active, nonce: int, winner: string, s: Senses)
    requires CollisionFree(p)
    ensures var b := BlockOf(p, db, a, nonce, winner, s);
      && IsHashValid(p, b) && b.previousHash == LastBlockHash(db) && b.votingWindowId == a.wid && b.lawId == a.lawId
      && b.action == a.action && b.nonce == nonce && b.nZerosRequired == a.nZeros
  {
    hide LastBlockHash, WinnerName;
  }

  /** The block built on the tip just read names genesis exactly when there is no tip. */
  lemma ReadOk(p: Platform, l: Leader, db: Db, s: Senses)
    requires CollisionFree(p) && LeaderOk(p, l, db) && l.Accepted?
    ensures LeaderOk(p, InFlight(BlockOf(p, db, l.held, l.nonce, l.winner, s)), db)
  {
    BuiltBlock(p, db, l.held, l.nonce, l.winner, s);
    hide VerifyNonce, BlockOf, IsHashValid, ParseInt;
  }

  lemma LeaderOkAt(p: Platform, world: World, who: string)
    requires Consistent(p, world)
    ensures LeaderOk(p, world.leaders(who), world.db)
  {
    hide Linked, LeaderOk, NumbersOk;
  }

  lemma InFlightOk(p: Platform, l: Leader, db: Db)
    requires LeaderOk(p, l, db) && l.InFlight?
    ensures FlightOk(p, l.block, db)
  {
    hide FlightOk, VerifyNonce;
  }

  lemma InHandOk(p: Platform, l: Leader, db: Db)
    requires LeaderOk(p, l, db) && InHand(l)
    ensures Recorded(p, l.held, db.windows)
    ensures l.Verified? || l.Accepted? ==> VerifyNonce(p, l.held.base, l.nonce, l.held.nZeros)
  {
    hide FlightOk, VerifyNonce;
  }

  lemma ConsistentLinked(p: Platform, world: World)
    requires Consistent(p, world)
    ensures Linked(p, world.db.chain, world.db.blocks, world.db.windows)
  {
  }

  lemma AppendGrows(db: Db, b: Block)
    ensures var d := AppendBlock(db, b).0; d == db.(chain := d.chain, blocks := d.blocks) && db.chain <= d.chain
  {
    hide ToFields;
  }

  lemma AppendMoves(p: Platform, world: World, who: string)
    requires world.leaders(who).InFlight?
    ensures Possible(p, world, Append(who))
    ensures var next := Next(p, world, Append(who));
      && next == world.(db := AppendBlock(world.db, world.leaders(who).block).0, leaders := next.leaders)
      && next.leaders(who) == Nobody && OnlyMoved(world, next, who)
  {
    hide AppendBlock;
  }

  lemma AppendKeeps(p: Platform, world: World, who: string)
    requires CollisionFree(p) && Consistent(p, world) && world.leaders(who).InFlight?
    ensures Consistent(p, Next(p, world, Append(who))) && Blocks(world.db) <= Blocks(Next(p, world, Append(who)).db)
  {
    hide *;
    AppendMoves(p, world, who);
    var b := world.leaders(who).block;
    var next := Next(p, world, Append(who));
    LeaderOkAt(p, world, who);
    InFlightOk(p, world.leaders(who), world.db);
    ConsistentParts(p, world);
    CasAccepts(p, world.db, b);
    AppendGrows(world.db, b);
    NumberedOk(p, next.db);
    AlikeSelf(world.db.windows);
    LeadersCarry(p, world, next, who);
    NumbersCarry(world, next, who);
    ConsistentParts(p, next);
  }

  lemma FramedIs(a: Db, b: Db)
    requires Framed(a, b)
    ensures b.chain == a.chain && b.blocks == a.blocks && b.counter == a.counter && b.guards == a.guards
    ensures b.windows.Keys == a.windows.Keys && SeenAlike(a.windows, b.windows) && (b.active == a.active || b.active == None)
  {
    hide SeenAlike;
  }

  lemma OtherKeeps(p: Platform, world: World, db: Db)
    requires Consistent(p, world) && Framed(world.db, db)
    ensures Consistent(p, world.(db := db))
  {
    LinkedTransfers(p, world.db.chain, world.db.blocks, world.db.windows, db.windows);
    hide *;
    FramedIs(world.db, db);
    ConsistentParts(p, world);
    var next := world.(db := db);
    OtherLeaders(p, world, db);
    OtherNumbers(world, db);
    ConsistentParts(p, next);
  }

  lemma OtherLeaders(p: Platform, world: World, db: Db)
    requires LeadersOk(p, world) && SeenAlike(world.db.windows, db.windows) && db.chain == world.db.chain
    ensures LeadersOk(p, world.(db := db))
  {
    hide LeaderOk, SeenAlike;
    forall who ensures LeaderOk(p, world.leaders(who), db) {
      assert LeaderOk(p, world.leaders(who), world.db);
      LeaderCarries(p, world.leaders(who), world.db, db);
    }
  }

  lemma OtherNumbers(world: World, db: Db)
    requires NumbersOk(world) && db.windows.Keys == world.db.windows.Keys && db.counter == world.db.counter
    ensures NumbersOk(world.(db := db))
  {
    hide WindowNumber;
    assert forall wid :: wid in db.windows ==> wid in world.db.windows;
  }

  /** The moves that read, hold or let go, and the guard: chain, records and numbers stay. */
  predicate Calm(move: Move) {
    || move.Point? || move.Look? || move.LookRecord? || move.LookTip? || move.LookGuard? || move.Release? || move.Verify?
    || move.Guard? || move.ReadTip? || move.Forget?
  }

  lemma CalmIs(p: Platform, world: World, move: Move)
    requires Possible(p, world, move) && Calm(move)
    ensures Calm(move) && var next := Next(p, world, move);
      && next.db.chain == world.db.chain && next.db.blocks == world.db.blocks && next.db.windows == world.db.windows
      && next.db.counter == world.db.counter && OnlyMoved(world, next, move.who) && !next.leaders(move.who).Numbered?
      && next.now == world.now
  {
    hide VerifyNonce, Recorded, TipOf, BlockOf;
  }

  lemma CalmLeader(p: Platform, world: World, move: Move)
    requires CollisionFree(p) && Calm(move) && LeaderOk(p, world.leaders(move.who), world.db) && Possible(p, world, move)
    ensures LeaderOk(p, Next(p, world, move).leaders(move.who), Next(p, world, move).db)
  {
    if move.ReadTip? {
      ReadOk(p, world.leaders(move.who), world.db, move.senses);
    }
    hide VerifyNonce, TipOf, BlockOf, IsHashValid, Describes, FlightOk, CollisionFree;
  }

  lemma CalmGuards(p: Platform, world: World, move: Move)
    requires Calm(move) && LeaderOk(p, world.leaders(move.who), world.db) && Possible(p, world, move)
    requires world.db.guards.Keys <= world.db.windows.Keys
    ensures Next(p, world, move).db.guards.Keys <= world.db.windows.Keys
  {
    hide VerifyNonce, TipOf, BlockOf, IsHashValid, Describes, FlightOk;
  }

  lemma CalmKeeps(p: Platform, world: World, move: Move)
    requires CollisionFree(p) && Consistent(p, world) && Possible(p, world, move) && Calm(move)
    ensures Consistent(p, Next(p, world, move)) && Blocks(Next(p, world, move).db) == Blocks(world.db)
  {
    var who := move.who;
    hide *;
    CalmIs(p, world, move);
    LeaderOkAt(p, world, who);
    ConsistentParts(p, world);
    CalmLeader(p, world, move);
    CalmGuards(p, world, move);
    QuietMove(p, world, Next(p, world, move), who);
    SameBlocks(world.db, Next(p, world, move).db);
  }

  lemma SameBlocks(a: Db, b: Db)
    requires b.chain == a.chain && b.blocks == a.blocks
    ensures Blocks(b) == Blocks(a)
  {
  }

  /** Time and the lapse of a guard touch nobody's memory. */
  lemma TimeKeeps(p: Platform, world: World, next: World)
    requires Consistent(p, world) && next.leaders == world.leaders && next.db == world.db.(guards := next.db.guards)
    requires next.db.guards.Keys <= world.db.guards.Keys
    ensures Consistent(p, next)
  {
    hide Linked, LeaderOk, WindowNumber, GetChain;
    forall who ensures LeaderOk(p, next.leaders(who), next.db) {
      assert LeaderOk(p, world.leaders(who), world.db);
      AlikeSelf(world.db.windows);
      LeaderCarries(p, world.leaders(who), world.db, next.db);
    }
  }

  lemma BlocksKept(p: Platform, world: World, move: Move)
    requires Possible(p, world, move) && !move.Append?
    ensures var next := Next(p, world, move); next.db.chain == world.db.chain && next.db.blocks == world.db.blocks
  {
    hide VerifyNonce, Recorded, TipOf, BlockOf, SeenAlike;
  }

  lemma MoveKeeps(p: Platform, world: World, move: Move)
    requires CollisionFree(p) && Consistent(p, world) && Possible(p, world, move)
    ensures Consistent(p, Next(p, world, move)) && Blocks(world.db) <= Blocks(Next(p, world, move).db)
  {
    hide Consistent, Linked, BlockOf, GetChain, ToFields, VerifyNonce, CollisionFree, TipOf, Describes, SeenAlike;
    if !move.Append? {
      BlocksKept(p, world, move);
    }
    match move
    case Reserve(who) => ReserveKeeps(p, world, who);
    case Save(who, rest, w, held) => SaveKeeps(p, world, who, rest, w, held);
    case Append(who) => AppendKeeps(p, world, who);
    case Other(db) => OtherKeeps(p, world, db);
    case Lapse(wid) => TimeKeeps(p, world, Next(p, world, move));
    case Wait(until) => TimeKeeps(p, world, Next(p, world, move));
    case _ => CalmKeeps(p, world, move);
  }

  // ---- runs ----

  predicate PossibleRun(p: Platform, world: World, moves: seq<Move>)
    decreases |moves|
  {
    moves != [] ==> Possible(p, world, moves[0]) && PossibleRun(p, Next(p, world, moves[0]), moves[1..])
  }

  function AfterMoves(p: Platform, world: World, moves: seq<Move>): World
    requires PossibleRun(p, world, moves)
    decreases |moves|
  {
    if moves == [] then world else AfterMoves(p, Next(p, world, moves[0]), moves[1..])
  }

  lemma {:induction false} MovesKeep(p: Platform, world: World, moves: seq<Move>)
    requires CollisionFree(p) && Consistent(p, world) && PossibleRun(p, world, moves)
    ensures Consistent(p, AfterMoves(p, world, moves)) && Blocks(world.db) <= Blocks(AfterMoves(p, world, moves).db)
    decreases |moves|
  {
    hide Consistent, Possible, Next, CollisionFree, Blocks;
    if moves != [] {
      MoveKeeps(p, world, moves[0]);
      MovesKeep(p, Next(p, world, moves[0]), moves[1..]);
    }
  }

  lemma StartConsistent(p: Platform, now: int)
    ensures Consistent(p, Start(now))
  {
    assert GetChain([], map[]) == [];
  }

  /** However many leaders interleave, the chain in Redis validates against the windows in Redis after every move, and
      every move only extends it. */
  lemma ChainSurvives(p: Platform, now: int, moves: seq<Move>, more: seq<Move>)
    requires CollisionFree(p) && PossibleRun(p, Start(now), moves)
    requires PossibleRun(p, AfterMoves(p, Start(now), moves), more)
    ensures var middle := AfterMoves(p, Start(now), moves);
      var end := AfterMoves(p, middle, more);
      && ChainOk(p, Blocks(middle.db), WindowBase(middle.db.windows))
      && ChainOk(p, Blocks(end.db), WindowBase(end.db.windows))
      && Blocks(middle.db) <= Blocks(end.db)
  {
    StartConsistent(p, now);
    hide *;
    MovesKeep(p, Start(now), moves);
    var middle := AfterMoves(p, Start(now), moves);
    MovesKeep(p, middle, more);
    ConsistentChain(p, middle);
    ConsistentChain(p, AfterMoves(p, middle, more));
  }

  lemma ConsistentChain(p: Platform, world: World)
    requires Consistent(p, world)
    ensures ChainOk(p, Blocks(world.db), WindowBase(world.db.windows))
  {
    hide VerifyNonce, GetChain, LinksOk, NumbersOk, LeadersOk;
  }
}
