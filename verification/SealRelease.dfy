/**
 The exact condition for letting go of a guard: a move that lets one go too soon can be continued, without another such move,
 to two blocks of one window.
 */
module SealRelease {
  import opened Wrappers
  import opened Platform
  import opened Text
  import opened Challenge
  import opened Laws
  import opened Chain
  import opened Store
  import opened Nct
  import opened NctInvariant
  import opened NctSafety
  import opened SplitBrain
  import opened SealGuard

  // ---- careful ways from one world to another ----

  /** These moves are possible, careful, and lead there. */
  ghost predicate Reach(p: Platform, world: World, moves: seq<Move>, end: World) {
    CarefulRun(p, world, moves) && PossibleRun(p, world, moves) && AfterMoves(p, world, moves) == end
  }

  lemma Stay(p: Platform, world: World)
    ensures Reach(p, world, [], world)
  {
  }

  lemma OneMove(p: Platform, world: World, m: Move)
    requires Possible(p, world, m) && Careful(p, world, m)
    ensures Reach(p, world, [m], Next(p, world, m))
  {
    hide Possible, Next, Careful;
    assert [m][1..] == [];
    Stay(p, Next(p, world, m));
  }

  lemma {:induction false} RunsCompose(p: Platform, world: World, first: seq<Move>, more: seq<Move>)
    requires PossibleRun(p, world, first) && PossibleRun(p, AfterMoves(p, world, first), more)
    ensures PossibleRun(p, world, first + more)
    ensures AfterMoves(p, world, first + more) == AfterMoves(p, AfterMoves(p, world, first), more)
    decreases |first|
  {
    hide Possible, Next;
    if first == [] {
      assert first + more == more;
    } else {
      RunsCompose(p, Next(p, world, first[0]), first[1..], more);
      assert (first + more)[0] == first[0] && (first + more)[1..] == first[1..] + more;
    }
  }

  lemma {:induction false} CarefulCompose(p: Platform, world: World, first: seq<Move>, more: seq<Move>)
    requires CarefulRun(p, world, first) && PossibleRun(p, world, first) && CarefulRun(p, AfterMoves(p, world, first), more)
    ensures CarefulRun(p, world, first + more)
    decreases |first|
  {
    hide Possible, Next, Careful;
    if first == [] {
      assert first + more == more;
    } else {
      CarefulCompose(p, Next(p, world, first[0]), first[1..], more);
      assert (first + more)[0] == first[0] && (first + more)[1..] == first[1..] + more;
    }
  }

  lemma ReachThen(p: Platform, world: World, first: seq<Move>, middle: World, more: seq<Move>, end: World)
    requires Reach(p, world, first, middle) && Reach(p, middle, more, end)
    ensures Reach(p, world, first + more, end)
  {
    hide CarefulRun, PossibleRun, AfterMoves;
    RunsCompose(p, world, first, more);
    CarefulCompose(p, world, first, more);
  }

  lemma ReachMove(p: Platform, world: World, first: seq<Move>, middle: World, m: Move)
    requires Reach(p, world, first, middle) && Possible(p, middle, m) && Careful(p, middle, m)
    ensures Reach(p, world, first + [m], Next(p, middle, m))
  {
    hide *;
    OneMove(p, middle, m);
    ReachThen(p, world, first, middle, [m], Next(p, middle, m));
  }

  lemma ReachKeeps(p: Platform, world: World, moves: seq<Move>, end: World)
    requires CollisionFree(p) && Consistent(p, world) && Reach(p, world, moves, end)
    ensures Consistent(p, end) && Blocks(world.db) <= Blocks(end.db)
  {
    hide CollisionFree, Consistent, PossibleRun, CarefulRun, AfterMoves, Blocks;
    MovesKeep(p, world, moves);
  }

  /** Every move but a release of a guard in place is careful. */
  lemma ReleasesNothing(p: Platform, world: World, m: Move)
    requires !m.Lapse?
    requires m.Release? ==> world.leaders(m.who).Guarded? && world.leaders(m.who).held.wid !in world.db.guards
    ensures Careful(p, world, m)
  {
    hide Free, Over;
  }

  // ---- from the verified nonce to the block ----

  lemma ReadTipIs(p: Platform, world: World, who: string, s: Senses)
    requires world.leaders(who).Accepted?
    ensures Possible(p, world, ReadTip(who, s))
    ensures var l, next := world.leaders(who), Next(p, world, ReadTip(who, s));
      && next == world.(leaders := next.leaders) && OnlyMoved(world, next, who)
      && next.leaders(who) == InFlight(BlockOf(p, world.db, l.held, l.nonce, l.winner, s))
  {
    hide BlockOf;
  }

  /** A block built on the tip that is still the tip passes the comparison. */
  lemma TipNamed(p: Platform, db: Db, a: Active, nonce: int, winner: string, s: Senses)
    ensures var b := BlockOf(p, db, a, nonce, winner, s); AppendBlock(db, b).1 && b.votingWindowId == a.wid
  {
    hide ToFields, WinnerName;
  }

  lemma AppendedIsTip(p: Platform, db: Db, b: Block)
    requires CollisionFree(p) && Linked(p, db.chain, db.blocks, db.windows) && IsHashValid(p, b) && AppendBlock(db, b).1
    ensures LastBlock(AppendBlock(db, b).0) == Some(b)
  {
    StoringIsHarmless(p, db.blocks, b);
    hide Linked, GetBlock, ToFields, IsHashValid, WellStored;
  }

  /** What a block more means for the window it is of. */
  ghost predicate OneMore(world: World, end: World, wid: string) {
    exists b: Block :: Blocks(end.db) == Blocks(world.db) + [b] && b.votingWindowId == wid
  }

  /** Reading the tip and appending at once: the block of the window in memory goes into the chain, even if somebody
      else sealed that window in between. */
  lemma ReadAndAppend(p: Platform, world: World, who: string, s: Senses) returns (end: World)
    requires CollisionFree(p) && Consistent(p, world) && world.leaders(who).Accepted?
    ensures Reach(p, world, [ReadTip(who, s), Append(who)], end) && OneMore(world, end, world.leaders(who).held.wid)
    ensures OnlyMoved(world, end, who) && end == world.(db := end.db, leaders := end.leaders) && end.leaders(who) == Nobody
    ensures end.db == world.db.(chain := end.db.chain, blocks := end.db.blocks) && TipOf(end.db, world.leaders(who).held.wid)
  {
    hide *;
    var l := world.leaders(who);
    var b := BlockOf(p, world.db, l.held, l.nonce, l.winner, s);
    ReadTipIs(p, world, who, s);
    ReleasesNothing(p, world, ReadTip(who, s));
    OneMove(p, world, ReadTip(who, s));
    var read := Next(p, world, ReadTip(who, s));
    MoveKeeps(p, world, ReadTip(who, s));
    AppendMoves(p, read, who);
    ReleasesNothing(p, read, Append(who));
    ReachMove(p, world, [ReadTip(who, s)], read, Append(who));
    end := Next(p, read, Append(who));
    LeaderOkAt(p, read, who);
    InFlightOk(p, read.leaders(who), read.db);
    FlightIs(p, b, read.db);
    ConsistentLinked(p, read);
    CasAccepts(p, read.db, b);
    TipNamed(p, world.db, l.held, l.nonce, l.winner, s);
    AppendedIsTip(p, read.db, b);
    AppendGrows(read.db, b);
    OneMoreIs(world, end, b, l.held.wid);
    MovedTwice(world, read, end, who);
    TipIs(end.db, b);
    assert [ReadTip(who, s)] + [Append(who)] == [ReadTip(who, s), Append(who)];
  }

  lemma OneMoreIs(world: World, end: World, b: Block, wid: string)
    requires Blocks(end.db) == Blocks(world.db) + [b] && b.votingWindowId == wid
    ensures OneMore(world, end, wid)
  {
    hide Blocks;
  }

  lemma MovedTwice(world: World, middle: World, end: World, who: string)
    requires OnlyMoved(world, middle, who) && OnlyMoved(middle, end, who)
    ensures OnlyMoved(world, end, who)
  {
  }

  lemma TipIs(db: Db, b: Block)
    requires LastBlock(db) == Some(b)
    ensures TipOf(db, b.votingWindowId) && forall wid :: TipOf(db, wid) ==> wid == b.votingWindowId
  {
    hide LastBlock;
  }

  /** With a verified nonce and the guard free, the window gets one more block. */
  lemma Seals(p: Platform, world: World, who: string, s: Senses) returns (end: World)
    requires CollisionFree(p) && Consistent(p, world) && world.leaders(who).Verified?
    requires world.leaders(who).held.wid !in world.db.guards
    ensures Reach(p, world, [Guard(who), ReadTip(who, s), Append(who)], end) && OneMore(world, end, world.leaders(who).held.wid)
    ensures OnlyMoved(world, end, who) && end.leaders(who) == Nobody && end.now == world.now
    ensures end.db.windows == world.db.windows && end.db.active == world.db.active && TipOf(end.db, world.leaders(who).held.wid)
    ensures end.db.guards.Keys == world.db.guards.Keys + {world.leaders(who).held.wid}
  {
    hide *;
    var l := world.leaders(who);
    GuardPossible(p, world, who);
    GuardIs(p, world, who);
    GuardIsCareful(p, world, who);
    OneMove(p, world, Guard(who));
    var guarded := Next(p, world, Guard(who));
    MoveKeeps(p, world, Guard(who));
    end := ReadAndAppend(p, guarded, who, s);
    ReachThen(p, world, [Guard(who)], guarded, [ReadTip(who, s), Append(who)], end);
    MovedTwice(world, guarded, end, who);
    SameBlocks(world.db, guarded.db);
    OneMoreSame(world, guarded, end, l.held.wid);
    assert [Guard(who)] + [ReadTip(who, s), Append(who)] == [Guard(who), ReadTip(who, s), Append(who)];
  }

  lemma GuardPossible(p: Platform, world: World, who: string)
    requires world.leaders(who).Verified?
    ensures Possible(p, world, Guard(who))
  {
  }

  lemma OneMoreSame(world: World, middle: World, end: World, wid: string)
    requires Blocks(middle.db) == Blocks(world.db) && OneMore(middle, end, wid)
    ensures OneMore(world, end, wid)
  {
    hide Blocks;
  }

  // ---- another window moves the tip away ----

  lemma ForgetIs(p: Platform, world: World, who: string)
    ensures Possible(p, world, Forget(who)) && Careful(p, world, Forget(who))
    ensures var next := Next(p, world, Forget(who));
      next == world.(leaders := next.leaders) && next.leaders(who) == Nobody && OnlyMoved(world, next, who)
  {
    hide Free, Over;
  }

  lemma ReserveIs(p: Platform, world: World, who: string)
    requires world.leaders(who).Nobody?
    ensures Possible(p, world, Reserve(who)) && Careful(p, world, Reserve(who))
    ensures var next := Next(p, world, Reserve(who));
      && next == world.(db := world.db.(counter := world.db.counter + 1), leaders := next.leaders)
      && next.leaders(who) == Numbered(world.db.counter + 1) && OnlyMoved(world, next, who)
  {
    hide Free, Over;
  }

  lemma SavePossible(p: Platform, world: World, who: string, rest: string, w: Window, held: Active)
    requires world.leaders(who).Numbered? && held.wid == WindowId(world.leaders(who).number, rest)
    requires w.result.None? && Describes(p, w, held)
    ensures Possible(p, world, Save(who, rest, w, held)) && Careful(p, world, Save(who, rest, w, held))
  {
    hide Describes, WindowId, Free, Over;
  }

  lemma PointIs(p: Platform, world: World, who: string)
    requires world.leaders(who).Saved?
    ensures Possible(p, world, Point(who)) && Careful(p, world, Point(who))
    ensures var next, a := Next(p, world, Point(who)), world.leaders(who).held;
      && next == world.(db := world.db.(active := Some(a.wid)), leaders := next.leaders)
      && next.leaders(who) == Holding(a) && OnlyMoved(world, next, who)
  {
    hide Free, Over;
  }

  lemma VerifyIs(p: Platform, world: World, who: string, n: int)
    requires world.leaders(who).Holding? && world.now <= world.leaders(who).held.deadline
    requires VerifyNonce(p, world.leaders(who).held.base, n, world.leaders(who).held.nZeros)
    ensures Possible(p, world, Verify(who, n, who)) && Careful(p, world, Verify(who, n, who))
    ensures var next := Next(p, world, Verify(who, n, who));
      && next == world.(leaders := next.leaders) && OnlyMoved(world, next, who)
      && next.leaders(who) == Verified(world.leaders(who).held, n, who)
  {
    hide VerifyNonce, Free, Over;
  }

  /** Opening a window and verifying a nonce for it. */
  lemma OpensAndVerifies(p: Platform, world: World, d: string, rest: string, w: Window, held: Active, n: int) returns (end: World)
    requires CollisionFree(p) && Consistent(p, world) && world.leaders(d).Nobody?
    requires held.wid == WindowId(world.db.counter + 1, rest) && w.result.None? && Describes(p, w, held)
    requires world.now <= held.deadline && VerifyNonce(p, held.base, n, held.nZeros)
    ensures Reach(p, world, [Reserve(d), Save(d, rest, w, held), Point(d), Verify(d, n, d)], end)
    ensures end.leaders(d) == Verified(held, n, d) && OnlyMoved(world, end, d) && held.wid !in world.db.windows
    ensures end.db.windows == world.db.windows[held.wid := w] && end.db.guards == world.db.guards && end.db.active == Some(held.wid)
    ensures end.db.chain == world.db.chain && end.db.blocks == world.db.blocks && end.now == world.now
  {
    hide *;
    ReserveIs(p, world, d);
    OneMove(p, world, Reserve(d));
    var w1 := Next(p, world, Reserve(d));
    MoveKeeps(p, world, Reserve(d));
    SavePossible(p, w1, d, rest, w, held);
    SaveIs(p, w1, d, rest, w, held);
    SaveKeeps(p, w1, d, rest, w, held);
    SaveShape(w1.db, held.wid, w);
    ReachMove(p, world, [Reserve(d)], w1, Save(d, rest, w, held));
    var w2 := Next(p, w1, Save(d, rest, w, held));
    PointIs(p, w2, d);
    ReachMove(p, world, [Reserve(d)] + [Save(d, rest, w, held)], w2, Point(d));
    var w3 := Next(p, w2, Point(d));
    VerifyIs(p, w3, d, n);
    ReachMove(p, world, [Reserve(d)] + [Save(d, rest, w, held)] + [Point(d)], w3, Verify(d, n, d));
    end := Next(p, w3, Verify(d, n, d));
    MovedTwice(world, w1, w2, d);
    MovedTwice(world, w2, w3, d);
    MovedTwice(world, w3, end, d);
    assert [Reserve(d)] + [Save(d, rest, w, held)] + [Point(d)] + [Verify(d, n, d)]
        == [Reserve(d), Save(d, rest, w, held), Point(d), Verify(d, n, d)];
  }

  lemma SaveShape(db: Db, wid: string, w: Window)
    ensures SaveWindow(db, wid, w) == db.(windows := db.windows[wid := w])
  {
  }

  predicate Answers(p: Platform, base: string, n: int, zeros: int) {
    VerifyNonce(p, base, n, zeros)
  }

  /** Every challenge of this difficulty has a solution. */
  ghost predicate Minable(p: Platform, zeros: int) {
    forall base: string :: Answerable(p, base, zeros)
  }

  ghost predicate Answerable(p: Platform, base: string, zeros: int) {
    exists n: int :: Answers(p, base, n, zeros)
  }

  lemma Mined(p: Platform, zeros: int, base: string) returns (n: int)
    requires Minable(p, zeros)
    ensures VerifyNonce(p, base, n, zeros)
  {
    hide VerifyNonce;
    assert Answerable(p, base, zeros);
    n :| Answers(p, base, n, zeros);
  }

  /** A window that can be opened now. */
  lemma Openable(p: Platform, now: int, wid: string, zeros: int) returns (w: Window, held: Active)
    requires ClockTextFaithful(p)
    ensures w.result.None? && Describes(p, w, held) && held.wid == wid && held.deadline == now && held.nZeros == zeros
  {
    ParseIntText(zeros);
    hide ParseInt, IntText;
    w := Window("", Promulgacion, IntText(zeros), p.isoformat(now), p.isoformat(now), "", "", None, None, None, None);
    held := Active(wid, "", Promulgacion, zeros, "", now, "", "", None);
  }

  /** Another leader opens a window and seals it: the records and guards of all windows there were stay, and the tip is of
      none of them. */
  lemma MovesTheTip(p: Platform, world: World, d: string, zeros: int) returns (moves: seq<Move>, end: World)
    requires CollisionFree(p) && ClockTextFaithful(p) && Consistent(p, world) && Minable(p, zeros)
    ensures Reach(p, world, moves, end) && OnlyMoved(world, end, d) && end.now == world.now
    ensures forall wid :: wid in world.db.windows ==>
      && wid in end.db.windows && end.db.windows[wid] == world.db.windows[wid] && !TipOf(end.db, wid)
      && (wid in end.db.guards <==> wid in world.db.guards)
  {
    hide *;
    var s := Senses(0, 0, [], [], "");
    ForgetIs(p, world, d);
    OneMove(p, world, Forget(d));
    var w1 := Next(p, world, Forget(d));
    MoveKeeps(p, world, Forget(d));
    var wid := WindowId(w1.db.counter + 1, "");
    var w, held := Openable(p, w1.now, wid, zeros);
    var n := Mined(p, zeros, held.base);
    var w2 := OpensAndVerifies(p, w1, d, "", w, held, n);
    ReachKeeps(p, w1, [Reserve(d), Save(d, "", w, held), Point(d), Verify(d, n, d)], w2);
    ConsistentParts(p, w1);
    end := Seals(p, w2, d, s);
    ReachThen(p, world, [Forget(d)], w1, [Reserve(d), Save(d, "", w, held), Point(d), Verify(d, n, d)], w2);
    moves := [Forget(d)] + [Reserve(d), Save(d, "", w, held), Point(d), Verify(d, n, d)];
    ReachThen(p, world, moves, w2, [Guard(d), ReadTip(d, s), Append(d)], end);
    moves := moves + [Guard(d), ReadTip(d, s), Append(d)];
    MovedTwice(world, w1, w2, d);
    MovedTwice(world, w2, end, d);
    OneTip(end.db, wid);
  }

  lemma OneTip(db: Db, wid: string)
    requires TipOf(db, wid)
    ensures forall other :: TipOf(db, other) ==> other == wid
  {
    hide LastBlock;
  }

  // ---- taking the window over ----

  /** What is known of a window that somebody still has in hand and that can be solved. */
  predicate Solves(p: Platform, windows: map<string, Window>, a: Active, n: int) {
    Recorded(p, a, windows) && VerifyNonce(p, a.base, n, a.nZeros)
  }

  /** Some nonce solves each recorded window. */
  ghost predicate Solvable(p: Platform, windows: map<string, Window>) {
    forall wid :: wid in windows ==> exists a: Active, n: int :: a.wid == wid && Solves(p, windows, a, n)
  }

  lemma SolvedWindow(p: Platform, windows: map<string, Window>, wid: string) returns (a: Active, n: int)
    requires Solvable(p, windows) && wid in windows
    ensures a.wid == wid && Solves(p, windows, a, n)
  {
    hide VerifyNonce, Recorded, Solves;
    a, n :| a.wid == wid && Solves(p, windows, a, n);
  }

  /** How many moves the leader is from having the window in memory. */
  function Steps(l: Leader): nat {
    if l.Pointed? then 3 else if l.Unresolved? then 2 else if l.Holding? then 0 else 1
  }

  function Advance(l: Leader, t: string, a: Active): Move {
    if l.Pointed? then LookRecord(t, a)
    else if l.Unresolved? then LookTip(t)
    else if l.Untipped? then LookGuard(t)
    else if l.Guarded? then Release(t)
    else Point(t)
  }

  /** A leader on its way to the window gets one step closer, as long as the guard is free and the tip not of the window. */
  lemma Advances(p: Platform, world: World, t: string, a: Active)
    requires Taker(world.leaders(t), a.wid, world.db) && !world.leaders(t).Holding?
    requires Recorded(p, a, world.db.windows) && a.wid !in world.db.guards && !TipOf(world.db, a.wid)
    ensures var m := Advance(world.leaders(t), t, a);
      && Possible(p, world, m) && Careful(p, world, m)
      && var next := Next(p, world, m);
         && next == world.(db := world.db.(active := next.db.active), leaders := next.leaders) && OnlyMoved(world, next, t)
         && Taker(next.leaders(t), a.wid, next.db) && Steps(next.leaders(t)) < Steps(world.leaders(t))
  {
    hide Describes, TipOf, Free, Over;
    if world.leaders(t).Guarded? {
      assert world.db.guards - {a.wid} == world.db.guards;
    }
  }

  lemma SameTip(a: Db, b: Db, wid: string)
    requires b == a.(active := b.active)
    ensures TipOf(b, wid) == TipOf(a, wid)
  {
    hide GetBlock;
  }

  lemma {:induction false} TakesOver(p: Platform, world: World, t: string, a: Active) returns (moves: seq<Move>, end: World)
    requires Taker(world.leaders(t), a.wid, world.db) && Recorded(p, a, world.db.windows)
    requires a.wid !in world.db.guards && !TipOf(world.db, a.wid)
    ensures Reach(p, world, moves, end) && OnlyMoved(world, end, t)
    ensures end == world.(db := world.db.(active := end.db.active), leaders := end.leaders)
    ensures end.leaders(t).Holding? && end.leaders(t).held.wid == a.wid
    decreases Steps(world.leaders(t))
  {
    hide Recorded, TipOf, Reach, Possible, Careful, Next, Advance;
    if world.leaders(t).Holding? {
      Stay(p, world);
      moves, end := [], world;
    } else {
      Advances(p, world, t, a);
      var m := Advance(world.leaders(t), t, a);
      var next := Next(p, world, m);
      OneMove(p, world, m);
      SameTip(world.db, next.db, a.wid);
      moves, end := TakesOver(p, next, t, a);
      ReachThen(p, world, [m], next, moves, end);
      moves := [m] + moves;
    }
  }

  /** All memories of one window agree with its record. */
  lemma SameRecord(p: Platform, windows: map<string, Window>, a: Active, b: Active)
    requires Recorded(p, a, windows) && Recorded(p, b, windows) && a.wid == b.wid
    ensures a.base == b.base && a.nZeros == b.nZeros && a.deadline == b.deadline
    ensures p.fromisoformat(windows[a.wid].deadline) == Some(a.deadline)
  {
    hide ParseInt;
  }

  lemma NotLate(p: Platform, world: World, a: Active)
    requires Recorded(p, a, world.db.windows) && !Late(p, world, a.wid)
    ensures world.now <= a.deadline
  {
    hide ParseInt;
  }

  /** And verifies a nonce for it, if the deadline is not over. */
  lemma GetsPoised(p: Platform, world: World, t: string, a: Active, n: int) returns (moves: seq<Move>, end: World)
    requires CollisionFree(p) && Consistent(p, world)
    requires Taker(world.leaders(t), a.wid, world.db) && Solves(p, world.db.windows, a, n) && !Late(p, world, a.wid)
    requires a.wid !in world.db.guards && !TipOf(world.db, a.wid)
    ensures Reach(p, world, moves, end) && OnlyMoved(world, end, t) && Poised(end.leaders(t), a.wid)
    ensures end == world.(db := world.db.(active := end.db.active), leaders := end.leaders)
  {
    hide *;
    SolvesIs(p, world.db.windows, a, n);
    var held: World;
    moves, held := TakesOver(p, world, t, a);
    ReachKeeps(p, world, moves, held);
    LeaderOkAt(p, held, t);
    var l := held.leaders(t);
    HoldsIs(l);
    InHandOk(p, l, held.db);
    SameRecord(p, world.db.windows, a, l.held);
    NotLate(p, world, a);
    VerifyIs(p, held, t, n);
    ReachMove(p, world, moves, held, Verify(t, n, t));
    end := Next(p, held, Verify(t, n, t));
    PoisedIs(end.leaders(t));
    MovedTwice(world, held, end, t);
    moves := moves + [Verify(t, n, t)];
  }

  lemma SolvesIs(p: Platform, windows: map<string, Window>, a: Active, n: int)
    ensures Solves(p, windows, a, n) <==> Recorded(p, a, windows) && VerifyNonce(p, a.base, n, a.nZeros)
  {
    hide VerifyNonce, Recorded;
  }

  lemma HoldsIs(l: Leader)
    requires l.Holding?
    ensures InHand(l)
  {
  }

  lemma TipIsBlock(p: Platform, db: Db, wid: string)
    requires Linked(p, db.chain, db.blocks, db.windows) && TipOf(db, wid)
    ensures FromWid(Blocks(db), wid)
  {
    hide FromFields, LinksOk, FromWindow, GetChain, IsHashValid;
    var h := LastBlockHash(db);
    assert h in db.blocks;
    var i :| 0 <= i < |db.chain| && db.chain[i] == h;
    StoredAt(p, db.chain, db.blocks, i);
    assert Blocks(db)[i].votingWindowId == wid;
  }

  /** A window that is not over is in somebody's hands or can be found. */
  lemma NotOver(p: Platform, world: World, wid: string)
    requires wid in world.db.windows && !Over(p, world, wid) && forall who :: !Poised(world.leaders(who), wid)
    ensures !Late(p, world, wid) && (Findable(world.db, wid) || exists t :: Taker(world.leaders(t), wid, world.db))
  {
    hide Late, Poised, Taker, Findable;
  }

  lemma LookIs(p: Platform, world: World, c: string, wid: string)
    requires world.leaders(c).Nobody? && Findable(world.db, wid)
    ensures Possible(p, world, Look(c)) && Careful(p, world, Look(c))
    ensures var next := Next(p, world, Look(c));
      && next == world.(leaders := next.leaders) && OnlyMoved(world, next, c) && Taker(next.leaders(c), wid, next.db)
  {
    hide Free, Over;
  }

  /** Somebody has the window in hand, or a process that takes over finds it. */
  lemma FindsTaker(p: Platform, world: World, wid: string, but: string) returns (moves: seq<Move>, end: World, t: string)
    requires Findable(world.db, wid) || exists t :: Taker(world.leaders(t), wid, world.db)
    ensures Reach(p, world, moves, end) && OnlyMoved(world, end, t) && end == world.(leaders := end.leaders)
    ensures Taker(end.leaders(t), wid, end.db) && (t == but ==> Taker(world.leaders(t), wid, world.db))
  {
    hide *;
    if exists t :: Taker(world.leaders(t), wid, world.db) {
      t :| Taker(world.leaders(t), wid, world.db);
      Stay(p, world);
      moves, end := [], world;
      MovedNot(world, t);
    } else {
      t := but + "'";
      assert |t| != |but|;
      ForgetIs(p, world, t);
      OneMove(p, world, Forget(t));
      var free := Next(p, world, Forget(t));
      LookIs(p, free, t, wid);
      ReachMove(p, world, [Forget(t)], free, Look(t));
      moves, end := [Forget(t)] + [Look(t)], Next(p, free, Look(t));
      MovedTwice(world, free, end, t);
    }
  }

  lemma MovedNot(world: World, t: string)
    ensures OnlyMoved(world, world, t)
  {
  }

  lemma TakerStays(l: Leader, wid: string, a: Db, b: Db)
    requires Taker(l, wid, a) && wid in a.windows ==> wid in b.windows && b.windows[wid] == a.windows[wid]
    requires Taker(l, wid, a) && wid in a.windows
    ensures Taker(l, wid, b)
  {
  }

  lemma SolvesStays(p: Platform, a: map<string, Window>, b: map<string, Window>, held: Active, n: int)
    requires Solves(p, a, held, n) && held.wid in b && b[held.wid] == a[held.wid]
    ensures Solves(p, b, held, n)
  {
    hide VerifyNonce, Describes;
  }

  lemma LateStays(p: Platform, world: World, next: World, wid: string)
    requires next.now == world.now && wid in world.db.windows && wid in next.db.windows
    requires next.db.windows[wid] == world.db.windows[wid]
    ensures Late(p, next, wid) == Late(p, world, wid)
  {
  }

  lemma RecordedIn(p: Platform, windows: map<string, Window>, a: Active, n: int)
    requires Solves(p, windows, a, n)
    ensures a.wid in windows
  {
    hide VerifyNonce, Describes;
  }

  /** If the last block is of the window, another window moves the tip away first. */
  lemma ClearsTip(p: Platform, world: World, t: string, a: Active, n: int, zeros: int) returns (moves: seq<Move>, end: World)
    requires CollisionFree(p) && ClockTextFaithful(p) && Consistent(p, world) && Minable(p, zeros)
    requires Taker(world.leaders(t), a.wid, world.db) && Solves(p, world.db.windows, a, n) && !Late(p, world, a.wid)
    requires a.wid !in world.db.guards
    ensures Reach(p, world, moves, end) && Taker(end.leaders(t), a.wid, end.db) && Solves(p, end.db.windows, a, n)
    ensures !Late(p, end, a.wid) && a.wid !in end.db.guards && !TipOf(end.db, a.wid)
    ensures TipOf(world.db, a.wid) || end == world
  {
    hide *;
    if TipOf(world.db, a.wid) {
      var d := t + "'";
      assert |d| != |t|;
      RecordedIn(p, world.db.windows, a, n);
      moves, end := MovesTheTip(p, world, d, zeros);
      OnlyIs(world, end, d, t);
      TakerStays(world.leaders(t), a.wid, world.db, end.db);
      SolvesStays(p, world.db.windows, end.db.windows, a, n);
      LateStays(p, world, end, a.wid);
    } else {
      Stay(p, world);
      moves, end := [], world;
    }
  }

  lemma OnlyIs(world: World, next: World, who: string, other: string)
    requires OnlyMoved(world, next, who) && other != who
    ensures next.leaders(other) == world.leaders(other)
  {
  }

  lemma PastIsNoTaker(p: Platform, l: Leader, wid: string, db: Db)
    requires PastGuard(p, l, wid, db)
    ensures !Taker(l, wid, db) && !Poised(l, wid)
  {
    hide MayPass;
  }

  /** A window that is not over gets a leader with a nonce for it, if its guard is free; and nobody who is past the guard of
      a window without blocks is disturbed. */
  lemma GetsReady(p: Platform, world: World, a: Active, n: int, but: string, zeros: int)
      returns (moves: seq<Move>, end: World, t: string)
    requires CollisionFree(p) && ClockTextFaithful(p) && Consistent(p, world) && Minable(p, zeros)
    requires Solves(p, world.db.windows, a, n) && a.wid !in world.db.guards && !Over(p, world, a.wid)
    requires FromWid(Blocks(world.db), a.wid) || PastGuard(p, world.leaders(but), a.wid, world.db)
    ensures Reach(p, world, moves, end) && Poised(end.leaders(t), a.wid) && a.wid !in end.db.guards
    ensures FromWid(Blocks(world.db), a.wid)
      || (t != but && end.leaders(but) == world.leaders(but) && end.db.chain == world.db.chain && end.db.blocks == world.db.blocks)
  {
    hide *;
    RecordedIn(p, world.db.windows, a, n);
    if PastGuard(p, world.leaders(but), a.wid, world.db) {
      PastIsNoTaker(p, world.leaders(but), a.wid, world.db);
    }
    if who :| Poised(world.leaders(who), a.wid) {
      Stay(p, world);
      moves, end, t := [], world, who;
    } else {
      NotOver(p, world, a.wid);
      var found, cleared: World;
      moves, found, t := FindsTaker(p, world, a.wid, but);
      ReachKeeps(p, world, moves, found);
      LateStays(p, world, found, a.wid);
      var more: seq<Move>;
      more, cleared := ClearsTip(p, found, t, a, n, zeros);
      ReachKeeps(p, found, more, cleared);
      ReachThen(p, world, moves, found, more, cleared);
      moves := moves + more;
      more, end := GetsPoised(p, cleared, t, a, n);
      ReachThen(p, world, moves, cleared, more, end);
      moves := moves + more;
      if !FromWid(Blocks(world.db), a.wid) {
        if TipOf(found.db, a.wid) {
          ConsistentLinked(p, found);
          TipIsBlock(p, found.db, a.wid);
        }
        OnlyIs(world, found, t, but);
        OnlyIs(cleared, end, t, but);
      }
    }
  }

  // ---- two blocks ----

  lemma TwoOfOne(bs: seq<Block>, block: Block, wid: string)
    requires FromWid(bs, wid) && block.votingWindowId == wid
    ensures !OnePerWindow(bs + [block])
  {
    var i :| 0 <= i < |bs| && bs[i].votingWindowId == wid;
    assert (bs + [block])[i] == bs[i] && (bs + [block])[|bs|] == block;
  }

  lemma OneMoreDoubles(world: World, end: World, wid: string)
    requires OneMore(world, end, wid)
    ensures FromWid(Blocks(end.db), wid) && (FromWid(Blocks(world.db), wid) ==> !OnePerWindow(Blocks(end.db)))
  {
    hide Blocks, FromWid, OnePerWindow;
    var b: Block :| Blocks(end.db) == Blocks(world.db) + [b] && b.votingWindowId == wid;
    LastIsFrom(Blocks(world.db), b);
    if FromWid(Blocks(world.db), wid) {
      TwoOfOne(Blocks(world.db), b, wid);
    }
  }

  lemma LastIsFrom(bs: seq<Block>, block: Block)
    ensures FromWid(bs + [block], block.votingWindowId)
  {
    assert (bs + [block])[|bs|] == block;
  }

  /** A careful continuation that gives a window a second block. */
  ghost predicate Doubles(p: Platform, world: World, moves: seq<Move>) {
    CarefulRun(p, world, moves) && PossibleRun(p, world, moves) && !OnePerWindow(Blocks(AfterMoves(p, world, moves).db))
  }

  lemma DoublesFrom(p: Platform, world: World, moves: seq<Move>, end: World)
    requires Reach(p, world, moves, end)
    ensures Doubles(p, world, moves) <==> !OnePerWindow(Blocks(end.db))
  {
    hide CarefulRun, PossibleRun, AfterMoves, OnePerWindow, Blocks;
  }

  lemma DoublesAfter(p: Platform, world: World, first: seq<Move>, middle: World, more: seq<Move>)
    requires Reach(p, world, first, middle) && Doubles(p, middle, more)
    ensures Doubles(p, world, first + more)
  {
    hide CarefulRun, PossibleRun, AfterMoves, OnePerWindow, Blocks;
    assert Reach(p, middle, more, AfterMoves(p, middle, more));
    ReachThen(p, world, first, middle, more, AfterMoves(p, middle, more));
  }

  /** The window has its block already. */
  lemma SealedTwice(p: Platform, world: World, t: string, wid: string, s: Senses)
    requires CollisionFree(p) && Consistent(p, world) && Poised(world.leaders(t), wid) && wid !in world.db.guards
    requires FromWid(Blocks(world.db), wid)
    ensures Doubles(p, world, [Guard(t), ReadTip(t, s), Append(t)])
  {
    hide *;
    IsPoised(world.leaders(t), wid);
    var end := Seals(p, world, t, s);
    OneMoreDoubles(world, end, wid);
    DoublesFrom(p, world, [Guard(t), ReadTip(t, s), Append(t)], end);
  }

  lemma IsPoised(l: Leader, wid: string)
    requires Poised(l, wid)
    ensures l.Verified? && l.held.wid == wid
  {
  }

  /** Another leader is past the guard and has not read the tip yet: this one seals, and then it does. */
  lemma StalledAppends(p: Platform, world: World, t: string, wid: string, but: string, s: Senses)
    requires CollisionFree(p) && Consistent(p, world) && Poised(world.leaders(t), wid) && wid !in world.db.guards
    requires t != but && world.leaders(but).Accepted? && world.leaders(but).held.wid == wid
    ensures Doubles(p, world, [Guard(t), ReadTip(t, s), Append(t)] + [ReadTip(but, s), Append(but)])
  {
    hide *;
    IsPoised(world.leaders(t), wid);
    var first, more := [Guard(t), ReadTip(t, s), Append(t)], [ReadTip(but, s), Append(but)];
    var sealed := Seals(p, world, t, s);
    ReachKeeps(p, world, first, sealed);
    OneMoreDoubles(world, sealed, wid);
    OnlyIs(world, sealed, t, but);
    var end := ReadAndAppend(p, sealed, but, s);
    OneMoreDoubles(sealed, end, wid);
    ReachThen(p, world, first, sealed, more, end);
    DoublesFrom(p, world, first + more, end);
  }

  /** Another leader is past the guard with a block that still names the tip. */
  lemma FlightLands(p: Platform, world: World, t: string, wid: string, but: string, s: Senses)
    requires CollisionFree(p) && Consistent(p, world) && Poised(world.leaders(t), wid) && wid !in world.db.guards
    requires t != but && world.leaders(but).InFlight? && world.leaders(but).block.votingWindowId == wid
    requires NamesTip(world.leaders(but).block, world.db)
    ensures Doubles(p, world, [Append(but)] + [Guard(t), ReadTip(t, s), Append(t)])
  {
    hide *;
    var b := world.leaders(but).block;
    LeaderOkAt(p, world, but);
    InFlightOk(p, world.leaders(but), world.db);
    ConsistentLinked(p, world);
    CasAccepts(p, world.db, b);
    AppendIs(world.db, b);
    AppendMoves(p, world, but);
    ReleasesNothing(p, world, Append(but));
    OneMove(p, world, Append(but));
    MoveKeeps(p, world, Append(but));
    var landed := Next(p, world, Append(but));
    LastIsFrom(Blocks(world.db), b);
    OnlyIs(world, landed, but, t);
    SealedTwice(p, landed, t, wid, s);
    DoublesAfter(p, world, [Append(but)], landed, [Guard(t), ReadTip(t, s), Append(t)]);
  }

  lemma HowPast(p: Platform, l: Leader, wid: string, db: Db)
    requires GenesisIsNoHash(p) && PastGuard(p, l, wid, db)
    ensures || (l.Accepted? && l.held.wid == wid)
            || (l.InFlight? && l.block.votingWindowId == wid && NamesTip(l.block, db))
  {
    hide NamesTip, GenesisIsNoHash;
  }

  lemma ReadyDoubles(p: Platform, world: World, t: string, wid: string, but: string) returns (moves: seq<Move>)
    requires CollisionFree(p) && GenesisIsNoHash(p) && Consistent(p, world) && Poised(world.leaders(t), wid)
        && wid !in world.db.guards
    requires FromWid(Blocks(world.db), wid) || (t != but && PastGuard(p, world.leaders(but), wid, world.db))
    ensures Doubles(p, world, moves)
  {
    hide *;
    var s := Senses(0, 0, [], [], "");
    if FromWid(Blocks(world.db), wid) {
      SealedTwice(p, world, t, wid, s);
      moves := [Guard(t), ReadTip(t, s), Append(t)];
    } else {
      HowPast(p, world.leaders(but), wid, world.db);
      if world.leaders(but).Accepted? {
        StalledAppends(p, world, t, wid, but, s);
        moves := [Guard(t), ReadTip(t, s), Append(t)] + [ReadTip(but, s), Append(but)];
      } else {
        FlightLands(p, world, t, wid, but, s);
        moves := [Append(but)] + [Guard(t), ReadTip(t, s), Append(t)];
      }
    }
  }

  // ---- the exact condition ----

  predicate LetGo(l: Leader, m: Leader, wid: string) {
    m == l || (l.Guarded? && l.held.wid == wid && m == Holding(l.held))
  }

  /** What a release leaves. */
  lemma AfterRelease(p: Platform, world: World, move: Move, wid: string)
    requires Possible(p, world, move) && Releases(world, move, wid)
    ensures var next := Next(p, world, move);
      && next.db == world.db.(guards := world.db.guards - {wid}) && next.now == world.now
      && forall who :: LetGo(world.leaders(who), next.leaders(who), wid)
  {
    hide VerifyNonce, ParseInt, TipOf;
  }

  /** Letting a guard go ends nothing: whoever had the window in hand still has it. */
  lemma StillNotOver(p: Platform, world: World, move: Move, wid: string)
    requires Possible(p, world, move) && Releases(world, move, wid) && !Over(p, world, wid)
    ensures !Over(p, Next(p, world, move), wid)
  {
    AfterRelease(p, world, move, wid);
    hide Possible, Next, Releases;
    var next := Next(p, world, move);
    if Over(p, next, wid) {
      forall who ensures !Poised(world.leaders(who), wid) && (!Taker(next.leaders(who), wid,
          next.db) ==> !Taker(world.leaders(who), wid, world.db)) {
        assert !Poised(next.leaders(who), wid) && LetGo(world.leaders(who), next.leaders(who), wid);
      }
    }
  }

  lemma StillPast(p: Platform, world: World, move: Move, wid: string, but: string)
    requires Possible(p, world, move) && Releases(world, move, wid) && PastGuard(p, world.leaders(but), wid, world.db)
    ensures PastGuard(p, Next(p, world, move).leaders(but), wid, Next(p, world, move).db)
  {
    AfterRelease(p, world, move, wid);
    hide Possible, Next, Releases;
    var next := Next(p, world, move);
    assert LetGo(world.leaders(but), next.leaders(but), wid);
    SamePast(p, world.db, next.db, world.leaders(but), wid);
    hide MayPass;
  }

  lemma WhoIsPast(p: Platform, world: World, wid: string) returns (but: string)
    requires !Free(p, world, wid)
    ensures FromWid(Blocks(world.db), wid) || PastGuard(p, world.leaders(but), wid, world.db)
  {
    hide FromWid, Blocks, PastGuard;
    if FromWid(Blocks(world.db), wid) {
      but := "";
    } else {
      but :| PastGuard(p, world.leaders(but), wid, world.db);
    }
  }

  /** Only recorded windows have guards. */
  lemma GuardRecorded(p: Platform, world: World, move: Move, wid: string)
    requires Consistent(p, world) && Releases(world, move, wid)
    ensures wid in world.db.windows
  {
    hide Linked, NumbersOk, LeadersOk;
  }

  /** Letting go of a guard that still matters can be continued, without letting go of another, to two blocks of its window:
      whoever has the window in hand, or takes it over, seals it, next to the block it has, the block in flight, or that of
      the stalled leader. */
  lemma CarelessReleaseDoubles(p: Platform, world: World, move: Move, wid: string, zeros: int) returns (moves: seq<Move>)
    requires CollisionFree(p) && GenesisIsNoHash(p) && ClockTextFaithful(p) && Consistent(p, world) && Possible(p, world, move)
    requires Solvable(p, world.db.windows) && Minable(p, zeros)
    requires Releases(world, move, wid) && !Free(p, world, wid) && !Over(p, world, wid)
    ensures Doubles(p, Next(p, world, move), moves)
  {
    hide *;
    var next := Next(p, world, move);
    GuardRecorded(p, world, move, wid);
    var a, n := SolvedWindow(p, world.db.windows, wid);
    var but := WhoIsPast(p, world, wid);
    AfterRelease(p, world, move, wid);
    StillNotOver(p, world, move, wid);
    if PastGuard(p, world.leaders(but), wid, world.db) {
      StillPast(p, world, move, wid, but);
    }
    SameBlocks(world.db, next.db);
    MoveKeeps(p, world, move);
    var ready: World, t: string;
    moves, ready, t := GetsReady(p, next, a, n, but, zeros);
    ReachKeeps(p, next, moves, ready);
    if FromWid(Blocks(next.db), wid) {
      FromPrefix(Blocks(next.db), Blocks(ready.db), wid);
    } else {
      SamePast(p, next.db, ready.db, next.leaders(but), wid);
    }
    var more := ReadyDoubles(p, ready, t, wid, but);
    DoublesAfter(p, next, moves, ready, more);
    moves := moves + more;
  }

  lemma FromPrefix(bs: seq<Block>, all: seq<Block>, wid: string)
    requires bs <= all && FromWid(bs, wid)
    ensures FromWid(all, wid)
  {
    var i :| 0 <= i < |bs| && bs[i].votingWindowId == wid;
    assert all[i] == bs[i];
  }

  /** Every careful way to go on keeps one block per window. */
  ghost predicate StaysSingle(p: Platform, world: World) {
    forall moves :: !Doubles(p, world, moves)
  }

  lemma CarefulStaysSingle(p: Platform, world: World, move: Move, moves: seq<Move>)
    requires CollisionFree(p) && Consistent(p, world) && Exclusive(p, world)
    requires Possible(p, world, move) && Careful(p, world, move)
    ensures !Doubles(p, Next(p, world, move), moves)
  {
    hide *;
    var next := Next(p, world, move);
    CarefulMove(p, world, move);
    MoveKeeps(p, world, move);
    if Doubles(p, next, moves) {
      DoublesIs(p, next, moves);
      CarefulRunKeeps(p, next, moves);
      OneOfExclusive(p, AfterMoves(p, next, moves));
    }
  }

  lemma DoublesIs(p: Platform, world: World, moves: seq<Move>)
    requires Doubles(p, world, moves)
    ensures CarefulRun(p, world, moves) && PossibleRun(p, world, moves) && !OnePerWindow(Blocks(AfterMoves(p, world, moves).db))
  {
    hide CarefulRun, PossibleRun, OnePerWindow, AfterMoves, Blocks;
  }

  /** A move may be made with one block per window in every careful future exactly if it is careful: if each guard it lets go
      is of a window without block that nobody can still append to, or of one that nobody will try to seal any more. */
  lemma CarefulIff(p: Platform, world: World, move: Move, zeros: int)
    requires CollisionFree(p) && GenesisIsNoHash(p) && ClockTextFaithful(p) && Consistent(p, world) && Exclusive(p, world)
    requires Possible(p, world, move) && Solvable(p, world.db.windows) && Minable(p, zeros)
    ensures Careful(p, world, move) <==> StaysSingle(p, Next(p, world, move))
  {
    hide CollisionFree, GenesisIsNoHash, ClockTextFaithful, Consistent, Exclusive, Possible, Solvable, Minable, Next, Doubles,
      Releases, Free, Over;
    if Careful(p, world, move) {
      forall moves ensures !Doubles(p, Next(p, world, move), moves) {
        CarefulStaysSingle(p, world, move, moves);
      }
    } else {
      var wid :| Releases(world, move, wid) && !Free(p, world, wid) && !Over(p, world, wid);
      var moves := CarelessReleaseDoubles(p, world, move, wid, zeros);
    }
  }

  // ---- the stalled leader, from the start ----

  /** Like Reach, of moves that need not be careful. */
  ghost predicate Leads(p: Platform, world: World, moves: seq<Move>, end: World) {
    PossibleRun(p, world, moves) && AfterMoves(p, world, moves) == end
  }

  lemma ReachLeads(p: Platform, world: World, moves: seq<Move>, end: World)
    requires Reach(p, world, moves, end)
    ensures Leads(p, world, moves, end)
  {
    hide CarefulRun, PossibleRun, AfterMoves;
  }

  lemma LeadsThen(p: Platform, world: World, first: seq<Move>, middle: World, more: seq<Move>, end: World)
    requires Leads(p, world, first, middle) && Leads(p, middle, more, end)
    ensures Leads(p, world, first + more, end)
  {
    hide PossibleRun, AfterMoves;
    RunsCompose(p, world, first, more);
  }

  lemma LeadsOne(p: Platform, world: World, m: Move)
    requires Possible(p, world, m)
    ensures Leads(p, world, [m], Next(p, world, m))
  {
    hide Possible, Next;
    assert [m][1..] == [];
    assert Leads(p, Next(p, world, m), [], Next(p, world, m));
  }

  /** Taking over, up to the guard. */
  lemma LooksAround(p: Platform, world: World, b: string, held: Active) returns (end: World)
    requires world.leaders(b).Nobody? && Findable(world.db, held.wid) && Recorded(p, held, world.db.windows)
    requires !TipOf(world.db, held.wid)
    ensures Leads(p, world, [Look(b)] + [LookRecord(b, held)] + [LookTip(b)] + [LookGuard(b)], end)
    ensures end == world.(leaders := end.leaders) && OnlyMoved(world, end, b)
    ensures end.leaders(b) == if held.wid in world.db.guards then Guarded(held) else Holding(held)
  {
    hide *;
    LookIs(p, world, b, held.wid);
    LooksAt(p, world, b, held);
    LeadsOne(p, world, Look(b));
    var w1 := Next(p, world, Look(b));
    LookRecordIs(p, w1, b, held);
    LeadsOne(p, w1, LookRecord(b, held));
    var w2 := Next(p, w1, LookRecord(b, held));
    LeadsThen(p, world, [Look(b)], w1, [LookRecord(b, held)], w2);
    LookTipIs(p, w2, b, held);
    LeadsOne(p, w2, LookTip(b));
    var w3 := Next(p, w2, LookTip(b));
    LeadsThen(p, world, [Look(b)] + [LookRecord(b, held)], w2, [LookTip(b)], w3);
    LookGuardIs(p, w3, b, held);
    LeadsOne(p, w3, LookGuard(b));
    end := Next(p, w3, LookGuard(b));
    LeadsThen(p, world, [Look(b)] + [LookRecord(b, held)] + [LookTip(b)], w3, [LookGuard(b)], end);
    MovedTwice(world, w1, w2, b);
    MovedTwice(world, w2, w3, b);
    MovedTwice(world, w3, end, b);
  }

  /** Taking over, with the release of the guard. */
  lemma TakesGuarded(p: Platform, world: World, b: string, held: Active) returns (end: World)
    requires world.leaders(b).Nobody? && Findable(world.db, held.wid) && Recorded(p, held, world.db.windows)
    requires !TipOf(world.db, held.wid) && held.wid in world.db.guards
    ensures Leads(p, world, [Look(b)] + [LookRecord(b, held)] + [LookTip(b)] + [LookGuard(b)] + [Release(b)], end)
    ensures end.leaders(b) == Holding(held) && OnlyMoved(world, end, b)
    ensures end == world.(db := world.db.(guards := world.db.guards - {held.wid}), leaders := end.leaders)
  {
    hide *;
    var looked := LooksAround(p, world, b, held);
    ReleaseIs(p, looked, b, held);
    LeadsOne(p, looked, Release(b));
    end := Next(p, looked, Release(b));
    LeadsThen(p, world, [Look(b)] + [LookRecord(b, held)] + [LookTip(b)] + [LookGuard(b)], looked, [Release(b)], end);
    MovedTwice(world, looked, end, b);
  }

  lemma LooksAt(p: Platform, world: World, b: string, held: Active)
    requires world.leaders(b).Nobody? && Findable(world.db, held.wid)
    ensures Possible(p, world, Look(b)) && Next(p, world, Look(b)).leaders(b) == Pointed(held.wid) && Unclosed(world.db, held.wid)
  {
  }

  lemma LookRecordIs(p: Platform, world: World, b: string, held: Active)
    requires world.leaders(b) == Pointed(held.wid) && Recorded(p, held, world.db.windows) && Unclosed(world.db, held.wid)
    ensures Possible(p, world, LookRecord(b, held))
    ensures var next := Next(p, world, LookRecord(b, held));
      next == world.(leaders := next.leaders) && OnlyMoved(world, next, b) && next.leaders(b) == Unresolved(held)
  {
    hide Describes;
  }

  lemma LookTipIs(p: Platform, world: World, b: string, held: Active)
    requires world.leaders(b) == Unresolved(held) && !TipOf(world.db, held.wid)
    ensures Possible(p, world, LookTip(b))
    ensures var next := Next(p, world, LookTip(b));
      next == world.(leaders := next.leaders) && OnlyMoved(world, next, b) && next.leaders(b) == Untipped(held)
  {
    hide TipOf;
  }

  lemma LookGuardIs(p: Platform, world: World, b: string, held: Active)
    requires world.leaders(b) == Untipped(held)
    ensures Possible(p, world, LookGuard(b))
    ensures var next := Next(p, world, LookGuard(b));
      && next == world.(leaders := next.leaders) && OnlyMoved(world, next, b)
      && next.leaders(b) == if held.wid in world.db.guards then Guarded(held) else Holding(held)
  {
  }

  lemma ReleaseIs(p: Platform, world: World, b: string, held: Active)
    requires world.leaders(b) == Guarded(held)
    ensures Possible(p, world, Release(b))
    ensures var next := Next(p, world, Release(b));
      && next == world.(db := world.db.(guards := world.db.guards - {held.wid}), leaders := next.leaders)
      && OnlyMoved(world, next, b) && next.leaders(b) == Holding(held)
  {
  }

  lemma FirstRecord(p: Platform, held: Active, w: Window)
    requires Describes(p, w, held) && w.result.None?
    ensures Recorded(p, held, EMPTY.windows[held.wid := w]) && LastBlock(EMPTY).None?
    ensures forall db: Db {:trigger Findable(db, held.wid)} ::
      (db.windows == EMPTY.windows[held.wid := w] && db.active == Some(held.wid) ==> Findable(db, held.wid))
    ensures forall db: Db {:trigger TipOf(db, held.wid)} ::
      (db.chain == EMPTY.chain && db.blocks == EMPTY.blocks ==> !TipOf(db, held.wid))
  {
    hide Describes;
  }

  lemma StartIs(now: int)
    ensures Start(now).db == EMPTY && Start(now).now == now && forall who :: Start(now).leaders(who) == Nobody
  {
  }

  /** From the empty store: a opens a window, accepts a nonce, takes the guard and stalls; b takes over, which frees the
      guard, and seals; a wakes up, reads the new tip and appends. Every comparison with the tip passes, and the window has
      two blocks. */
  lemma StalledLeaderSealsTwice(p: Platform, now: int, a: string, b: string, rest: string, w: Window, held: Active,
        n1: int, n2: int, s: Senses)
    requires CollisionFree(p) && a != b && held.wid == WindowId(1, rest) && w.result.None? && Describes(p, w, held)
    requires now <= held.deadline && VerifyNonce(p, held.base, n1, held.nZeros) && VerifyNonce(p, held.base, n2, held.nZeros)
    ensures var opening := [Reserve(a), Save(a, rest, w, held), Point(a), Verify(a, n1, a)] + [Guard(a)];
      var takingOver := [Look(b)] + [LookRecord(b, held)] + [LookTip(b)] + [LookGuard(b)] + [Release(b)];
      var sealing := [Verify(b, n2, b)] + ([Guard(b), ReadTip(b, s), Append(b)] + [ReadTip(a, s), Append(a)]);
      var moves := opening + takingOver + sealing;
      PossibleRun(p, Start(now), moves) && !OnePerWindow(Blocks(AfterMoves(p, Start(now), moves).db))
  {
    hide *;
    var start, verifying := Start(now), [Reserve(a), Save(a, rest, w, held), Point(a), Verify(a, n1, a)];
    StartIs(now);
    StartConsistent(p, now);
    EmptyCounter();
    FirstRecord(p, held, w);
    var verified := OpensAndVerifies(p, start, a, rest, w, held, n1);
    ReachLeads(p, start, verifying, verified);
    OnlyIs(start, verified, a, b);
    GuardPossible(p, verified, a);
    GuardIs(p, verified, a);
    LeadsOne(p, verified, Guard(a));
    var guarded := Next(p, verified, Guard(a));
    LeadsThen(p, start, verifying, verified, [Guard(a)], guarded);
    OnlyIs(verified, guarded, a, b);
    var taking := [Look(b)] + [LookRecord(b, held)] + [LookTip(b)] + [LookGuard(b)] + [Release(b)];
    var taken := TakesGuarded(p, guarded, b, held);
    LeadsThen(p, start, verifying + [Guard(a)], guarded, taking, taken);
    OnlyIs(guarded, taken, b, a);
    LeadsIs(p, start, verifying + [Guard(a)] + taking, taken);
    MovesKeep(p, start, verifying + [Guard(a)] + taking);
    StalledDoubles(p, taken, a, b, held, n2, s);
    var sealing := [Verify(b, n2, b)] + ([Guard(b), ReadTip(b, s), Append(b)] + [ReadTip(a, s), Append(a)]);
    DoublesIs(p, taken, sealing);
    RunsCompose(p, start, verifying + [Guard(a)] + taking, sealing);
  }

  lemma EmptyCounter()
    ensures EMPTY.counter == 0 && EMPTY.guards == map[]
  {
  }

  lemma LeadsIs(p: Platform, world: World, moves: seq<Move>, end: World)
    requires Leads(p, world, moves, end)
    ensures PossibleRun(p, world, moves) && AfterMoves(p, world, moves) == end
  {
    hide PossibleRun, AfterMoves;
  }

  /** The successor holds the window, the stalled leader is past the guard that was freed. */
  lemma StalledDoubles(p: Platform, world: World, a: string, b: string, held: Active, n: int, s: Senses)
    requires CollisionFree(p) && Consistent(p, world) && a != b && world.leaders(b) == Holding(held) && world.now <= held.deadline
    requires world.leaders(a).Accepted? && world.leaders(a).held.wid == held.wid && held.wid !in world.db.guards
    requires VerifyNonce(p, held.base, n, held.nZeros)
    ensures Doubles(p, world, [Verify(b, n, b)] + ([Guard(b), ReadTip(b, s), Append(b)] + [ReadTip(a, s), Append(a)]))
  {
    hide *;
    VerifyIs(p, world, b, n);
    OneMove(p, world, Verify(b, n, b));
    var next := Next(p, world, Verify(b, n, b));
    MoveKeeps(p, world, Verify(b, n, b));
    OnlyIs(world, next, b, a);
    PoisedIs(next.leaders(b));
    StalledAppends(p, next, b, held.wid, a, s);
    DoublesAfter(p, world, [Verify(b, n, b)], next, [Guard(b), ReadTip(b, s), Append(b)] + [ReadTip(a, s), Append(a)]);
  }
}
