/** The writes of a handler are moves of the many-leader model: what a coordinator does between its guard and its append, when
    it takes over and when it opens. */
module HandlerMoves {
  import opened Wrappers
  import opened Platform
  import opened Text
  import opened Challenge
  import opened Laws
  import opened Chain
  import opened Store
  import opened Nct
  import opened NctHandlers
  import opened NctFailover
  import opened SplitBrain
  import opened SealGuard
  import opened SealRelease

  /** The leader as the many-leader model sees it between two messages. */
  predicate Between(l: Leader, mem: Mem) {
    l == if mem.active.Some? then Holding(mem.active.value) else Nobody
  }

  lemma WinnerTwice(winner: string)
    ensures WinnerName(WinnerName(winner)) == WinnerName(winner)
  {
  }

  lemma SameBlockOf(p: Platform, db: Db, d: Db, a: Active, nonce: int, winner: string, s: Senses)
    requires d == db.(guards := d.guards)
    ensures BlockOf(p, d, a, nonce, WinnerName(winner), s) == BlockOf(p, d, a, nonce, winner, s)
  {
    WinnerTwice(winner);
    hide WinnerName, LastBlockHash;
  }

  lemma VerifyMove(p: Platform, world: World, who: string, nonce: int, name: string)
    requires world.leaders(who).Holding? && world.now <= world.leaders(who).held.deadline
    requires VerifyNonce(p, world.leaders(who).held.base, nonce, world.leaders(who).held.nZeros)
    ensures Possible(p, world, Verify(who, nonce, name))
    ensures var next := Next(p, world, Verify(who, nonce, name));
      && next == world.(leaders := next.leaders) && OnlyMoved(world, next, who)
      && next.leaders(who) == Verified(world.leaders(who).held, nonce, name)
  {
    hide VerifyNonce;
  }

  /** Verifying a nonce and calling try_seal_window. */
  lemma VerifyGuard(p: Platform, world: World, who: string, nonce: int, name: string) returns (end: World)
    requires world.leaders(who).Holding? && world.now <= world.leaders(who).held.deadline
    requires VerifyNonce(p, world.leaders(who).held.base, nonce, world.leaders(who).held.nZeros)
    ensures Leads(p, world, [Verify(who, nonce, name)] + [Guard(who)], end) && end.now == world.now
    ensures var a := world.leaders(who).held;
      && end.db == TrySealWindow(world.db, a.wid, name).0 && end.db == world.db.(guards := end.db.guards)
      && end.leaders(who) == if a.wid in world.db.guards then Holding(a) else Accepted(a, nonce, name)
  {
    hide *;
    VerifyMove(p, world, who, nonce, name);
    LeadsOne(p, world, Verify(who, nonce, name));
    var verified := Next(p, world, Verify(who, nonce, name));
    GuardPossible(p, verified, who);
    GuardIs(p, verified, who);
    LeadsOne(p, verified, Guard(who));
    end := Next(p, verified, Guard(who));
    LeadsThen(p, world, [Verify(who, nonce, name)], verified, [Guard(who)], end);
    SealTried(world.db, world.leaders(who).held.wid, name);
  }

  lemma SealTried(db: Db, wid: string, name: string)
    ensures TrySealWindow(db, wid, name) == if wid in db.guards then (db, false) else (db.(guards := db.guards[wid := name]), true)
  {
  }

  /** Reading the tip and appending. */
  lemma ReadAppend(p: Platform, world: World, who: string, s: Senses) returns (end: World)
    requires world.leaders(who).Accepted?
    ensures Leads(p, world, [ReadTip(who, s)] + [Append(who)], end) && end.leaders(who) == Nobody
    ensures var l := world.leaders(who); end.db == AppendBlock(world.db, BlockOf(p, world.db, l.held, l.nonce, l.winner, s)).0
  {
    hide *;
    ReadTipIs(p, world, who, s);
    LeadsOne(p, world, ReadTip(who, s));
    var read := Next(p, world, ReadTip(who, s));
    AppendMoves(p, read, who);
    LeadsOne(p, read, Append(who));
    end := Next(p, read, Append(who));
    LeadsThen(p, world, [ReadTip(who, s)], read, [Append(who)], end);
  }

  /** What handle_nonce_response writes first: nothing if the guard is taken, and otherwise the store after the moves Verify
      and Guard and, if the append passes, the one after ReadTip and Append. A refused append leaves the store as it was. */
  lemma NonceIsMoves(p: Platform, cfg: Config, world: World, who: string, mem: Mem, s: Senses, m: Solution)
    requires ValidConfig(cfg) && mem.isLeader && mem.active.Some? && Between(world.leaders(who), mem)
    requires world.now == s.now && Acceptable(p, mem.active.value, s.now, m)
    ensures var a, name := mem.active.value, WinnerName(m.winner);
      var e := HandleNonce(p, cfg, world.db, mem, s, m);
      var guarding := [Verify(who, m.nonce, name)] + [Guard(who)];
      var moves := guarding + ([ReadTip(who, s)] + [Append(who)]);
      && PossibleRun(p, world, guarding)
      && var guarded := AfterMoves(p, world, guarding);
         if a.wid in world.db.guards then
           e == Idle(mem) && guarded.db == world.db && Between(guarded.leaders(who), mem)
         else
           && PossibleRun(p, world, moves)
           && var end := AfterMoves(p, world, moves);
              && |e.steps| >= 2 && e.steps[0] == guarded.db && end.leaders(who) == Nobody
              && (AppendBlock(guarded.db, BlockOf(p, guarded.db, a, m.nonce, m.winner, s)).1 ==> e.steps[1] == end.db)
              && (!AppendBlock(guarded.db, BlockOf(p, guarded.db, a, m.nonce, m.winner, s)).1 ==> end.db == guarded.db)
  {
    hide *;
    BetweenIs(world.leaders(who), mem);
    Verdict(p, cfg, world.db, mem, s, m);
    AcceptableIs(p, mem.active.value, s.now, m);
    var a, name := mem.active.value, WinnerName(m.winner);
    var guarding := [Verify(who, m.nonce, name)] + [Guard(who)];
    var guarded := VerifyGuard(p, world, who, m.nonce, name);
    LeadsIs(p, world, guarding, guarded);
    if a.wid in world.db.guards {
      SealTried(world.db, a.wid, name);
      BetweenIs(guarded.leaders(who), mem);
    } else {
      var end := ReadAppend(p, guarded, who, s);
      LeadsThen(p, world, guarding, guarded, [ReadTip(who, s)] + [Append(who)], end);
      LeadsIs(p, world, guarding + ([ReadTip(who, s)] + [Append(who)]), end);
      SameBlockOf(p, world.db, guarded.db, a, m.nonce, m.winner, s);
      var first := Then(Exec([guarded.db], mem, []), Seal(p, guarded.db, mem, s, a, m.nonce, m.winner));
      SealStarts(p, guarded.db, mem, s, a, m.nonce, m.winner);
      ThenShape(Exec([guarded.db], mem, []), Seal(p, guarded.db, mem, s, a, m.nonce, m.winner));
      AndMaybeOpenStarts(p, cfg, world.db, first, s);
      FirstTwo(first.steps, HandleNonce(p, cfg, world.db, mem, s, m).steps);
    }
  }

  lemma AcceptableIs(p: Platform, a: Active, now: int, m: Solution)
    requires Acceptable(p, a, now, m)
    ensures now <= a.deadline && VerifyNonce(p, a.base, m.nonce, a.nZeros)
  {
    hide VerifyNonce;
  }

  lemma BetweenIs(l: Leader, mem: Mem)
    ensures Between(l, mem) <==> l == if mem.active.Some? then Holding(mem.active.value) else Nobody
  {
  }

  lemma SealStarts(p: Platform, db: Db, mem: Mem, s: Senses, a: Active, nonce: int, winner: string)
    ensures var e := Seal(p, db, mem, s, a, nonce, winner);
      var (d, appended) := AppendBlock(db, BlockOf(p, db, a, nonce, winner, s));
      && |e.steps| >= 1 && (appended ==> e.steps[0] == d) && (!appended ==> d == db)
  {
    hide BlockOf, ToFields;
  }

  lemma FirstTwo(first: seq<Db>, all: seq<Db>)
    requires |first| >= 2 && |all| >= |first| && all[..|first|] == first
    ensures all[0] == first[0] && all[1] == first[1]
  {
    assert all[..|first|][0] == all[0] && all[..|first|][1] == all[1];
  }

  /** Taking over ends with a window in memory exactly if the stored pointer leads to one without result, the last block is not of
      it, and its record parses; it then describes what is in memory. */
  lemma ResumeHoldsIff(p: Platform, db: Db, mem: Mem)
    ensures var e := Resume(p, db, mem);
      && (e.mem.active.Some? <==>
            && db.active.Some? && Findable(db, db.active.value) && !TipOf(db, db.active.value)
            && var w := db.windows[db.active.value]; Rebuilt(p, db.active.value, w, GetLaw(db, w.lawId)).Some?)
      && (e.mem.active.Some? ==>
            && db.active == Some(e.mem.active.value.wid) && Recorded(p, e.mem.active.value, db.windows)
            && Final(db, e) == ReleaseWindowSeal(db, e.mem.active.value.wid)
            && |e.steps| == if e.mem.active.value.wid in db.guards then 1 else 0)
  {
    hide ParseInt, GetBlock, CloseSealed, GivenBack;
    ResumeElse(p, db, mem);
    if db.active.Some? && Findable(db, db.active.value) && !TipOf(db, db.active.value) {
      assert db.active.value !in db.guards ==> db.guards - {db.active.value} == db.guards;
    }
  }

  lemma ResumeElse(p: Platform, db: Db, mem: Mem)
    ensures forall wid, id, action, nonce, winner :: CloseSealed(db, mem, wid, id, action, nonce, winner).mem.active.None?
    ensures forall d, wid, w :: GivenBack(d, mem, wid, w).mem.active.None?
  {
    hide SetWindowResult, SetLawStatus, Requeued;
  }

  /** Whenever taking over ends with a window in memory, it was the moves of reading the pointer, the record, the tip and the
      guard, and releasing the guard if there is one. */
  lemma ResumeIsMoves(p: Platform, world: World, who: string, mem: Mem)
    requires world.leaders(who).Nobody? && Resume(p, world.db, mem).mem.active.Some?
    ensures var e := Resume(p, world.db, mem);
      var held := e.mem.active.value;
      var looking := [Look(who)] + [LookRecord(who, held)] + [LookTip(who)] + [LookGuard(who)];
      var moves := if held.wid in world.db.guards then looking + [Release(who)] else looking;
      && PossibleRun(p, world, moves)
      && AfterMoves(p, world, moves).db == Final(world.db, e) && Between(AfterMoves(p, world, moves).leaders(who), e.mem)
  {
    hide *;
    ResumeHoldsIff(p, world.db, mem);
    var e := Resume(p, world.db, mem);
    var held := e.mem.active.value;
    FoundIs(world.db, held.wid);
    var moves := [Look(who)] + [LookRecord(who, held)] + [LookTip(who)] + [LookGuard(who)];
    var end := LooksAround(p, world, who, held);
    ReleasedIs(world.db, held.wid);
    BetweenIs(Holding(held), e.mem);
    if held.wid in world.db.guards {
      ReleaseIs(p, end, who, held);
      LeadsOne(p, end, Release(who));
      LeadsThen(p, world, moves, end, [Release(who)], Next(p, end, Release(who)));
      LeadsIs(p, world, moves + [Release(who)], Next(p, end, Release(who)));
    } else {
      LeadsIs(p, world, moves, end);
    }
  }

  lemma FoundIs(db: Db, wid: string)
    ensures Findable(db, wid) ==> Unclosed(db, wid)
  {
  }

  lemma ReleasedIs(db: Db, wid: string)
    ensures ReleaseWindowSeal(db, wid) == db.(guards := db.guards - {wid})
    ensures wid !in db.guards ==> ReleaseWindowSeal(db, wid) == db
  {
    assert wid !in db.guards ==> db.guards - {wid} == db.guards;
  }

  /** Otherwise it closes, gives up or leaves the window: writes of no concern to the chain. */
  lemma ResumeElseIsOther(p: Platform, db: Db, mem: Mem)
    requires db.active.Some? ==> !Findable(db, db.active.value) || TipOf(db, db.active.value)
    ensures var e := Resume(p, db, mem);
      && e.mem.active.None? && |e.steps| <= 3
      && forall k :: 0 <= k < |e.steps| ==> Framed(if k == 0 then db else e.steps[k - 1], e.steps[k])
  {
    ResumeElse(p, db, mem);
    ResumeBranches(p, db, mem);
    hide *;
    if db.active.Some? {
      StatusIsFramed(db, "", PendingQueue);
      var e := Resume(p, db, mem);
      if wid, id, action, nonce, winner :| e == CloseSealed(db, mem, wid, id, action, nonce, winner) {
        var a := Active(wid, id, action, 0, "", 0, "", "", None);
        ClosingIsOther(db, mem, a, nonce, winner);
      }
    }
  }

  lemma ResumeBranches(p: Platform, db: Db, mem: Mem)
    requires db.active.Some? ==> !Findable(db, db.active.value) || TipOf(db, db.active.value)
    ensures var e := Resume(p, db, mem);
      || (e.steps == [] && e.mem.active.None?)
      || (e.steps == [ClearActiveWindow(db)] && e.mem.active.None?)
      || exists wid, id, action, nonce, winner :: e == CloseSealed(db, mem, wid, id, action, nonce, winner)
  {
    hide GetBlock, CloseSealed;
  }

  // ---- opening ----

  lemma InstalledIs(p: Platform, db: Db, mem: Mem, law: Law, o: Opening, s: Senses)
    requires ClockTextFaithful(p)
    ensures var e := Installed(p, db, mem, law, o, s);
      && |e.steps| == 4 && e.steps[0] == SaveWindow(db, o.wid, WindowOf(p, law, o, s))
      && Framed(e.steps[0], e.steps[1]) && Framed(e.steps[1], e.steps[2]) && e.steps[3] == SetActiveWindow(e.steps[2], o.wid)
      && e.mem.active == Some(ActiveOf(law, o))
      && WindowOf(p, law, o, s).result.None? && Describes(p, WindowOf(p, law, o, s), ActiveOf(law, o)) && ActiveOf(law,
          o).wid == o.wid
  {
    ParseIntText(o.nZeros);
    hide ParseInt, IntText, BaseOf, Remove;
  }

  lemma OtherMove(p: Platform, world: World, d: Db)
    requires Framed(world.db, d)
    ensures Possible(p, world, Other(d)) && Next(p, world, Other(d)) == world.(db := d)
  {
    hide Framed;
  }

  /** Numbering a window, recording it and setting the pointer are the moves Reserve, Save and Point; the two writes between
      are of no concern to the chain. */
  lemma OpeningIsMoves(p: Platform, world: World, who: string, mem: Mem, law: Law, o: Opening, s: Senses, rest: string)
    requires ClockTextFaithful(p) && world.leaders(who).Nobody? && o.wid == WindowId(world.db.counter + 1, rest)
    ensures var e := Installed(p, NextWindowNumber(world.db), mem, law, o, s);
      && |e.steps| == 4
      && var recording := [Reserve(who)] + [Save(who, rest, WindowOf(p, law, o, s), ActiveOf(law, o))];
         var moves := recording + [Other(e.steps[1])] + [Other(e.steps[2])] + [Point(who)];
         && PossibleRun(p, world, recording) && AfterMoves(p, world, recording).db == e.steps[0]
         && PossibleRun(p, world, moves) && AfterMoves(p, world, moves).db == e.steps[3]
         && Between(AfterMoves(p, world, moves).leaders(who), e.mem)
  {
    hide *;
    var e := Installed(p, NextWindowNumber(world.db), mem, law, o, s);
    InstalledIs(p, NextWindowNumber(world.db), mem, law, o, s);
    var save := Save(who, rest, WindowOf(p, law, o, s), ActiveOf(law, o));
    ReserveIs(p, world, who);
    NumberedDb(world.db);
    LeadsOne(p, world, Reserve(who));
    var w1 := Next(p, world, Reserve(who));
    SavePossible(p, w1, who, rest, WindowOf(p, law, o, s), ActiveOf(law, o));
    SaveIs(p, w1, who, rest, WindowOf(p, law, o, s), ActiveOf(law, o));
    LeadsOne(p, w1, save);
    var w2 := Next(p, w1, save);
    LeadsThen(p, world, [Reserve(who)], w1, [save], w2);
    LeadsIs(p, world, [Reserve(who)] + [save], w2);
    OtherMove(p, w2, e.steps[1]);
    LeadsOne(p, w2, Other(e.steps[1]));
    var w3 := Next(p, w2, Other(e.steps[1]));
    LeadsThen(p, world, [Reserve(who)] + [save], w2, [Other(e.steps[1])], w3);
    OtherMove(p, w3, e.steps[2]);
    LeadsOne(p, w3, Other(e.steps[2]));
    var w4 := Next(p, w3, Other(e.steps[2]));
    LeadsThen(p, world, [Reserve(who)] + [save] + [Other(e.steps[1])], w3, [Other(e.steps[2])], w4);
    PointIs(p, w4, who);
    PointedAt(w4.db, o.wid);
    LeadsOne(p, w4, Point(who));
    var w5 := Next(p, w4, Point(who));
    LeadsThen(p, world, [Reserve(who)] + [save] + [Other(e.steps[1])] + [Other(e.steps[2])], w4, [Point(who)], w5);
    LeadsIs(p, world, [Reserve(who)] + [save] + [Other(e.steps[1])] + [Other(e.steps[2])] + [Point(who)], w5);
    BetweenIs(w5.leaders(who), e.mem);
  }

  lemma NumberedDb(db: Db)
    ensures NextWindowNumber(db) == db.(counter := db.counter + 1)
  {
  }

  lemma PointedAt(db: Db, wid: string)
    ensures SetActiveWindow(db, wid) == db.(active := Some(wid))
  {
  }

  // ---- closing ----

  lemma QuietIsFramed(a: Db, b: Db)
    requires Quiet(a, b)
    ensures Framed(a, b)
  {
  }

  lemma ResultIsFramed(db: Db, wid: string, result: WindowResult, nonce: Option<int>, winner: Option<string>)
    ensures Framed(db, SetWindowResult(db, wid, result, nonce, winner))
  {
    hide *;
    if wid in db.windows {
      ResultWrites(db, wid, result, nonce, winner);
      ResolvedIsFramed(db, wid, SetWindowResult(db, wid, result, nonce, winner).windows[wid]);
    } else {
      NoResult(db, wid, result, nonce, winner);
      QuietSelf(db);
      QuietIsFramed(db, db);
    }
  }

  lemma NoResult(db: Db, wid: string, result: WindowResult, nonce: Option<int>, winner: Option<string>)
    requires wid !in db.windows
    ensures SetWindowResult(db, wid, result, nonce, winner) == db
  {
  }

  lemma ResultWrites(db: Db, wid: string, result: WindowResult, nonce: Option<int>, winner: Option<string>)
    requires wid in db.windows
    ensures var d := SetWindowResult(db, wid, result, nonce, winner);
      && wid in d.windows && d == db.(windows := db.windows[wid := d.windows[wid]])
      && RecordAlike(db.windows[wid], d.windows[wid])
  {
  }

  lemma ResolvedIsFramed(db: Db, wid: string, w: Window)
    requires wid in db.windows
    requires RecordAlike(db.windows[wid], w)
    ensures Framed(db, db.(windows := db.windows[wid := w]))
  {
    var after := db.windows[wid := w];
    assert after.Keys == db.windows.Keys;
    assert SeenAlike(db.windows, after);
    hide SeenAlike;
  }

  /** Writes to laws, queue and the like, and clearing the pointer. */
  predicate Quiet(a: Db, b: Db) {
    && b.chain == a.chain && b.blocks == a.blocks && b.counter == a.counter && b.windows == a.windows && b.guards == a.guards
    && (b.active == a.active || b.active == None)
  }

  lemma QuietSelf(db: Db)
    ensures Quiet(db, db)
  {
  }

  lemma StatusIsQuiet(db: Db, id: string, status: Status)
    ensures Quiet(db, SetLawStatus(db, id, status))
  {
  }

  lemma QueueIsQuiet(db: Db, id: string)
    ensures Quiet(db, EnqueueLaw(db, id)) && Quiet(db, ClearActiveWindow(db))
  {
  }

  lemma StatusIsFramed(db: Db, id: string, status: Status)
    ensures Framed(db, SetLawStatus(db, id, status)) && Framed(db, EnqueueLaw(db, id)) && Framed(db, ClearActiveWindow(db))
  {
    hide *;
    StatusIsQuiet(db, id, status);
    QueueIsQuiet(db, id);
    QuietIsFramed(db, SetLawStatus(db, id, status));
    QuietIsFramed(db, EnqueueLaw(db, id));
    QuietIsFramed(db, ClearActiveWindow(db));
  }

  lemma LostShape(db: Db, mem: Mem, a: Active)
    ensures var d1 := SetLawStatus(db, a.lawId, PendingQueue);
      var d2 := EnqueueLaw(d1, a.lawId);
      SealLost(db, mem, a).steps == [d1, d2, ClearActiveWindow(d2)]
  {
  }

  /** Closing a sealed window, or giving its law back when the append was refused, changes nothing the chain sees. */
  lemma ClosingIsOther(db: Db, mem: Mem, a: Active, nonce: int, winner: string)
    ensures var e := CloseSealed(db, mem, a.wid, a.lawId, a.action, nonce, winner);
      |e.steps| == 3 && Framed(db, e.steps[0]) && Framed(e.steps[0], e.steps[1]) && Framed(e.steps[1], e.steps[2])
    ensures var e := SealLost(db, mem, a);
      |e.steps| == 3 && Framed(db, e.steps[0]) && Framed(e.steps[0], e.steps[1]) && Framed(e.steps[1], e.steps[2])
  {
    hide *;
    CloseSealedShape(db, mem, a.wid, a.lawId, a.action, nonce, winner);
    var status := if a.action == Derogacion then Repealed else Promulgated;
    var d1 := SetWindowResult(db, a.wid, Sealed, Some(nonce), Some(winner));
    ResultIsFramed(db, a.wid, Sealed, Some(nonce), Some(winner));
    StatusIsFramed(d1, a.lawId, status);
    StatusIsFramed(SetLawStatus(d1, a.lawId, status), a.lawId, status);
    LostShape(db, mem, a);
    var l1 := SetLawStatus(db, a.lawId, PendingQueue);
    StatusIsFramed(db, a.lawId, PendingQueue);
    StatusIsFramed(l1, a.lawId, PendingQueue);
    StatusIsFramed(EnqueueLaw(l1, a.lawId), a.lawId, PendingQueue);
  }
}
