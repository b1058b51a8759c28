/**
 A failover is invisible to the miners: as long as the window they work on is open, whoever leads holds exactly the
 window that was published, and gives every nonce the verdict the first leader would have given.
 */
module NctFailover {
  import opened Wrappers
  import opened Platform
  import opened Text
  import opened Categories
  import opened Challenge
  import opened Laws
  import opened Chain
  import opened Store
  import opened Nct
  import opened NctInvariant
  import opened NctHandlers
  import opened NctRuns
  import opened NctSafety
  import opened NctRecords
  import opened NctConservation
  import opened NctPlaces
  import Deliberation
  import Difficulty

  // ---- what happens to a nonce ----

  lemma Verdict(p: Platform, cfg: Config, db: Db, mem: Mem, s: Senses, m: Solution)
    requires ValidConfig(cfg)
    ensures var e := HandleNonce(p, cfg, db, mem, s, m);
      if mem.isLeader && mem.active.Some? && Acceptable(p, mem.active.value, s.now, m) && mem.active.value.wid !in db.guards then
        var a := mem.active.value;
        var d := TrySealWindow(db, a.wid, WinnerName(m.winner)).0;
        && e == AndMaybeOpen(p, cfg, db, Then(Exec([d], mem, []), Seal(p, d, mem, s, a, m.nonce, m.winner)), s)
        && VerifyNonce(p, a.base, m.nonce, a.nZeros) && m.wid == a.wid
      else e == Idle(mem)
  {
    hide AndMaybeOpen, Seal, VerifyNonce;
  }

  lemma AndMaybeOpenStarts(p: Platform, cfg: Config, db: Db, e: Exec, s: Senses)
    requires ValidConfig(cfg)
    ensures var all := AndMaybeOpen(p, cfg, db, e, s);
      && |all.steps| >= |e.steps| && all.steps[..|e.steps|] == e.steps
      && |all.out| >= |e.out| && all.out[..|e.out|] == e.out
  {
    hide MaybeOpen;
  }

  lemma BlockSays(p: Platform, db: Db, a: Active, nonce: int, winner: string, s: Senses)
    ensures var b := BlockOf(p, db, a, nonce, winner, s);
      && b.votingWindowId == a.wid && b.lawId == a.lawId && b.action == a.action && b.nonce == nonce
      && b.nZerosRequired == a.nZeros && b.winningNodeOrPool == WinnerName(winner)
  {
    hide LastBlockHash, WinnerName;
  }

  lemma SealedThree(db: Db, mem: Mem, wid: string, id: string, action: Action, nonce: int, winner: string)
    requires wid in db.windows && id in db.laws
    ensures var e := CloseSealed(db, mem, wid, id, action, nonce, winner);
      && |e.steps| == 3 && e.out == [WindowClosed(wid, Finished(Sealed))]
      && Blocks(e.steps[2]) == Blocks(db) && e.steps[2].active.None?
      && wid in e.steps[2].windows && e.steps[2].windows[wid].result == Some(Sealed)
      && e.steps[2].windows[wid].winningNonce == Some(nonce)
      && id in e.steps[2].laws && e.steps[2].laws[id].status == (if action == Derogacion then Repealed else Promulgated)
  {
    hide GetChain;
  }

  /** The block answers this message for this window. */
  predicate Answers(b: Block, a: Active, m: Solution) {
    && b.votingWindowId == m.wid == a.wid && b.nonce == m.nonce && b.lawId == a.lawId && b.action == a.action
    && b.nZerosRequired == a.nZeros && b.winningNodeOrPool == WinnerName(m.winner)
  }

  /** After five writes the chain has one more block, the answer; the window is sealed and its law decided. */
  ghost predicate SealsWith(db: Db, e: Exec, a: Active, m: Solution) {
    && |e.steps| >= 5 && e.out != [] && e.out[0] == WindowClosed(a.wid, Finished(Sealed))
    && (exists b: Block :: Blocks(e.steps[4]) == Blocks(db) + [b] && Answers(b, a, m))
    && a.wid in e.steps[4].windows && e.steps[4].windows[a.wid].result == Some(Sealed)
    && a.lawId in e.steps[4].laws
    && e.steps[4].laws[a.lawId].status == (if a.action == Derogacion then Repealed else Promulgated)
  }

  lemma SealsWithMore(db: Db, e: Exec, all: Exec, a: Active, m: Solution)
    requires SealsWith(db, e, a, m)
    requires |all.steps| >= |e.steps| && all.steps[..|e.steps|] == e.steps && |all.out| >= |e.out| && all.out[..|e.out|] == e.out
    ensures SealsWith(db, all, a, m)
  {
    hide Blocks, Answers;
    assert all.steps[..|e.steps|][4] == e.steps[4] && all.out[..|e.out|][0] == e.out[0];
  }

  /** The first acceptable nonce that reaches the leader is the block of its window, and any other message changes
      nothing: with one leader the guard is always free and the append is never refused. */
  lemma FirstValidNonceSeals(p: Platform, cfg: Config, db: Db, mem: Mem, s: Senses, m: Solution)
    requires Assumptions(p, cfg) && Durable(p, db) && InStep(p, db, mem)
    ensures var e := HandleNonce(p, cfg, db, mem, s, m);
      if mem.isLeader && mem.active.Some? && Acceptable(p, mem.active.value, s.now, m)
      then SealsWith(db, e, mem.active.value, m)
      else e == Idle(mem)
  {
    hide *;
    AssumedConfig(p, cfg);
    Verdict(p, cfg, db, mem, s, m);
    if mem.isLeader && mem.active.Some? && Acceptable(p, mem.active.value, s.now, m) {
      var a := mem.active.value;
      ActiveMemory(p, db, mem);
      FreeGuard(p, db, a);
      GuardTaken(p, db, a, WinnerName(m.winner));
      var d := TrySealWindow(db, a.wid, WinnerName(m.winner)).0;
      SealedBlock(p, db, d, mem, s, a, m);
      var e := Then(Exec([d], mem, []), Seal(p, d, mem, s, a, m.nonce, m.winner));
      AndMaybeOpenStarts(p, cfg, db, e, s);
      SealsWithMore(db, e, HandleNonce(p, cfg, db, mem, s, m), a, m);
    }
  }

  lemma FreeGuard(p: Platform, db: Db, a: Active)
    requires ActiveInStep(p, db, a)
    ensures a.wid !in db.guards
  {
  }

  lemma GuardBlocks(db: Db, wid: string, winner: string)
    ensures Blocks(TrySealWindow(db, wid, winner).0) == Blocks(db)
  {
  }

  /** Guard, append, result, status, pointer: what the five writes of a seal leave. */
  lemma SealedBlock(p: Platform, db: Db, d: Db, mem: Mem, s: Senses, a: Active, m: Solution)
    requires CollisionFree(p) && Durable(p, d) && mem.deliberation.None? && d == TrySealWindow(db, a.wid, WinnerName(m.winner)).0
    requires d.active == Some(a.wid) && a.wid in d.windows && d.windows[a.wid].result.None? && !LastIs(Blocks(d), a.wid)
    requires Rebuilt(p, a.wid, d.windows[a.wid], GetLaw(d, d.windows[a.wid].lawId)) == Some(a)
    requires VerifyNonce(p, a.base, m.nonce, a.nZeros) && m.wid == a.wid
    ensures var e := Then(Exec([d], mem, []), Seal(p, d, mem, s, a, m.nonce, m.winner));
      |e.steps| == 5 && |e.out| == 1 && SealsWith(db, e, a, m)
  {
    hide *;
    var b := BlockOf(p, d, a, m.nonce, m.winner, s);
    BlockSays(p, d, a, m.nonce, m.winner, s);
    BlockIsFromWindow(p, d, a, m.nonce, m.winner, s);
    RebuiltFrom(p, a.wid, d.windows[a.wid], GetLaw(d, d.windows[a.wid].lawId), a);
    PointedLawHeld(p, d, a.wid);
    PointedLawKnown(p, d, a.wid);
    AppendWrite(p, d, b);
    SealShape(p, d, mem, s, a, m.nonce, m.winner);
    GuardBlocks(db, a.wid, WinnerName(m.winner));
    var d' := AppendBlock(d, b).0;
    AppendLawsSame(d, b);
    SealedThree(d', mem, a.wid, a.lawId, a.action, m.nonce, m.winner);
    ThenAll(Exec([d'], mem, []), CloseSealed(d', mem, a.wid, a.lawId, a.action, m.nonce, m.winner));
    ThenAll(Exec([d], mem, []), Seal(p, d, mem, s, a, m.nonce, m.winner));
    assert Blocks(d') == Blocks(db) + [b];
    SealsWithFrom(db, Then(Exec([d], mem, []), Seal(p, d, mem, s, a, m.nonce, m.winner)), a, m, b);
  }

  lemma SealsWithFrom(db: Db, e: Exec, a: Active, m: Solution, b: Block)
    requires |e.steps| == 5 && e.out == [WindowClosed(a.wid, Finished(Sealed))]
    requires Blocks(e.steps[4]) == Blocks(db) + [b] && b.votingWindowId == m.wid == a.wid && b.nonce == m.nonce
    requires b.lawId == a.lawId && b.action == a.action && b.nZerosRequired == a.nZeros && b.winningNodeOrPool == WinnerName(m.winner)
    requires a.wid in e.steps[4].windows && e.steps[4].windows[a.wid].result == Some(Sealed)
    requires a.lawId in e.steps[4].laws
    requires e.steps[4].laws[a.lawId].status == (if a.action == Derogacion then Repealed else Promulgated)
    ensures SealsWith(db, e, a, m)
  {
    hide Blocks;
    assert Answers(b, a, m);
  }

  lemma AppendLawsSame(db: Db, b: Block)
    ensures AppendBlock(db, b).0.laws == db.laws && AppendBlock(db, b).0.windows == db.windows
  {
    hide ToFields;
  }

  lemma ThenAll(e: Exec, next: Exec)
    ensures Then(e, next).steps == e.steps + next.steps && Then(e, next).out == e.out + next.out
  {
  }

  // ---- the open window through takeovers ----

  /** Nobody has closed the window yet. */
  ghost predicate Open(db: Db, wid: string) {
    wid in db.windows && db.windows[wid].result.None? && !FromWid(Blocks(db), wid)
  }

  ghost predicate PointedAt(db: Db, wid: string) {
    wid in db.windows && (Open(db, wid) ==> db.active == Some(wid))
  }

  ghost predicate AllPointed(steps: seq<Db>, wid: string) {
    forall i :: 0 <= i < |steps| ==> PointedAt(steps[i], wid)
  }

  /** While the window is open the pointer is on it, and a leader has a window. */
  ghost predicate Attended(db: Db, mem: Mem, wid: string) {
    PointedAt(db, wid) && (Open(db, wid) && mem.isLeader ==> mem.active.Some?)
  }

  lemma ClosedStays(db: Db, d: Db, wid: string)
    requires Kept(db, d) && wid in db.windows && !Open(db, wid)
    ensures wid in d.windows && !Open(d, wid) && PointedAt(d, wid)
  {
    hide Blocks;
    if FromWid(Blocks(db), wid) {
      var i :| 0 <= i < |Blocks(db)| && Blocks(db)[i].votingWindowId == wid;
      assert Blocks(d)[i] == Blocks(db)[i];
    }
  }

  lemma ClosedThroughout(db: Db, e: Exec, wid: string)
    requires AllKept(db, e.steps) && wid in db.windows && !Open(db, wid)
    ensures AllPointed(e.steps, wid) && !Open(Final(db, e), wid) && PointedAt(Final(db, e), wid)
  {
    hide Kept, Open;
    forall i | 0 <= i < |e.steps| ensures PointedAt(e.steps[i], wid) {
      ClosedStays(db, e.steps[i], wid);
    }
    KeptLast(db, e);
    ClosedStays(db, Final(db, e), wid);
  }

  lemma PointedThen(db: Db, e: Exec, next: Exec, wid: string)
    requires AllPointed(e.steps, wid) && AllPointed(next.steps, wid)
    ensures AllPointed(Then(e, next).steps, wid)
  {
    hide PointedAt;
  }

  lemma AttendedEnd(db: Db, e: Exec, next: Exec, wid: string)
    requires AllPointed(e.steps, wid) && AllPointed(next.steps, wid) && Attended(Final(Final(db, e), next), next.mem, wid)
    ensures var all := Then(e, next); AllPointed(all.steps, wid) && Attended(Final(db, all), all.mem, wid)
  {
    hide *;
    PointedThen(db, e, next, wid);
    FinalOfThen(db, e, next);
    ThenShape(e, next);
  }

  lemma IdlePointed(db: Db, mem: Mem, wid: string)
    requires Attended(db, mem, wid)
    ensures AllPointed(Idle(mem).steps, wid) && Attended(Final(db, Idle(mem)), Idle(mem).mem, wid)
  {
    hide PointedAt, Open;
  }

  lemma AttendedIs(db: Db, mem: Mem, wid: string)
    requires Attended(db, mem, wid)
    ensures wid in db.windows && (Open(db, wid) ==> db.active == Some(wid) && (mem.isLeader ==> mem.active.Some?))
  {
    hide Open;
  }

  lemma ClosedAttended(db: Db, mem: Mem, wid: string)
    requires PointedAt(db, wid) && !Open(db, wid)
    ensures Attended(db, mem, wid)
  {
  }

  lemma MaybeOpenIdles(p: Platform, cfg: Config, db: Db, mem: Mem, s: Senses)
    requires ValidConfig(cfg) && (mem.isLeader ==> mem.active.Some?)
    ensures MaybeOpen(p, cfg, db, mem, s) == Idle(mem)
  {
  }

  lemma MaybeOpenPointed(p: Platform, cfg: Config, db: Db, mem: Mem, s: Senses, wid: string)
    requires Assumptions(p, cfg) && Durable(p, db) && Attended(db, mem, wid)
    ensures var e := MaybeOpen(p, cfg, db, mem, s); AllPointed(e.steps, wid) && Attended(Final(db, e), e.mem, wid)
  {
    hide *;
    AssumedConfig(p, cfg);
    AttendedIs(db, mem, wid);
    if Open(db, wid) {
      MaybeOpenIdles(p, cfg, db, mem, s);
      IdlePointed(db, mem, wid);
    } else {
      var e := MaybeOpen(p, cfg, db, mem, s);
      MaybeOpenKept(p, cfg, db, mem, s);
      ClosedThroughout(db, e, wid);
      ClosedAttended(Final(db, e), e.mem, wid);
    }
  }

  lemma AndMaybeOpenPointed(p: Platform, cfg: Config, db: Db, e: Exec, s: Senses, wid: string)
    requires Assumptions(p, cfg) && Durable(p, Final(db, e)) && AllPointed(e.steps, wid) && Attended(Final(db, e), e.mem, wid)
    ensures var all := AndMaybeOpen(p, cfg, db, e, s); AllPointed(all.steps, wid) && Attended(Final(db, all), all.mem, wid)
  {
    hide Durable, AllPointed, Attended, MaybeOpen, Then;
    MaybeOpenPointed(p, cfg, Final(db, e), e.mem, s, wid);
    AttendedEnd(db, e, MaybeOpen(p, cfg, Final(db, e), e.mem, s), wid);
  }

  /** A closed window stays closed through a whole handler. */
  lemma ClosedHandled(p: Platform, cfg: Config, db: Db, mem: Mem, s: Senses, ev: Event, wid: string)
    requires Assumptions(p, cfg) && Durable(p, db) && InStep(p, db, mem) && FreshLaw(db, ev)
    requires wid in db.windows && !Open(db, wid)
    ensures var e := Handled(p, cfg, db, mem, s, ev); AllPointed(e.steps, wid) && Attended(Final(db, e), e.mem, wid)
  {
    hide *;
    AssumedConfig(p, cfg);
    var e := Handled(p, cfg, db, mem, s, ev);
    HandledKept(p, cfg, db, mem, s, ev);
    ClosedThroughout(db, e, wid);
    ClosedAttended(Final(db, e), e.mem, wid);
  }

  /** Writes that touch neither windows nor pointer nor chain. */
  predicate SamePointer(db: Db, steps: seq<Db>) {
    forall i :: 0 <= i < |steps| ==>
      steps[i].active == db.active && steps[i].windows == db.windows && steps[i].chain == db.chain && steps[i].blocks == db.blocks
  }

  lemma SamePointed(db: Db, e: Exec, wid: string)
    requires SamePointer(db, e.steps) && PointedAt(db, wid)
    ensures AllPointed(e.steps, wid) && PointedAt(Final(db, e), wid) && (Open(Final(db, e), wid) <==> Open(db, wid))
  {
    hide GetChain, FromWid;
    forall i | 0 <= i < |e.steps| ensures PointedAt(e.steps[i], wid) && (Open(e.steps[i], wid) <==> Open(db, wid)) {
      assert Blocks(e.steps[i]) == Blocks(db);
    }
  }

  lemma AttendedSame(db: Db, d: Db, mem: Mem, wid: string)
    requires PointedAt(d, wid) && mem.active.Some?
    ensures Attended(d, mem, wid)
  {
  }

  lemma EnqueueSame(cfg: Config, db: Db, mem: Mem, m: Proposal, category: string)
    ensures var e := EnqueuePromulgacion(cfg, db, mem, m, category); SamePointer(db, e.steps) && e.mem == mem
    ensures var e := EnqueueDerogacion(cfg, db, mem, m); SamePointer(db, e.steps) && e.mem == mem
  {
    hide NormalizeCategory, CooldownUntil;
  }

  lemma HandleProposalShape(p: Platform, cfg: Config, db: Db, mem: Mem, s: Senses, m: Proposal)
    requires ValidConfig(cfg)
    ensures var e := HandleProposal(p, cfg, db, mem, s, m);
      || e == Idle(mem)
      || (mem.isLeader && m.action == Derogacion && e == AndMaybeOpen(p, cfg, db, EnqueueDerogacion(cfg, db, mem, m), s))
      || (exists c :: mem.isLeader && m.action != Derogacion && e == AndMaybeOpen(p, cfg, db, EnqueuePromulgacion(cfg, db, mem, m, c), s))
  {
    hide AndMaybeOpen, EnqueueDerogacion, EnqueuePromulgacion, ValidateCategory;
  }

  lemma ProposalPointed(p: Platform, cfg: Config, db: Db, mem: Mem, s: Senses, m: Proposal, wid: string)
    requires Assumptions(p, cfg) && Durable(p, db) && InStep(p, db, mem) && Attended(db, mem, wid) && Open(db, wid)
    requires m.action == Promulgacion ==> m.lawId !in db.laws
    ensures var e := HandleProposal(p, cfg, db, mem, s, m); AllPointed(e.steps, wid) && Attended(Final(db, e), e.mem, wid)
  {
    hide *;
    AssumedConfig(p, cfg);
    HandleProposalShape(p, cfg, db, mem, s, m);
    IdlePointed(db, mem, wid);
    AttendedIs(db, mem, wid);
    PointedIs(db, mem, wid);
    var e := HandleProposal(p, cfg, db, mem, s, m);
    if e != Idle(mem) {
      if m.action == Derogacion {
        var first := EnqueueDerogacion(cfg, db, mem, m);
        EnqueueDerogacionSound(p, cfg, db, mem, m);
        EnqueueSame(cfg, db, mem, m, "");
        ProposalEnd(p, cfg, db, first, s, wid);
      } else {
        var c :| e == AndMaybeOpen(p, cfg, db, EnqueuePromulgacion(cfg, db, mem, m, c), s);
        var first := EnqueuePromulgacion(cfg, db, mem, m, c);
        EnqueuePromulgacionSound(p, cfg, db, mem, m, c);
        EnqueueSame(cfg, db, mem, m, c);
        ProposalEnd(p, cfg, db, first, s, wid);
      }
    }
  }

  lemma PointedIs(db: Db, mem: Mem, wid: string)
    requires Attended(db, mem, wid)
    ensures PointedAt(db, wid)
  {
  }

  lemma ProposalEnd(p: Platform, cfg: Config, db: Db, e: Exec, s: Senses, wid: string)
    requires Assumptions(p, cfg) && Sound(p, db, e) && SamePointer(db, e.steps) && PointedAt(db, wid) && e.mem.active.Some?
    ensures var all := AndMaybeOpen(p, cfg, db, e, s); AllPointed(all.steps, wid) && Attended(Final(db, all), all.mem, wid)
  {
    hide *;
    AssumedConfig(p, cfg);
    SoundFinal(p, db, e);
    SamePointed(db, e, wid);
    AttendedSame(db, Final(db, e), e.mem, wid);
    AndMaybeOpenPointed(p, cfg, db, e, s, wid);
  }

  lemma AppendCloses(p: Platform, db: Db, b: Block)
    requires Blocks(AppendBlock(db, b).0) == Blocks(db) + [b] && b.votingWindowId in db.windows
    ensures var d := AppendBlock(db, b).0; !Open(d, b.votingWindowId) && PointedAt(d, b.votingWindowId)
  {
    hide ToFields;
    var d := AppendBlock(db, b).0;
    assert Blocks(d)[|Blocks(db)|] == b;
    hide Blocks;
  }

  lemma SealPointed(p: Platform, db: Db, mem: Mem, s: Senses, a: Active, nonce: int, winner: string)
    requires CollisionFree(p) && Durable(p, db) && mem.deliberation.None?
    requires db.active == Some(a.wid) && a.wid in db.windows && db.windows[a.wid].result.None? && !LastIs(Blocks(db), a.wid)
    requires Rebuilt(p, a.wid, db.windows[a.wid], GetLaw(db, db.windows[a.wid].lawId)) == Some(a)
    requires VerifyNonce(p, a.base, nonce, a.nZeros)
    ensures var e := Seal(p, db, mem, s, a, nonce, winner); AllPointed(e.steps, a.wid) && Attended(Final(db, e), e.mem, a.wid)
  {
    hide *;
    var b := BlockOf(p, db, a, nonce, winner, s);
    BlockIsFromWindow(p, db, a, nonce, winner, s);
    RebuiltFrom(p, a.wid, db.windows[a.wid], GetLaw(db, db.windows[a.wid].lawId), a);
    PointedLawHeld(p, db, a.wid);
    AppendWrite(p, db, b);
    SealShape(p, db, mem, s, a, nonce, winner);
    AppendCloses(p, db, b);
    var d := AppendBlock(db, b).0;
    var close := CloseSealed(d, mem, a.wid, a.lawId, a.action, nonce, winner);
    CloseSealedKept(d, mem, a.wid, a.lawId, a.action, nonce, winner);
    AppendLawsSame(db, b);
    ClosedThroughout(d, close, a.wid);
    ClosedAttended(Final(d, close), close.mem, a.wid);
    OnePointed(db, d, mem, a.wid);
    AttendedEnd(db, Exec([d], mem, []), close, a.wid);
  }

  lemma OnePointed(db: Db, d: Db, mem: Mem, wid: string)
    requires PointedAt(d, wid)
    ensures AllPointed(Exec([d], mem, []).steps, wid) && Final(db, Exec([d], mem, [])) == d
  {
    hide PointedAt;
  }

  lemma GuardPointed(db: Db, wid: string, winner: string)
    requires PointedAt(db, wid)
    ensures PointedAt(TrySealWindow(db, wid, winner).0, wid) && PointedAt(ReleaseWindowSeal(db, wid), wid)
  {
    hide GetChain, FromWid;
    assert Blocks(TrySealWindow(db, wid, winner).0) == Blocks(db) && Blocks(ReleaseWindowSeal(db, wid)) == Blocks(db);
  }

  lemma NoncePointed(p: Platform, cfg: Config, db: Db, mem: Mem, s: Senses, m: Solution, wid: string)
    requires Assumptions(p, cfg) && Durable(p, db) && InStep(p, db, mem) && Attended(db, mem, wid) && Open(db, wid)
    ensures var e := HandleNonce(p, cfg, db, mem, s, m); AllPointed(e.steps, wid) && Attended(Final(db, e), e.mem, wid)
  {
    hide *;
    AssumedConfig(p, cfg);
    HandleNonceShape(p, cfg, db, mem, s, m);
    IdlePointed(db, mem, wid);
    AttendedIs(db, mem, wid);
    PointedIs(db, mem, wid);
    if mem.active.Some? && VerifyNonce(p, mem.active.value.base, m.nonce, mem.active.value.nZeros) {
      var a := mem.active.value;
      ActiveMemory(p, db, mem);
      GuardTaken(p, db, a, WinnerName(m.winner));
      ActiveWid(p, db, a);
      GuardPointed(db, wid, WinnerName(m.winner));
      var d := TrySealWindow(db, a.wid, WinnerName(m.winner)).0;
      var seal := Seal(p, d, mem, s, a, m.nonce, m.winner);
      SealSound(p, d, mem, s, a, m.nonce, m.winner);
      SoundFinal(p, d, seal);
      SealPointed(p, d, mem, s, a, m.nonce, m.winner);
      var head := Exec([d], mem, []);
      OnePointed(db, d, mem, wid);
      AttendedEnd(db, head, seal, wid);
      FinalOfThen(db, head, seal);
      AndMaybeOpenPointed(p, cfg, db, Then(head, seal), s, wid);
    }
  }

  lemma ActiveWid(p: Platform, db: Db, a: Active)
    requires ActiveInStep(p, db, a)
    ensures db.active == Some(a.wid)
  {
  }

  lemma ExpiredCloses(db: Db, mem: Mem, a: Active)
    requires a.wid in db.windows
    ensures var e := Expired(db, mem, a); AllPointed(e.steps, a.wid) && Attended(Final(db, e), e.mem, a.wid)
    ensures var e := ExpiredWithoutQuorum(db, mem, a); AllPointed(e.steps, a.wid) && Attended(Final(db, e), e.mem, a.wid)
  {
    hide Blocks, FromWid;
  }

  lemma DeadlinePointed(p: Platform, cfg: Config, db: Db, mem: Mem, s: Senses, wid: string)
    requires Assumptions(p, cfg) && Durable(p, db) && InStep(p, db, mem) && Attended(db, mem, wid) && Open(db, wid)
    ensures var e := CheckDeadline(p, cfg, db, mem, s); AllPointed(e.steps, wid) && Attended(Final(db, e), e.mem, wid)
  {
    hide *;
    AssumedConfig(p, cfg);
    CheckDeadlineShape(p, cfg, db, mem, s);
    IdlePointed(db, mem, wid);
    AttendedIs(db, mem, wid);
    if mem.active.Some? {
      var a := mem.active.value;
      ActiveMemory(p, db, mem);
      ActiveWid(p, db, a);
      ExpiredSound(p, db, mem, a);
      SoundFinal(p, db, Expired(db, mem, a));
      SoundFinal(p, db, ExpiredWithoutQuorum(db, mem, a));
      ExpiredCloses(db, mem, a);
      AndMaybeOpenPointed(p, cfg, db, Expired(db, mem, a), s, wid);
      AndMaybeOpenPointed(p, cfg, db, ExpiredWithoutQuorum(db, mem, a), s, wid);
    }
  }

  // ---- taking over an open window ----

  lemma OpenMeans(db: Db, wid: string)
    requires Open(db, wid)
    ensures wid in db.windows && db.windows[wid].result.None? && !LastIs(Blocks(db), wid)
  {
    hide Blocks;
  }

  lemma RecoverSame(db: Db, mem: Mem)
    ensures var e := RecoverDeliberation(db, mem);
      SamePointer(db, e.steps) && e.mem.active == mem.active && e.mem.isLeader == mem.isLeader
  {
    hide *;
    if db.deliberation.None? {
      RecoverNothing(db, mem);
      IdleIsSame(db, mem.(deliberation := None));
    } else {
      RecoverShape(db, mem);
      var id := db.deliberation.value.lawId;
      var d2 := ClearDeliberationDecisions(ClearDeliberation(db), id);
      ClearedIsSame(db, id);
      RequeuedIsSame(d2, mem, id);
    }
  }

  lemma IdleIsSame(db: Db, mem: Mem)
    ensures SamePointer(db, Idle(mem).steps) && Idle(mem).mem == mem
  {
  }

  lemma ClearedIsSame(db: Db, id: string)
    ensures var d1 := ClearDeliberation(db);
      var d2 := ClearDeliberationDecisions(d1, id);
      SamePointer(db, [d1, d2]) && forall steps :: SamePointer(d2, steps) ==> SamePointer(db, [d1, d2] + steps)
  {
  }

  lemma RequeuedIsSame(db: Db, mem: Mem, id: string)
    ensures SamePointer(db, Requeued(db, mem, id).steps) && SamePointer(db, [])
  {
  }

  /** The new leader resumes the open window and keeps it through the recovery of a deliberation. */
  lemma ResumePointed(p: Platform, db: Db, mem: Mem, wid: string)
    requires Durable(p, db) && mem.isLeader && mem.deliberation.None? && Open(db, wid) && db.active == Some(wid)
    ensures var e1 := Resume(p, db, mem);
      var e := Then(e1, RecoverDeliberation(Final(db, e1), e1.mem));
      && SamePointer(db, e.steps) && e.mem.active.Some?
  {
    hide *;
    OpenMeans(db, wid);
    ResumeShape(p, db, mem);
    PointerKnown(p, db);
    LastBlockShows(p, db, wid);
    RebuiltInStep(p, db, wid);
    var e1 := Resume(p, db, mem);
    ReleaseSame(db, wid, e1);
    RecoverSame(Final(db, e1), e1.mem);
    SameThen(db, e1, RecoverDeliberation(Final(db, e1), e1.mem));
    ThenShape(e1, RecoverDeliberation(Final(db, e1), e1.mem));
  }

  lemma ReleaseSame(db: Db, wid: string, e: Exec)
    requires e.steps == [ReleaseWindowSeal(db, wid)] || e.steps == []
    ensures SamePointer(db, e.steps)
  {
  }

  lemma SameThen(db: Db, e: Exec, next: Exec)
    requires SamePointer(db, e.steps) && SamePointer(Final(db, e), next.steps)
    ensures SamePointer(db, Then(e, next).steps)
  {
    assert e.steps != [] ==> SamePointer(db, e.steps) && Final(db, e) == e.steps[|e.steps| - 1];
  }

  lemma PromotionPointed(p: Platform, cfg: Config, db: Db, mem: Mem, s: Senses, wid: string)
    requires Assumptions(p, cfg) && Durable(p, db) && InStep(p, db, mem) && Attended(db, mem, wid) && Open(db, wid)
    ensures var e := BecomeLeader(p, cfg, db, mem, s); AllPointed(e.steps, wid) && Attended(Final(db, e), e.mem, wid)
  {
    hide *;
    AssumedConfig(p, cfg);
    AttendedIs(db, mem, wid);
    PointedIs(db, mem, wid);
    IdlePointed(db, mem, wid);
    BecomeLeaderShape(p, cfg, db, mem, s);
    if !mem.isLeader {
      FollowerIsBlank(p, db, mem);
      var leading := mem.(isLeader := true, lastAuthor := db.lastAuthor);
      var e1 := Resume(p, db, leading);
      var e2 := Then(e1, RecoverDeliberation(Final(db, e1), e1.mem));
      ResumePointed(p, db, leading, wid);
      ResumeRecoverSound(p, db, leading);
      SoundFinal(p, db, e2);
      SamePointed(db, e2, wid);
      AttendedSame(db, Final(db, e2), e2.mem, wid);
      var c := CheckDeadline(p, cfg, Final(db, e2), e2.mem, s);
      DeadlinePointed(p, cfg, Final(db, e2), e2.mem, s, wid);
      CheckDeadlineSound(p, cfg, Final(db, e2), e2.mem, s);
      SoundFinal(p, Final(db, e2), c);
      AttendedEnd(db, e2, c, wid);
      FinalOfThen(db, e2, c);
      AndMaybeOpenPointed(p, cfg, db, Then(e2, c), s, wid);
    }
  }

  // ---- runs ----

  lemma TicksIdle(p: Platform, cfg: Config, db: Db, mem: Mem, s: Senses)
    requires ValidConfig(cfg) && (mem.isLeader ==> mem.active.Some?)
    ensures mem.deliberation.None? ==> CheckDeliberation(p, cfg, db, mem, s) == Idle(mem)
    ensures MaybeOpen(p, cfg, db, mem, s) == Idle(mem)
  {
  }

  lemma NoDeliberation(p: Platform, db: Db, mem: Mem)
    requires InStep(p, db, mem) && (mem.isLeader ==> mem.active.Some?)
    ensures mem.deliberation.None?
  {
    hide ActiveInStep, AnnouncedInStep;
  }

  lemma HandledIs(p: Platform, cfg: Config, db: Db, mem: Mem, s: Senses, ev: Event)
    requires ValidConfig(cfg)
    ensures match ev
      case Proposed(m) => Handled(p, cfg, db, mem, s, ev) == HandleProposal(p, cfg, db, mem, s, m)
      case Answered(m) => Handled(p, cfg, db, mem, s, ev) == HandleNonce(p, cfg, db, mem, s, m)
      case DeliberationTick => Handled(p, cfg, db, mem, s, ev) == CheckDeliberation(p, cfg, db, mem, s)
      case DeadlineTick => Handled(p, cfg, db, mem, s, ev) == CheckDeadline(p, cfg, db, mem, s)
      case OpenTick => Handled(p, cfg, db, mem, s, ev) == MaybeOpen(p, cfg, db, mem, s)
      case Promoted => Handled(p, cfg, db, mem, s, ev) == BecomeLeader(p, cfg, db, mem, s)
  {
    hide HandleProposal, HandleNonce, CheckDeliberation, CheckDeadline, MaybeOpen, BecomeLeader;
  }

  lemma FreshProposal(db: Db, m: Proposal)
    requires FreshLaw(db, Proposed(m)) && m.action == Promulgacion
    ensures m.lawId !in db.laws
  {
  }

  lemma OpenHandled(p: Platform, cfg: Config, db: Db, mem: Mem, s: Senses, ev: Event, wid: string)
    requires Assumptions(p, cfg) && Durable(p, db) && InStep(p, db, mem) && FreshLaw(db, ev) && Attended(db, mem, wid)
    requires Open(db, wid)
    ensures var e := Handled(p, cfg, db, mem, s, ev); AllPointed(e.steps, wid) && Attended(Final(db, e), e.mem, wid)
  {
    hide *;
    AssumedConfig(p, cfg);
    AttendedIs(db, mem, wid);
    HandledIs(p, cfg, db, mem, s, ev);
    NoDeliberation(p, db, mem);
    TicksIdle(p, cfg, db, mem, s);
    IdlePointed(db, mem, wid);
    match ev
    case Proposed(m) =>
      if m.action == Promulgacion {
        FreshProposal(db, m);
      }
      ProposalPointed(p, cfg, db, mem, s, m, wid);
    case Answered(m) => NoncePointed(p, cfg, db, mem, s, m, wid);
    case DeliberationTick =>
    case DeadlineTick => DeadlinePointed(p, cfg, db, mem, s, wid);
    case OpenTick =>
    case Promoted => PromotionPointed(p, cfg, db, mem, s, wid);
  }

  lemma HandledPointed(p: Platform, cfg: Config, db: Db, mem: Mem, s: Senses, ev: Event, wid: string)
    requires Assumptions(p, cfg) && Durable(p, db) && InStep(p, db, mem) && FreshLaw(db, ev) && Attended(db, mem, wid)
    ensures var e := Handled(p, cfg, db, mem, s, ev); AllPointed(e.steps, wid) && Attended(Final(db, e), e.mem, wid)
  {
    hide *;
    AttendedIs(db, mem, wid);
    if Open(db, wid) {
      OpenHandled(p, cfg, db, mem, s, ev, wid);
    } else {
      ClosedHandled(p, cfg, db, mem, s, ev, wid);
    }
  }

  lemma PointedAtWrite(db: Db, e: Exec, k: nat, wid: string)
    requires PointedAt(db, wid) && AllPointed(e.steps, wid) && k <= |e.steps|
    ensures PointedAt(StoreAt(db, e, k), wid)
  {
    hide PointedAt;
  }

  lemma FollowerAttends(db: Db, mem: Mem, wid: string)
    requires PointedAt(db, wid) && !mem.isLeader
    ensures Attended(db, mem, wid)
  {
  }

  lemma NeutralAttends(db: Db, d: Db, mem: Mem, wid: string)
    requires Attended(db, mem, wid)
    requires d.active == db.active && d.windows == db.windows && d.chain == db.chain && d.blocks == db.blocks
    ensures Attended(d, mem, wid)
  {
    assert Blocks(d) == Blocks(db);
    hide Blocks, FromWid;
  }

  /** A process that this step starts as leader finds the window closed. */
  ghost predicate NotStartedOver(db: Db, step: Step, wid: string) {
    StartsLeading(step) ==> !Open(db, wid)
  }

  /** From i to j no process starts as leader while the window is open. */
  ghost predicate NeverStartedOver(systems: seq<System>, run: seq<Step>, i: nat, j: nat, wid: string) {
    forall k {:trigger run[k]} :: i <= k < j && k < |run| && k + 1 < |systems| ==> NotStartedOver(systems[k + 1].db, run[k], wid)
  }

  lemma NotStartedOverAt(systems: seq<System>, run: seq<Step>, i: nat, j: nat, k: nat, wid: string)
    requires NeverStartedOver(systems, run, i, j, wid) && i <= k < j && k < |run| && k + 1 < |systems|
    ensures NotStartedOver(systems[k + 1].db, run[k], wid)
  {
    hide NotStartedOver;
  }

  lemma NeverStartedOverWithin(systems: seq<System>, run: seq<Step>, i: nat, j: nat, k: nat, wid: string)
    requires NeverStartedOver(systems, run, i, j, wid) && i <= k <= j
    ensures NeverStartedOver(systems, run, i, k, wid)
  {
    hide NotStartedOver;
  }

  lemma StartAttends(db: Db, step: Step, wid: string)
    requires (step.Crash? || step.Replace?) && PointedAt(db, wid) && NotStartedOver(db, step, wid)
    ensures Attended(db, step.next, wid)
  {
    hide PointedAt, Open;
  }

  lemma StepAttends(p: Platform, cfg: Config, sys: System, step: Step, wid: string)
    requires Assumptions(p, cfg) && Durable(p, sys.db) && InStep(p, sys.db, sys.mem) && Legal(p, cfg, sys, step)
    requires NotStartedOver(After(p, cfg, sys, step).db, step, wid) && Attended(sys.db, sys.mem, wid)
    ensures var next := After(p, cfg, sys, step); Attended(next.db, next.mem, wid)
  {
    AssumedConfig(p, cfg);
    PointedIs(sys.db, sys.mem, wid);
    hide Durable, InStep, Handled, Attended, PointedAt, AllPointed, SteppedDown, Assumptions, NotStartedOver;
    match step
    case Handle(ev, s) => HandledPointed(p, cfg, sys.db, sys.mem, s, ev, wid);
    case Crash(ev, s, k, next) =>
      HandledPointed(p, cfg, sys.db, sys.mem, s, ev, wid);
      PointedAtWrite(sys.db, Handled(p, cfg, sys.db, sys.mem, s, ev), k, wid);
      StartAttends(StoreAt(sys.db, Handled(p, cfg, sys.db, sys.mem, s, ev), k), step, wid);
    case Replace(next) => StartAttends(sys.db, step, wid);
    case StepDown =>
      SteppedDownFollows(sys.mem);
      FollowerAttends(sys.db, SteppedDown(sys.mem), wid);
    case GuardLapses(other) => NeutralAttends(sys.db, ReleaseWindowSeal(sys.db, other), sys.mem, wid);
    case Vote(id, voter, decision) => NeutralAttends(sys.db, SetDeliberationDecision(sys.db, id, voter, decision), sys.mem, wid);
  }

  lemma {:induction false} RunAttends(p: Platform, cfg: Config, systems: seq<System>, run: seq<Step>, i: nat, j: nat, wid: string)
    requires Assumptions(p, cfg) && Execution(p, cfg, systems, run) && i <= j < |systems|
    requires NeverStartedOver(systems, run, i, j, wid)
    requires Durable(p, systems[i].db) && InStep(p, systems[i].db, systems[i].mem) && Attended(systems[i].db, systems[i].mem, wid)
    ensures Attended(systems[j].db, systems[j].mem, wid)
    decreases j
  {
    hide *;
    AssumedConfig(p, cfg);
    ExecutionLength(p, cfg, systems, run);
    if i < j {
      NeverStartedOverWithin(systems, run, i, j, j - 1, wid);
      RunAttends(p, cfg, systems, run, i, j - 1, wid);
      RunKeeps(p, cfg, systems, run, i, j - 1);
      TakeStep(p, cfg, systems, run, j - 1);
      NotStartedOverAt(systems, run, i, j, j - 1, wid);
      StepAttends(p, cfg, systems[j - 1], run[j - 1], wid);
    }
  }

  lemma ActiveAttended(p: Platform, db: Db, mem: Mem)
    requires InStep(p, db, mem) && mem.active.Some?
    ensures Attended(db, mem, mem.active.value.wid)
  {
    hide Blocks, Rebuilt;
  }

  /** Two memories in step with the same unchanged window record are the same window. */
  lemma SameWindow(p: Platform, db: Db, d: Db, a: Active, b: Active)
    requires ActiveInStep(p, db, a) && ActiveInStep(p, d, b) && a.wid == b.wid
    requires WindowsKept(db.windows, d.windows) && AuthorsKept(db.laws, d.laws) && db.windows[a.wid].lawId in db.laws
    ensures a == b
  {
    hide Blocks, ParseInt, NormalizeCategory;
  }

  lemma WindowLawKnown(p: Platform, db: Db, a: Active)
    requires Durable(p, db) && ActiveInStep(p, db, a)
    ensures db.windows[a.wid].lawId in db.laws
  {
  }

  /** Let a leader hold window a at some moment i of a run from an empty store. At any later moment j, after any number
      of crashes at any write and any successors, none of which was started as leader while a was open, if a is still
      open then whoever leads holds exactly a: an acceptable nonce is sealed into the chain and any other nonce is
      ignored, as by the first leader, at every instant. */
  lemma FailoverIsInvisible(p: Platform, cfg: Config, systems: seq<System>, run: seq<Step>, i: nat, j: nat, a: Active, s: Senses, m: Solution)
    requires Assumptions(p, cfg) && Execution(p, cfg, systems, run) && Initial(systems[0])
    requires i <= j < |systems| && systems[i].mem.active == Some(a) && NeverStartedOver(systems, run, i, j, a.wid)
    requires Open(systems[j].db, a.wid) && systems[j].mem.isLeader
    ensures systems[j].mem.active == Some(a)
    ensures var e := HandleNonce(p, cfg, systems[j].db, systems[j].mem, s, m);
      if Acceptable(p, a, s.now, m) then SealsWith(systems[j].db, e, a, m) else e == Idle(systems[j].mem)
  {
    hide *;
    AssumedConfig(p, cfg);
    var first, last := systems[i], systems[j];
    InitialKeeps(p, cfg, systems, run, i);
    InitialKeeps(p, cfg, systems, run, j);
    ActiveMemory(p, first.db, first.mem);
    ActiveAttended(p, first.db, first.mem);
    RunAttends(p, cfg, systems, run, i, j, a.wid);
    HistoryIsKept(p, cfg, systems, run, i, j);
    AttendedIs(last.db, last.mem, a.wid);
    var b := last.mem.active.value;
    ActiveMemory(p, last.db, last.mem);
    ActiveWid(p, last.db, b);
    WindowLawKnown(p, first.db, a);
    SameWindow(p, first.db, last.db, a, b);
    FirstValidNonceSeals(p, cfg, last.db, last.mem, s, m);
  }

  /** Whoever leads while window a is open holds it. */
  ghost predicate AlwaysHeld(systems: seq<System>, i: nat, a: Active) {
    forall j :: i <= j < |systems| && Open(systems[j].db, a.wid) && systems[j].mem.isLeader ==> systems[j].mem.active == Some(a)
  }

  lemma StartedBlank(p: Platform, cfg: Config, systems: seq<System>, run: seq<Step>, k: nat)
    requires ValidConfig(cfg) && Execution(p, cfg, systems, run) && k < |run| && StartsLeading(run[k])
    ensures |systems| == |run| + 1 && systems[k + 1].mem.isLeader && systems[k + 1].mem.active.None?
  {
    ExecutionLength(p, cfg, systems, run);
    TakeStep(p, cfg, systems, run, k);
    hide Execution, Handled;
  }

  lemma NotStartedOverIs(db: Db, step: Step, wid: string)
    ensures NotStartedOver(db, step, wid) <==> !StartsLeading(step) || !Open(db, wid)
  {
    hide Open;
  }

  /** The window is in the hands of every leader that meets it open exactly if no process starts as leader over it. */
  lemma InvisibleIff(p: Platform, cfg: Config, systems: seq<System>, run: seq<Step>, i: nat, a: Active)
    requires Assumptions(p, cfg) && Execution(p, cfg, systems, run) && Initial(systems[0])
    requires i < |systems| && systems[i].mem.active == Some(a)
    ensures AlwaysHeld(systems, i, a) <==> NeverStartedOver(systems, run, i, |run|, a.wid)
  {
    AssumedConfig(p, cfg);
    ExecutionLength(p, cfg, systems, run);
    hide Assumptions, Execution, Initial, Open, NotStartedOver, Acceptable, SealsWith, HandleNonce;
    if NeverStartedOver(systems, run, i, |run|, a.wid) {
      forall j | i <= j < |systems| && Open(systems[j].db, a.wid) && systems[j].mem.isLeader ensures systems[j].mem.active == Some(a) {
        HeldAtMoment(p, cfg, systems, run, i, j, a);
      }
    }
    if AlwaysHeld(systems, i, a) {
      forall k | i <= k < |run| ensures NotStartedOver(systems[k + 1].db, run[k], a.wid) {
        NotStartedOverIs(systems[k + 1].db, run[k], a.wid);
        if StartsLeading(run[k]) {
          StartedBlank(p, cfg, systems, run, k);
        }
      }
    }
  }

  lemma HeldAtMoment(p: Platform, cfg: Config, systems: seq<System>, run: seq<Step>, i: nat, j: nat, a: Active)
    requires Assumptions(p, cfg) && Execution(p, cfg, systems, run) && Initial(systems[0])
    requires i <= j < |systems| && systems[i].mem.active == Some(a) && NeverStartedOver(systems, run, i, |run|, a.wid)
    requires Open(systems[j].db, a.wid) && systems[j].mem.isLeader
    ensures systems[j].mem.active == Some(a)
  {
    hide *;
    AssumedConfig(p, cfg);
    ExecutionLength(p, cfg, systems, run);
    NeverStartedOverWithin(systems, run, i, |run|, j, a.wid);
    FailoverIsInvisible(p, cfg, systems, run, i, j, a, Senses(0, 0, [], [], ""), Solution("", 0, "", false, false, ""));
  }

  /** A start on a store that holds no window is over no window that is pointed at. */
  lemma HeldIfOpen(db: Db, wid: string)
    requires PointedAt(db, wid) && NobodyHeld(db)
    ensures !Open(db, wid)
  {
    hide Blocks, FromWid;
    assert Open(db, wid) ==> ViewOf(db, db.windows[wid].lawId).held;
  }

  /** So clean starts hide every failover. */
  lemma {:induction false} CleanStartsAreInvisible(p: Platform, cfg: Config, systems: seq<System>, run: seq<Step>, i: nat, j: nat, a: Active)
    requires Assumptions(p, cfg) && Execution(p, cfg, systems, run) && Initial(systems[0])
    requires i <= j < |systems| && systems[i].mem.active == Some(a) && CleanStarts(systems, run)
    ensures NeverStartedOver(systems, run, i, j, a.wid)
    decreases j
  {
    hide *;
    AssumedConfig(p, cfg);
    ExecutionLength(p, cfg, systems, run);
    if i == j {
      NothingStartedOver(systems, run, i, a.wid);
    } else {
      CleanStartsAreInvisible(p, cfg, systems, run, i, j - 1, a);
      InitialKeeps(p, cfg, systems, run, i);
      InitialKeeps(p, cfg, systems, run, j - 1);
      ActiveAttended(p, systems[i].db, systems[i].mem);
      RunAttends(p, cfg, systems, run, i, j - 1, a.wid);
      TakeStep(p, cfg, systems, run, j - 1);
      CleanAt(systems, run, j - 1);
      CleanIsNotOver(p, cfg, systems[j - 1], run[j - 1], a.wid);
      OneMoreStep(systems, run, i, j, a.wid);
    }
  }

  lemma NothingStartedOver(systems: seq<System>, run: seq<Step>, i: nat, wid: string)
    ensures NeverStartedOver(systems, run, i, i, wid)
  {
  }

  lemma OneMoreStep(systems: seq<System>, run: seq<Step>, i: nat, j: nat, wid: string)
    requires i < j && j - 1 < |run| && j < |systems|
    requires NeverStartedOver(systems, run, i, j - 1, wid) && NotStartedOver(systems[j].db, run[j - 1], wid)
    ensures NeverStartedOver(systems, run, i, j, wid)
  {
    hide NotStartedOver;
  }

  lemma CleanIsNotOver(p: Platform, cfg: Config, sys: System, step: Step, wid: string)
    requires Assumptions(p, cfg) && Durable(p, sys.db) && InStep(p, sys.db, sys.mem) && Legal(p, cfg, sys, step)
    requires CleanStart(After(p, cfg, sys, step).db, step) && Attended(sys.db, sys.mem, wid)
    ensures NotStartedOver(After(p, cfg, sys, step).db, step, wid)
  {
    AssumedConfig(p, cfg);
    PointedIs(sys.db, sys.mem, wid);
    hide Durable, InStep, Handled, Attended, PointedAt, AllPointed, Assumptions, NobodyHeld, NothingAnnounced, Open;
    if StartsLeading(step) {
      if step.Crash? {
        HandledPointed(p, cfg, sys.db, sys.mem, step.senses, step.ev, wid);
        PointedAtWrite(sys.db, Handled(p, cfg, sys.db, sys.mem, step.senses, step.ev), step.k, wid);
      }
      HeldIfOpen(After(p, cfg, sys, step).db, wid);
    }
  }

  // ---- frozen difficulty ----

  lemma OpenedBy(p: Platform, db: Db, mem: Mem, s: Senses, law: Law, f: Frozen)
    ensures var o := OpeningFrozen(db.counter + 1, law, mem, s, f);
      var e := OpenFrozen(p, db, mem, s, law, f);
      e.mem == mem.(active := Some(ActiveOf(law, o))) && e.out == [ChallengeOf(p, law, o, s)]
  {
    hide ActiveOf, ChallengeOf, WindowOf, OpeningFrozen;
  }

  lemma PauseEndsAlike(p: Platform, cfg: Config, db: Db, mem: Mem, s: Senses, a: Announced)
    requires a.lawId in db.laws && Judged(cfg, db, a).0 == Deliberation.Open && Judged(cfg, db, a).2 == Some(0)
    ensures var d := Final(db, PauseEnded(p, cfg, db, mem, s, a));
      && d.counter == db.counter && a.lawId in d.laws && d.laws[a.lawId] == db.laws[a.lawId].(silent := 0)
    ensures PauseEnded(p, cfg, db, mem, s, a).mem == mem.(deliberation := None) && PauseEnded(p, cfg, db, mem, s, a).out == []
  {
    hide Judged, ResultOf;
  }

  lemma OpenCountsNoSilence(cfg: Config, db: Db, a: Announced)
    requires Judged(cfg, db, a).0 == Deliberation.Open
    ensures Judged(cfg, db, a).2 == Some(0)
  {
    hide Deliberation.Resolve, DefaultsOf, VotersOf;
  }

  /** The window an open outcome gives, as the leader remembers it and as the miners are told. */
  lemma OutcomeOpens(p: Platform, cfg: Config, db: Db, mem: Mem, s: Senses, a: Announced)
    requires ValidConfig(cfg) && a.lawId in db.laws && Judged(cfg, db, a).0 == Deliberation.Open
    ensures var e := ResolveDeliberation(p, cfg, db, mem, s, a);
      var law := db.laws[a.lawId].(silent := 0);
      var o := OpeningFrozen(db.counter + 1, law, mem.(deliberation := None), s, Frozen(a, Judged(cfg, db, a).1));
      e.mem == mem.(deliberation := None, active := Some(ActiveOf(law, o))) && e.out == [ChallengeOf(p, law, o, s)]
  {
    hide *;
    OpenCountsNoSilence(cfg, db, a);
    PauseEndsAlike(p, cfg, db, mem, s, a);
    ResolveShape(p, cfg, db, mem, s, a);
    var e := PauseEnded(p, cfg, db, mem, s, a);
    var d := Final(db, e);
    OpenedBy(p, d, e.mem, s, d.laws[a.lawId], Frozen(a, Judged(cfg, db, a).1));
    ThenShape(e, OpenFrozen(p, d, e.mem, s, d.laws[a.lawId], Frozen(a, Judged(cfg, db, a).1)));
    ThenAll(e, OpenFrozen(p, d, e.mem, s, d.laws[a.lawId], Frozen(a, Judged(cfg, db, a).1)));
  }

  /** One announcement, two sets of answers, both opening a window: zeros and duration are the announced ones, and the
      two windows and challenges differ in who mines and in nothing else. */
  lemma FrozenDifficulty(p: Platform, cfg: Config, db1: Db, db2: Db, mem: Mem, s: Senses, a: Announced)
    requires ValidConfig(cfg) && a.lawId in db1.laws && db2 == db1.(decisions := db2.decisions)
    requires Judged(cfg, db1, a).0 == Deliberation.Open && Judged(cfg, db2, a).0 == Deliberation.Open
    ensures var e1, e2 := ResolveDeliberation(p, cfg, db1, mem, s, a), ResolveDeliberation(p, cfg, db2, mem, s, a);
      && e1.mem.active.Some? && e2.mem.active.Some? && |e1.out| == 1 && |e2.out| == 1
      && e1.out[0].ChallengePublished? && e2.out[0].ChallengePublished?
      && var w1, w2 := e1.mem.active.value, e2.mem.active.value;
         && w1.nZeros == a.nZerosRequired && w1.deadline == s.later + a.windowSeconds * MICROS
         && (a.nonceSpace != 0 ==> e1.out[0].nonceSpace == a.nonceSpace)
         && w2 == w1.(participants := w2.participants)
         && e2.out[0] == e1.out[0].(participants := w2.participants)
         && w1.participants == Some(Judged(cfg, db1, a).1) && w2.participants == Some(Judged(cfg, db2, a).1)
  {
    hide Judged, ResolveDeliberation, WindowId, BaseOf, NormalizeCategory;
    OutcomeOpens(p, cfg, db1, mem, s, a);
    OutcomeOpens(p, cfg, db2, mem, s, a);
  }

  /** Turning one answer into accept keeps the window open and drops nobody else from it. */
  lemma OneMoreAccepts(cfg: Config, db: Db, a: Announced, v: string)
    requires Judged(cfg, db, a).0 == Deliberation.Open && v in VotersOf(a)
    ensures var db2 := SetDeliberationDecision(db, a.lawId, v, Deliberation.ACCEPT);
      && Judged(cfg, db2, a).0 == Deliberation.Open && v in Judged(cfg, db2, a).1
      && forall w :: w in Judged(cfg, db, a).1 ==> w in Judged(cfg, db2, a).1
  {
    hide Deliberation.Resolve, DefaultsOf, VotersOf;
    Deliberation.AcceptingMoreIsMonotone(VotersOf(a), DeliberationDecisions(db, a.lawId), DefaultsOf(a.convocados), v);
  }
}
