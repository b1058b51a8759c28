/**
 The coordinator as the object it is: its methods update its fields and write the store one command at a time. Each is
 proved to do exactly what the specification of its handler says, write by write.
 */
module NctCoordinator {
  import opened Wrappers
  import opened Platform
  import opened Text
  import opened Challenge
  import opened Categories
  import opened Laws
  import opened Chain
  import opened Availability
  import opened Nct
  import opened RedisStore
  import Deliberation
  import Difficulty
  import Ratchet
  import Store
  import Turns

  /** Two stretches executed one after the other are one stretch. */
  lemma Continues(trace: seq<Store.Db>, out: seq<Message>, db: Store.Db, e: Exec, next: Exec)
    ensures (trace + e.steps) + next.steps == trace + Then(e, next).steps
    ensures (out + e.out) + next.out == out + Then(e, next).out
    ensures Final(Final(db, e), next) == Final(db, Then(e, next)) && Then(e, next).mem == next.mem
  {
  }

  lemma Silent(cfg: Config, db: Store.Db, mem: Mem, law: Law, voters: seq<Deliberation.Convocado>, veto: Exec, d: Store.Db, a: Store.Announced)
    ensures MeasuredFor(cfg, db, mem, law, voters).0.out == [] && Announce(d, mem, a).out == []
    ensures Announce(d, mem, a).mem == mem
  {
  }

  lemma Placed(trace: seq<Store.Db>, out: seq<Message>, db: Store.Db, e: Exec, next: Exec) returns (all: Exec)
    ensures all == Then(e, next)
    ensures (trace + e.steps) + next.steps == trace + all.steps && (out + e.out) + next.out == out + all.out
    ensures Final(Final(db, e), next) == Final(db, all) && all.mem == next.mem
  {
    all := Then(e, next);
    Continues(trace, out, db, e, next);
  }

  lemma Quietly(db: Store.Db, mem: Mem, id: string)
    ensures forall hash :: ThrownOut(db, mem, id, hash).mem == mem && ThrownOut(db, mem, id, hash).out == []
    ensures Requeued(db, mem, id).mem == mem && Requeued(db, mem, id).out == []
  {
  }

  lemma Nothing(db: Store.Db, mem: Mem)
    ensures Final(db, Idle(mem)) == db && Idle(mem).steps == [] && Idle(mem).out == [] && Idle(mem).mem == mem
  {
  }

  lemma OneWrite(db: Store.Db, d: Store.Db, mem: Mem)
    ensures Final(db, Exec([d], mem, [])) == d
  {
  }

  lemma SameSteps(db: Store.Db, e: Exec, mem: Mem)
    ensures Final(db, e.(mem := mem)) == Final(db, e)
  {
  }

  class NCTCoordinator {
    const p: Platform
    const cfg: Config
    const store: VoxChainStore

    var isLeader: bool
    var active: Option<Active>
    var deliberation: Option<Store.Announced>
    var lastAuthor: Option<string>
    var nZeros: int
    var nonceSpace: int
    /** What has been published. */
    var outbox: seq<Message>

    constructor (p: Platform, cfg: Config, store: VoxChainStore, isLeader: bool, nZeros: int, nonceSpace: int)
      requires ValidConfig(cfg)
      ensures this.p == p && this.cfg == cfg && this.store == store
      ensures Memory() == Fresh(store.r, isLeader, nZeros, nonceSpace) && outbox == []
    {
      this.p := p;
      this.cfg := cfg;
      this.store := store;
      this.isLeader := isLeader;
      active := None;
      deliberation := None;
      lastAuthor := store.r.lastAuthor;
      this.nZeros := nZeros;
      this.nonceSpace := nonceSpace;
      outbox := [];
    }

    function Memory(): Mem
      reads this
    {
      Mem(isLeader, active, deliberation, lastAuthor, nZeros, nonceSpace)
    }

    /** Since the old state exactly this was executed: these writes, this memory, these messages. */
    twostate predicate Did(e: Exec)
      reads this, store
    {
      && store.trace == old(store.trace) + e.steps && store.r == Final(old(store.r), e)
      && Memory() == e.mem && outbox == old(outbox) + e.out
    }

    // ---- turns and difficulty ----

    method TakeTurn(law: Law)
      modifies this, store
      ensures Did(TurnTaken(old(store.r), old(Memory()), law))
    {
      lastAuthor := Some(TurnHolder(law));
      store.SetLastAuthor(TurnHolder(law));
      store.PushWindowAuthor(TurnHolder(law));
    }

    /** _n_con_trinquete: the ratchet is read again from the store before every measurement. */
    method NWithRatchet(hashrate: real, scope: string) returns (n: int)
      modifies store
      ensures var s := RatchetAfter(cfg, old(store.r), scope, hashrate);
        s.current == Some(n) && store.Wrote(Store.SaveDifficultyState(old(store.r), scope, s))
    {
      var measured := Difficulty.DifficultyFor(hashrate, cfg.target);
      var ratchet := new Ratchet.DifficultyRatchet(cfg.decay);
      ratchet.Restore(Store.GetDifficultyState(store.r, scope));
      n := ratchet.Update(measured);
      store.SaveDifficultyState(scope, ratchet.StateOf());
    }

    method NForThisWindow(s: Senses)
      requires ValidConfig(cfg)
      modifies this, store
      ensures Did(Measured(cfg, old(store.r), old(Memory()), s))
    {
      if cfg.dynamic {
        var n := NWithRatchet(Deliberation.EffectiveHashrate(s.workers, s.teams, cfg.hps), "");
        nZeros := n;
        nonceSpace := Difficulty.NonceSpaceFor(n, cfg.coverage);
      }
    }

    // ---- opening a window ----

    /** The writes and the message of a window, whatever fixed its numbers. */
    method Install(law: Law, o: Opening, s: Senses)
      modifies this, store
      ensures Did(Installed(p, old(store.r), old(Memory()), law, o, s))
    {
      hide WindowOf, ActiveOf, ChallengeOf;
      store.SaveWindow(o.wid, WindowOf(p, law, o, s));
      store.SetLawStatus(law.lawId, InWindow);
      store.RemoveFromQueue(law.lawId);
      store.SetActiveWindow(o.wid);
      active := Some(ActiveOf(law, o));
      outbox := outbox + [ChallengeOf(p, law, o, s)];
    }

    method OpenWindow(law: Law, s: Senses)
      requires ValidConfig(cfg)
      modifies this, store
      ensures Did(OpenDirect(p, cfg, old(store.r), old(Memory()), s, law))
    {
      hide Installed, Measured, TurnTaken, OpeningDirect, Then, Final;
      ghost var db, mem, trace, out := store.r, Memory(), store.trace, outbox;
      var num := store.NextWindowNumber();
      ghost var d := store.r;
      ghost var head := Exec([d], mem, []);
      OneWrite(db, d, mem);
      NForThisWindow(s);
      ghost var e1 := Placed(trace, out, db, head, Measured(cfg, d, mem, s));
      var o := OpeningDirect(cfg, num, law, Memory(), s);
      Install(law, o, s);
      ghost var e2 := Placed(trace, out, db, e1, Installed(p, Final(db, e1), e1.mem, law, o, s));
      TakeTurn(law);
      Continues(trace, out, db, e2, TurnTaken(Final(db, e2), e2.mem, law));
    }

    method OpenFrozenWindow(law: Law, f: Frozen, s: Senses)
      modifies this, store
      ensures Did(OpenFrozen(p, old(store.r), old(Memory()), s, law, f))
    {
      hide Installed, OpeningFrozen;
      var num := store.NextWindowNumber();
      var o := OpeningFrozen(num, law, Memory(), s, f);
      Install(law, o, s);
    }

    // ---- deliberation ----

    /** Writes the answers of the voters that had vetoed the law in advance. */
    method WriteVetoes(id: string, voters: seq<Deliberation.Convocado>)
      modifies store
      ensures store.trace == old(store.trace) + VetoSteps(old(store.r), id, voters)
      ensures store.r == Final(old(store.r), Exec(VetoSteps(old(store.r), id, voters), Memory(), []))
    {
      ghost var before, steps := store.trace, VetoSteps(store.r, id, voters);
      ghost var db := store.r;
      for i := 0 to |voters|
        invariant store.trace + VetoSteps(store.r, id, voters[i..]) == before + steps
        invariant |before| <= |store.trace|
        invariant store.r == if |store.trace| == |before| then db else store.trace[|store.trace| - 1]
      {
        var c := voters[i];
        assert voters[i..][1..] == voters[i + 1..] && voters[i..][0] == c;
        if c.prevetoed {
          store.SetDeliberationDecision(id, c.voterId, Deliberation.REJECT);
        }
      }
    }

    /** The answers of an earlier deliberation go, and the vetoes given in advance are written. */
    method ClearAndVeto(id: string, voters: seq<Deliberation.Convocado>)
      modifies store
      ensures var d := Store.ClearDeliberationDecisions(old(store.r), id);
        var e := Exec([d] + VetoSteps(d, id, voters), Memory(), []);
        store.trace == old(store.trace) + e.steps && store.r == Final(old(store.r), e)
    {
      hide VetoSteps;
      store.ClearDeliberationDecisions(id);
      WriteVetoes(id, voters);
    }

    /** _n_para_convocados */
    method NForVoters(law: Law, voters: seq<Deliberation.Convocado>) returns (n: int)
      modifies store
      ensures var (e, nBase) := MeasuredFor(cfg, old(store.r), Memory(), law, voters);
        n == nBase && store.trace == old(store.trace) + e.steps && store.r == Final(old(store.r), e)
    {
      if !cfg.dynamic {
        return nZeros;
      }
      n := NWithRatchet(Deliberation.Biggest(voters), NormalizeCategory(Some(law.category)));
    }

    method Publish(a: Store.Announced)
      modifies store
      ensures var e := Announce(old(store.r), Memory(), a);
        store.trace == old(store.trace) + e.steps && store.r == Final(old(store.r), e)
    {
      store.SaveDeliberation(a);
      store.SetLawStatus(a.lawId, InDeliberation);
      store.RemoveFromQueue(a.lawId);
    }

    method StartDeliberation(law: Law, s: Senses)
      requires ValidConfig(cfg)
      modifies this, store
      ensures Did(Nct.StartDeliberation(p, cfg, old(store.r), old(Memory()), s, law))
    {
      hide VotersFor, MeasuredFor, AnnouncementOf, VetoSteps, Announce, TurnTaken, Final, Then;
      ghost var db, mem, trace, out := store.r, Memory(), store.trace, outbox;
      var voters := VotersFor(cfg, s, law);
      var nBase := NForVoters(law, voters);
      ghost var e1 := MeasuredFor(cfg, db, mem, law, voters).0;
      var a := AnnouncementOf(p, cfg, Memory(), s, law, voters, nBase);
      ClearAndVeto(law.lawId, voters);
      ghost var d := Store.ClearDeliberationDecisions(Final(db, e1), law.lawId);
      ghost var veto := Exec([d] + VetoSteps(d, law.lawId, voters), mem, []);
      ghost var e2 := Then(e1, veto);
      Continues(trace, out, db, e1, veto);
      Publish(a);
      ghost var announce := Announce(Final(db, e2), mem, a);
      ghost var e3 := Then(e2, announce);
      Continues(trace, out, db, e2, announce);
      Silent(cfg, db, mem, law, voters, veto, Final(db, e2), a);
      TakeTurn(law);
      Continues(trace, out, db, e3, TurnTaken(Final(db, e3), mem, law));
      deliberation := Some(a);
      SameSteps(db, Then(e3, TurnTaken(Final(db, e3), mem, law)), Memory());
    }

    method MaybeOpenWindow(s: Senses)
      requires ValidConfig(cfg)
      modifies this, store
      ensures Did(MaybeOpen(p, cfg, old(store.r), old(Memory()), s))
    {
      hide Nct.StartDeliberation, OpenDirect, NextLaw;
      if !isLeader || active.Some? || deliberation.Some? {
        return;
      }
      var law := NextLaw(cfg, store.r, Memory(), s);
      if law.None? {
        return;
      }
      if cfg.deliberationMicros > 0 {
        StartDeliberation(law.value, s);
      } else {
        OpenWindow(law.value, s);
      }
    }

    method CheckDeliberation(s: Senses)
      requires ValidConfig(cfg)
      modifies this, store
      ensures Did(Nct.CheckDeliberation(p, cfg, old(store.r), old(Memory()), s))
    {
      hide Nct.ResolveDeliberation, Deliberation.AllAnswered, VotersOf;
      if deliberation.None? {
        return;
      }
      var a := deliberation.value;
      var decisions := Store.DeliberationDecisions(store.r, a.lawId);
      if s.now < a.decideUntil && !Deliberation.AllAnswered(VotersOf(a), decisions) {
        return;
      }
      ResolveDeliberation(a, s);
    }

    /** The writes that end the pause. */
    method EndPause(a: Store.Announced, s: Senses) returns (outcome: Deliberation.Outcome, accepted: seq<string>)
      modifies this, store
      ensures Did(PauseEnded(p, cfg, old(store.r), old(Memory()), s, a))
      ensures outcome == Judged(cfg, old(store.r), a).0 && accepted == Judged(cfg, old(store.r), a).1
    {
      hide ResultOf, VotersOf, DefaultsOf, Deliberation.Resolve, SilentOf, Store.SetSilentDeliberations;
      hide Store.SaveDeliberationResult, Store.ClearDeliberation, Store.ClearDeliberationDecisions, Store.DeliberationDecisions;
      var decisions := Store.DeliberationDecisions(store.r, a.lawId);
      var resolved := Deliberation.Resolve(VotersOf(a), decisions, DefaultsOf(a.convocados));
      outcome, accepted := resolved.0, resolved.1;
      if outcome == Deliberation.Open {
        store.SetSilentDeliberations(a.lawId, 0);
      } else if outcome != Deliberation.Discard {
        var silences := SilentOf(store.r, a.lawId) + 1;
        store.SetSilentDeliberations(a.lawId, silences);
        if silences >= cfg.maxSilent && cfg.maxSilent > 0 {
          outcome := Deliberation.Unanswered;
        }
      }
      store.SaveDeliberationResult(a.lawId, ResultOf(p, a, outcome, decisions, s));
      store.ClearDeliberation();
      store.ClearDeliberationDecisions(a.lawId);
      deliberation := None;
    }

    method ThrowOut(id: string, textHash: Option<string>)
      modifies store
      ensures var e := ThrownOut(old(store.r), Memory(), id, textHash);
        store.trace == old(store.trace) + e.steps && store.r == Final(old(store.r), e)
    {
      store.SetLawStatus(id, Status.Discarded);
      if textHash.Some? {
        store.MarkTextHashDiscarded(textHash.value);
      }
    }

    method Requeue(id: string)
      modifies store
      ensures var e := Requeued(old(store.r), Memory(), id);
        store.trace == old(store.trace) + e.steps && store.r == Final(old(store.r), e)
    {
      store.SetLawStatus(id, PendingQueue);
      store.EnqueueLaw(id);
    }

    method ResolveDeliberation(a: Store.Announced, s: Senses)
      requires ValidConfig(cfg)
      modifies this, store
      ensures Did(Nct.ResolveDeliberation(p, cfg, old(store.r), old(Memory()), s, a))
    {
      hide PauseEnded, Judged, OpenFrozen, ThrownOut, Requeued, MaybeOpen, Then, Final;
      ghost var db, mem, trace, out := store.r, Memory(), store.trace, outbox;
      var outcome, accepted := EndPause(a, s);
      ghost var e := PauseEnded(p, cfg, db, mem, s, a);
      ghost var d := Final(db, e);
      var law := Store.GetLaw(store.r, a.lawId);
      Quietly(d, e.mem, a.lawId);
      if law.Some? {
        match outcome {
          case Open =>
            OpenFrozenWindow(law.value, Frozen(a, accepted), s);
            Continues(trace, out, db, e, OpenFrozen(p, d, e.mem, s, law.value, Frozen(a, accepted)));
            return;
          case Discard =>
            ThrowOut(a.lawId, Some(law.value.textHash));
            e := Placed(trace, out, db, e, ThrownOut(d, e.mem, a.lawId, Some(law.value.textHash)));
          case Unanswered =>
            ThrowOut(a.lawId, None);
            e := Placed(trace, out, db, e, ThrownOut(d, e.mem, a.lawId, None));
          case Requeue =>
            Requeue(a.lawId);
            e := Placed(trace, out, db, e, Requeued(d, e.mem, a.lawId));
        }
      }
      MaybeOpenWindow(s);
      Continues(trace, out, db, e, MaybeOpen(p, cfg, Final(db, e), e.mem, s));
    }

    // ---- proposals ----

    method QueuePromulgacion(m: Proposal, category: string)
      modifies this, store
      ensures Did(EnqueuePromulgacion(cfg, old(store.r), old(Memory()), m, category))
    {
      hide CooldownUntil, Store.SaveLaw, Store.SetLawRequestedBy;
      var reason := if m.textHash in store.r.discarded then Store.ReproposedIdentical else Store.ProposedNew;
      store.SaveLaw(m.lawId, m.author, m.textHash, m.createdAt, category, m.textCompressed, m.textOriginalLen);
      store.SetLawRequestedBy(m.lawId, m.author);
      store.EnqueueLaw(m.lawId);
      store.SetCooldown(m.author, CooldownUntil(cfg, store.r, reason), reason);
    }

    method QueueDerogacion(m: Proposal)
      modifies this, store
      ensures Did(EnqueueDerogacion(cfg, old(store.r), old(Memory()), m))
    {
      hide CooldownUntil, Store.SetLawAction, Store.SetLawRequestedBy;
      var target := Store.GetLaw(store.r, m.lawId);
      if target.None? || target.value.status != Promulgated {
        return;
      }
      store.SetLawAction(m.lawId, Derogacion);
      store.SetLawRequestedBy(m.lawId, m.author);
      store.EnqueueLaw(m.lawId);
      store.SetCooldown(m.author, CooldownUntil(cfg, store.r, Store.ProposedNew), Store.ProposedNew);
    }

    method HandleProposal(m: Proposal, s: Senses)
      requires ValidConfig(cfg)
      modifies this, store
      ensures Did(Nct.HandleProposal(p, cfg, old(store.r), old(Memory()), s, m))
    {
      hide EnqueueDerogacion, EnqueuePromulgacion, MaybeOpen, ValidateCategory, Then, Final;
      ghost var db, mem, trace, out := store.r, Memory(), store.trace, outbox;
      Nothing(db, mem);
      if !isLeader || m.author == "" || m.textHash == "" {
        return;
      }
      var category := ValidateCategory(m.category);
      if category.Failure? || !m.admitted || Store.IsInCooldown(store.r, m.author) {
        return;
      }
      ghost var e: Exec;
      if m.action == Derogacion {
        QueueDerogacion(m);
        e := EnqueueDerogacion(cfg, db, mem, m);
      } else {
        QueuePromulgacion(m, category.value);
        e := EnqueuePromulgacion(cfg, db, mem, m, category.value);
      }
      MaybeOpenWindow(s);
      Continues(trace, out, db, e, MaybeOpen(p, cfg, Final(db, e), e.mem, s));
    }

    // ---- sealing ----

    method CloseSealedWindow(wid: string, lawId: string, action: Action, nonce: int, winner: string)
      modifies this, store
      ensures Did(CloseSealed(old(store.r), old(Memory()), wid, lawId, action, nonce, winner))
    {
      hide Store.SetWindowResult, Store.SetLawStatus;
      store.SetWindowResult(wid, Store.Sealed, Some(nonce), Some(winner));
      store.SetLawStatus(lawId, if action == Derogacion then Repealed else Promulgated);
      store.ClearActiveWindow();
      active := None;
      outbox := outbox + [WindowClosed(wid, Finished(Store.Sealed))];
    }

    /** _seal, up to the next opening */
    method SealBlockOf(a: Active, nonce: int, winner: string, s: Senses)
      modifies this, store
      ensures Did(Seal(p, old(store.r), old(Memory()), s, a, nonce, winner))
    {
      hide BlockOf, CloseSealed, Store.AppendBlock, Store.SetLawStatus;
      var b := BlockOf(p, store.r, a, nonce, winner, s);
      var appended := store.AppendBlock(b);
      if !appended {
        store.SetLawStatus(a.lawId, PendingQueue);
        store.EnqueueLaw(a.lawId);
        store.ClearActiveWindow();
        active := None;
        outbox := outbox + [WindowClosed(a.wid, Interrupted)];
        return;
      }
      CloseSealedWindow(a.wid, a.lawId, a.action, nonce, winner);
    }

    method HandleNonceResponse(m: Solution, s: Senses)
      requires ValidConfig(cfg)
      modifies this, store
      ensures Did(HandleNonce(p, cfg, old(store.r), old(Memory()), s, m))
    {
      hide Seal, MaybeOpen, VerifyNonce, WinnerName, Then, Final;
      ghost var db, mem, trace, out := store.r, Memory(), store.trace, outbox;
      Nothing(db, mem);
      if !isLeader || active.None? {
        return;
      }
      var a := active.value;
      if m.wid != a.wid || s.now > a.deadline || m.revoked || !m.signatureOk {
        return;
      }
      if m.winner != "" && m.citizen == a.author {
        return;
      }
      if !VerifyNonce(p, a.base, m.nonce, a.nZeros) {
        return;
      }
      var won := store.TrySealWindow(a.wid, WinnerName(m.winner));
      if !won {
        return;
      }
      ghost var head := Exec([store.r], mem, []);
      OneWrite(db, store.r, mem);
      SealBlockOf(a, m.nonce, m.winner, s);
      ghost var e := Placed(trace, out, db, head, Seal(p, Final(db, head), mem, s, a, m.nonce, m.winner));
      MaybeOpenWindow(s);
      Continues(trace, out, db, e, MaybeOpen(p, cfg, Final(db, e), e.mem, s));
    }

    // ---- deadline ----

    method Expire(a: Active)
      modifies this, store
      ensures Did(Expired(old(store.r), old(Memory()), a))
    {
      hide Store.SetWindowResult, Store.SetLawStatus;
      var law := Store.GetLaw(store.r, a.lawId);
      store.SetWindowResult(a.wid, Store.ExpiredPending, None, None);
      store.SetLawStatus(a.lawId, Status.Discarded);
      if law.Some? {
        store.MarkTextHashDiscarded(law.value.textHash);
      }
      store.ClearActiveWindow();
      active := None;
      outbox := outbox + [WindowClosed(a.wid, Finished(Store.ExpiredPending))];
    }

    method ExpireWithoutQuorum(a: Active)
      modifies this, store
      ensures Did(ExpiredWithoutQuorum(old(store.r), old(Memory()), a))
    {
      hide Store.SetWindowResult, Store.SetLawStatus;
      store.SetWindowResult(a.wid, Store.ExpiredNoQuorum, None, None);
      store.SetLawStatus(a.lawId, PendingQueue);
      store.EnqueueLaw(a.lawId);
      store.ClearActiveWindow();
      active := None;
      outbox := outbox + [WindowClosed(a.wid, Finished(Store.ExpiredNoQuorum))];
    }

    method CheckDeadline(s: Senses)
      requires ValidConfig(cfg)
      modifies this, store
      ensures Did(Nct.CheckDeadline(p, cfg, old(store.r), old(Memory()), s))
    {
      hide Expired, ExpiredWithoutQuorum, MaybeOpen, QuorumOf, Then, Final;
      ghost var db, mem, trace, out := store.r, Memory(), store.trace, outbox;
      Nothing(db, mem);
      if active.None? || s.now <= active.value.deadline {
        return;
      }
      var a := active.value;
      var quorum := QuorumOf(cfg, s, ComoActiva(a));
      ghost var e: Exec;
      if quorum.Some? && !quorum.value.ok {
        ExpireWithoutQuorum(a);
        e := ExpiredWithoutQuorum(db, mem, a);
      } else {
        Expire(a);
        e := Expired(db, mem, a);
      }
      MaybeOpenWindow(s);
      Continues(trace, out, db, e, MaybeOpen(p, cfg, Final(db, e), e.mem, s));
    }

    // ---- taking over ----

    /** _devolver_ley_de_ventana */
    method GiveBack(wid: string, w: Store.Window)
      modifies this, store
      ensures Did(GivenBack(old(store.r), old(Memory()), wid, w))
    {
      store.ClearActiveWindow();
      active := None;
      outbox := outbox + [WindowClosed(wid, Interrupted)];
      var law := Store.GetLaw(store.r, w.lawId);
      if law.Some? && law.value.status == InWindow {
        store.SetLawStatus(w.lawId, PendingQueue);
        store.EnqueueLaw(w.lawId);
      }
    }

    /** _retomar_ventana_en_curso */
    method ResumeWindow()
      modifies this, store
      ensures Did(Resume(p, old(store.r), old(Memory())))
    {
      hide Rebuilt, CloseSealed, GivenBack, Store.GetBlock, Store.LastBlockHash;
      if store.r.active.None? {
        active := None;
        return;
      }
      var wid := store.r.active.value;
      if wid !in store.r.windows || store.r.windows[wid].result.Some? {
        var known := if wid in store.r.windows then Some(store.r.windows[wid].result.value) else None;
        store.ClearActiveWindow();
        active := None;
        if known.Some? {
          outbox := outbox + [WindowClosed(wid, Finished(known.value))];
        }
        return;
      }
      var w := store.r.windows[wid];
      var last := Store.GetBlock(store.r.blocks, Store.LastBlockHash(store.r));
      if last.Some? && last.value.votingWindowId == wid {
        CloseSealedWindow(wid, w.lawId, w.action, last.value.nonce, last.value.winningNodeOrPool);
        return;
      }
      if wid in store.r.guards {
        store.ReleaseWindowSeal(wid);
      }
      var a := Rebuilt(p, wid, w, Store.GetLaw(store.r, w.lawId));
      if a.Some? {
        active := a;
      } else {
        GiveBack(wid, w);
      }
    }

    /** _recuperar_deliberacion_huerfana */
    method RecoverOrphanDeliberation()
      modifies this, store
      ensures Did(RecoverDeliberation(old(store.r), old(Memory())))
    {
      deliberation := None;
      if store.r.deliberation.None? {
        return;
      }
      var id := store.r.deliberation.value.lawId;
      store.ClearDeliberation();
      store.ClearDeliberationDecisions(id);
      var law := Store.GetLaw(store.r, id);
      if law.Some? && law.value.status == InDeliberation {
        store.SetLawStatus(id, PendingQueue);
        store.EnqueueLaw(id);
      }
    }

    method BecomeLeader(s: Senses)
      requires ValidConfig(cfg)
      modifies this, store
      ensures Did(Nct.BecomeLeader(p, cfg, old(store.r), old(Memory()), s))
    {
      hide Resume, RecoverDeliberation, Nct.CheckDeadline, MaybeOpen, Then, Final;
      ghost var db, trace, out := store.r, store.trace, outbox;
      Nothing(db, Memory());
      if isLeader {
        return;
      }
      isLeader := true;
      lastAuthor := store.r.lastAuthor;
      ghost var e1 := Resume(p, db, Memory());
      ResumeWindow();
      RecoverOrphanDeliberation();
      ghost var e2 := Placed(trace, out, db, e1, RecoverDeliberation(Final(db, e1), e1.mem));
      CheckDeadline(s);
      ghost var e3 := Placed(trace, out, db, e2, Nct.CheckDeadline(p, cfg, Final(db, e2), e2.mem, s));
      MaybeOpenWindow(s);
      Continues(trace, out, db, e3, MaybeOpen(p, cfg, Final(db, e3), e3.mem, s));
    }

    /** Only memory is let go: the pointer in the store stays for the next leader. */
    method StepDown()
      modifies this
      ensures store.r == old(store.r) && store.trace == old(store.trace) && outbox == old(outbox)
      ensures Memory() == SteppedDown(old(Memory()))
    {
      if !isLeader {
        return;
      }
      isLeader := false;
      active := None;
      deliberation := None;
    }

    /** The periodic tick; each part reads the clock and the network anew. */
    method Tick(s1: Senses, s2: Senses, s3: Senses)
      requires ValidConfig(cfg)
      modifies this, store
      ensures var db, mem := old(store.r), old(Memory());
        var e1 := Nct.CheckDeliberation(p, cfg, db, mem, s1);
        var e2 := Then(e1, Nct.CheckDeadline(p, cfg, Final(db, e1), e1.mem, s2));
        Did(Then(e2, MaybeOpen(p, cfg, Final(db, e2), e2.mem, s3)))
    {
      hide Nct.CheckDeliberation, Nct.CheckDeadline, MaybeOpen, Then, Final;
      ghost var db, mem, trace, out := store.r, Memory(), store.trace, outbox;
      CheckDeliberation(s1);
      ghost var e1 := Nct.CheckDeliberation(p, cfg, db, mem, s1);
      CheckDeadline(s2);
      ghost var e2 := Placed(trace, out, db, e1, Nct.CheckDeadline(p, cfg, Final(db, e1), e1.mem, s2));
      MaybeOpenWindow(s3);
      Continues(trace, out, db, e2, MaybeOpen(p, cfg, Final(db, e2), e2.mem, s3));
    }
  }
}
