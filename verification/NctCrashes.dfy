/**
 At which write of which handler a crash loses which law: the gaps of the stretches put together over whole handlers.
 */
module NctCrashes {
  import opened Wrappers
  import opened Platform
  import opened Text
  import opened Challenge
  import opened Categories
  import opened Laws
  import opened Chain
  import opened Store
  import opened Nct
  import opened NctInvariant
  import opened NctHandlers
  import opened NctRuns
  import opened NctSafety
  import opened NctRecords
  import opened NctConservation
  import opened NctLedger
  import opened NctPlaces
  import opened NctGaps
  import opened NctFailover
  import opened NctQueue
  import Deliberation

  // ---- where each handler loses which law ----

  /** Opening: the write before the pointer, after the number and the measurement. With a pause before each window nothing
      is lost here. */
  predicate OpenGap(cfg: Config, db: Db, mem: Mem, s: Senses, k: int, id: string)
    requires ValidConfig(cfg)
  {
    && mem.isLeader && mem.active.None? && mem.deliberation.None? && cfg.deliberationMicros <= 0
    && var next := NextLaw(cfg, db, mem, s);
       && next.Some? && next.value.lawId == id
       && k == |Measured(cfg, NextWindowNumber(db), mem, s).steps| + 4
  }

  /** The gap of what is opened after e. */
  predicate AfterGap(cfg: Config, db: Db, e: Exec, s: Senses, k: int, id: string)
    requires ValidConfig(cfg)
  {
    OpenGap(cfg, Final(db, e), e.mem, s, k - |e.steps|, id)
  }

  predicate EventGap(lo: int, hi: int, lost: string, k: int, id: string) {
    id == lost && lo <= k <= hi
  }

  /** A new law is known before it is queued; a repeal leaves its law promulgated meanwhile. */
  predicate ProposalGap(cfg: Config, db: Db, mem: Mem, s: Senses, m: Proposal, k: int, id: string)
    requires ValidConfig(cfg)
  {
    var category := ValidateCategory(m.category);
    && mem.isLeader && m.author != "" && m.textHash != "" && category.Success? && m.admitted && !IsInCooldown(db, m.author)
    && if m.action == Derogacion then AfterGap(cfg, db, EnqueueDerogacion(cfg, db, mem, m), s, k, id)
       else
         || EventGap(1, 2, m.lawId, k, id)
         || AfterGap(cfg, db, EnqueuePromulgacion(cfg, db, mem, m, category.value), s, k, id)
  }

  /** From clear_deliberation until the law has its new place. */
  predicate ResolutionGap(p: Platform, cfg: Config, db: Db, mem: Mem, s: Senses, k: int, id: string)
    requires ValidConfig(cfg) && mem.deliberation.Some?
  {
    var a := mem.deliberation.value;
    var e := PauseEnded(p, cfg, db, mem, s, a);
    var d, n, law := Final(db, e), |e.steps|, GetLaw(Final(db, e), a.lawId);
    match Judged(cfg, db, a).0
    case Open => EventGap(n - 1, n + 4, a.lawId, k, id)
    case Discard =>
      || EventGap(n - 1, n, a.lawId, k, id)
      || AfterGap(cfg, db, Then(e, ThrownOut(d, e.mem, a.lawId, Some(law.GetOr(NO_LAW).textHash))), s, k, id)
    case Unanswered =>
      || EventGap(n - 1, n, a.lawId, k, id)
      || AfterGap(cfg, db, Then(e, ThrownOut(d, e.mem, a.lawId, None)), s, k, id)
    case Requeue =>
      || EventGap(n - 1, n + 1, a.lawId, k, id)
      || AfterGap(cfg, db, Then(e, Requeued(d, e.mem, a.lawId)), s, k, id)
  }

  const NO_LAW: Law := Law("", "", "", "", "", 0, "", PendingQueue, Promulgacion, "", 0)

  predicate DeliberationGap(p: Platform, cfg: Config, db: Db, mem: Mem, s: Senses, k: int, id: string)
    requires ValidConfig(cfg)
  {
    && mem.deliberation.Some?
    && var a := mem.deliberation.value;
       && (s.now >= a.decideUntil || Deliberation.AllAnswered(VotersOf(a), DeliberationDecisions(db, a.lawId)))
       && ResolutionGap(p, cfg, db, mem, s, k, id)
  }

  /** Guard and block are there, the result is written, the status is not. */
  predicate NonceGap(p: Platform, cfg: Config, db: Db, mem: Mem, s: Senses, m: Solution, k: int, id: string)
    requires ValidConfig(cfg)
  {
    && mem.isLeader && mem.active.Some? && Acceptable(p, mem.active.value, s.now, m)
    && var a := mem.active.value;
       var d := TrySealWindow(db, a.wid, WinnerName(m.winner)).0;
       || EventGap(3, 3, a.lawId, k, id)
       || AfterGap(cfg, db, Then(Exec([d], mem, []), Seal(p, d, mem, s, a, m.nonce, m.winner)), s, k, id)
  }

  /** The result is written and the law is neither marked nor queued again. */
  predicate DeadlineGap(cfg: Config, db: Db, mem: Mem, s: Senses, k: int, id: string)
    requires ValidConfig(cfg)
  {
    && mem.active.Some? && s.now > mem.active.value.deadline
    && var a := mem.active.value;
       var q := QuorumOf(cfg, s, ComoActiva(a));
       if q.Some? && !q.value.ok then
         EventGap(1, 2, a.lawId, k, id) || AfterGap(cfg, db, ExpiredWithoutQuorum(db, mem, a), s, k, id)
       else
         EventGap(1, 1, a.lawId, k, id) || AfterGap(cfg, db, Expired(db, mem, a), s, k, id)
  }

  /** Completing a window whose block is already there. */
  predicate ResumeGap(db: Db, k: int, id: string) {
    && k == 1 && Holds(db, id) && LastBlock(db).Some? && LastBlock(db).value.votingWindowId == db.active.value
  }

  /** The announcement is cleared and the law is not queued. */
  predicate RecoverGap(db: Db, k: int, id: string) {
    Orphan(db, id) && id !in db.queue && 1 <= k <= 3
  }

  predicate PromotionGap(p: Platform, cfg: Config, db: Db, mem: Mem, s: Senses, k: int, id: string)
    requires ValidConfig(cfg)
  {
    && !mem.isLeader
    && var e1 := Resume(p, db, Leading(db, mem));
       var e2 := TakeOver(p, db, mem);
       || ResumeGap(db, k, id)
       || RecoverGap(Final(db, e1), k - |e1.steps|, id)
       || DeadlineGap(cfg, Final(db, e2), e2.mem, s, k - |e2.steps|, id)
       || AfterGap(cfg, db, Then(e2, CheckDeadline(p, cfg, Final(db, e2), e2.mem, s)), s, k, id)
  }

  /** A crash after k writes of the handler of this event loses this law. */
  predicate InGap(p: Platform, cfg: Config, db: Db, mem: Mem, s: Senses, ev: Event, k: int, id: string)
    requires ValidConfig(cfg)
  {
    match ev
    case Proposed(m) => ProposalGap(cfg, db, mem, s, m, k, id)
    case Answered(m) => NonceGap(p, cfg, db, mem, s, m, k, id)
    case DeliberationTick => DeliberationGap(p, cfg, db, mem, s, k, id)
    case DeadlineTick => DeadlineGap(cfg, db, mem, s, k, id)
    case OpenTick => OpenGap(cfg, db, mem, s, k, id)
    case Promoted => PromotionGap(p, cfg, db, mem, s, k, id)
  }

  // ---- stretches ----

  lemma LosesThen(db: Db, e: Exec, next: Exec, k: nat, id: string)
    requires k <= |e.steps| + |next.steps|
    ensures |Then(e, next).steps| == |e.steps| + |next.steps|
    ensures LosesAt(db, Then(e, next), k, id)
      <==> if k <= |e.steps| then LosesAt(db, e, k, id) else LosesAt(Final(db, e), next, k - |e.steps|, id)
  {
    hide ViewOf, Lost;
  }

  lemma LosesAtStart(db: Db, e: Exec, id: string)
    ensures LosesAt(db, e, 0, id) <==> Lost(ViewOf(db, id))
    ensures LosesAt(db, e, |e.steps|, id) <==> Lost(ViewOf(Final(db, e), id))
  {
    hide ViewOf, Lost;
  }

  lemma NeutralLoses(db: Db, e: Exec, k: nat, id: string)
    requires Neutral(db, e.steps) && k <= |e.steps|
    ensures LosesAt(db, e, k, id) <==> Lost(ViewOf(db, id))
  {
    hide ViewOf, Lost;
  }

  lemma OthersUnmoved(db: Db, e: Exec, moved: string, k: nat, id: string)
    requires About(db, e.steps, moved) && k <= |e.steps| && id != moved
    ensures LosesAt(db, e, k, id) <==> Lost(ViewOf(db, id))
  {
    hide ViewOf, Lost;
  }

  lemma GapAt(db: Db, e: Exec, id: string, lo: int, hi: int, k: nat)
    requires GapIs(db, e, id, lo, hi) && k <= |e.steps|
    ensures LosesAt(db, e, k, id) <==> lo <= k <= hi
  {
    hide LosesAt;
  }

  /** A stretch about one law with a known gap, for every law. */
  lemma StretchGap(db: Db, e: Exec, moved: string, lo: int, hi: int, k: nat, id: string)
    requires About(db, e.steps, moved) && GapIs(db, e, moved, lo, hi) && k <= |e.steps| && !Lost(ViewOf(db, id))
    ensures LosesAt(db, e, k, id) <==> EventGap(lo, hi, moved, k, id)
  {
    hide *;
    EventGapIs(lo, hi, moved, k, id);
    if id == moved {
      GapAt(db, e, id, lo, hi, k);
    } else {
      OthersUnmoved(db, e, moved, k, id);
    }
  }

  lemma EventGapIs(lo: int, hi: int, lost: string, k: int, id: string)
    ensures EventGap(lo, hi, lost, k, id) <==> id == lost && lo <= k <= hi
  {
  }

  /** Writes that concern no law, and then a stretch with a known gap that ends with nothing lost. */
  lemma PrefixedGap(db: Db, e: Exec, next: Exec, moved: string, lo: int, hi: int, k: nat, id: string)
    requires Neutral(db, e.steps) && About(Final(db, e), next.steps, moved) && GapIs(Final(db, e), next, moved, lo, hi)
    requires 1 <= lo && hi < |next.steps| && !Lost(ViewOf(db, id))
    ensures !Lost(ViewOf(Final(db, Then(e, next)), id))
    ensures k <= |Then(e, next).steps| ==> (LosesAt(db, Then(e, next), k, id) <==> EventGap(|e.steps| + lo, |e.steps| + hi, moved, k, id))
  {
    hide *;
    var d, n := Final(db, e), |e.steps|;
    NeutralLoses(db, e, n, id);
    LosesAtStart(db, e, id);
    StretchGap(d, next, moved, lo, hi, |next.steps|, id);
    EventGapIs(lo, hi, moved, |next.steps|, id);
    LosesAtStart(d, next, id);
    FinalOfThen(db, e, next);
    ThenShape(e, next);
    if k <= |Then(e, next).steps| {
      LosesThen(db, e, next, k, id);
      EventGapIs(n + lo, n + hi, moved, k, id);
      if k <= n {
        NeutralLoses(db, e, k, id);
      } else {
        StretchGap(d, next, moved, lo, hi, k - n, id);
        EventGapIs(lo, hi, moved, k - n, id);
      }
    }
  }

  /** A stretch that ends with the law not lost, and then writes that concern no law. */
  lemma SuffixedGap(db: Db, e: Exec, next: Exec, k: nat, id: string)
    requires Neutral(Final(db, e), next.steps) && !Lost(ViewOf(Final(db, e), id)) && k <= |Then(e, next).steps|
    ensures LosesAt(db, Then(e, next), k, id) <==> k <= |e.steps| && LosesAt(db, e, k, id)
  {
    hide *;
    ThenShape(e, next);
    LosesThen(db, e, next, k, id);
    if k > |e.steps| {
      NeutralLoses(Final(db, e), next, k - |e.steps|, id);
    }
  }

  // ---- opening ----

  lemma OpenDirectGap(p: Platform, cfg: Config, db: Db, mem: Mem, s: Senses, law: Law, k: nat, id: string)
    requires Assumptions(p, cfg) && Durable(p, db) && Proper(db) && Whole(db, mem) && mem.isLeader
    requires mem.active.None? && mem.deliberation.None?
    requires law.lawId in db.queue && law.lawId in db.laws && db.laws[law.lawId] == law
    requires k <= |OpenDirect(p, cfg, db, mem, s, law).steps| && !Lost(ViewOf(db, id))
    ensures LosesAt(db, OpenDirect(p, cfg, db, mem, s, law), k, id)
      <==> law.lawId == id && k == |Measured(cfg, NextWindowNumber(db), mem, s).steps| + 4
  {
    AssumedConfig(p, cfg);
    hide *;
    var d := NextWindowNumber(db);
    OpenDirectShape(p, cfg, db, mem, s, law);
    var m := Measured(cfg, d, mem, s);
    var e1 := Then(Exec([d], mem, []), m);
    ThenShape(Exec([d], mem, []), m);
    NumberedAndMeasured(p, cfg, db, mem, s, law);
    var d1 := Final(db, e1);
    var o := OpeningDirect(cfg, d.counter, law, e1.mem, s);
    var open := Installed(p, d1, e1.mem, law, o, s);
    PointerInWindows(p, d1);
    OpeningGap(p, d1, e1.mem, law, o, s);
    InstalledViews(p, d1, e1.mem, law, o, s);
    InstalledMem(p, d1, e1.mem, law, o, s);
    PrefixedGap(db, e1, open, law.lawId, 3, 3, k, id);
    var e2 := Then(e1, open);
    ThenShape(e1, open);
    TurnTakenNeutral(Final(db, e2), e2.mem, law);
    SuffixedGap(db, e2, TurnTaken(Final(db, e2), e2.mem, law), k, id);
    EventGapIs(|e1.steps| + 3, |e1.steps| + 3, law.lawId, k, id);
  }

  /** The number and the measurement concern no law, and leave the law ready for its window. */
  lemma NumberedAndMeasured(p: Platform, cfg: Config, db: Db, mem: Mem, s: Senses, law: Law)
    requires Assumptions(p, cfg) && ValidConfig(cfg) && Durable(p, db) && Proper(db) && Whole(db, mem) && mem.isLeader
    requires mem.active.None? && mem.deliberation.None? && law.lawId in db.queue && law.lawId in db.laws
    ensures var n := NextWindowNumber(db);
      var e := Then(Exec([n], mem, []), Measured(cfg, n, mem, s));
      var d := Final(db, e);
      && Neutral(db, e.steps) && Durable(p, d) && NobodyHeld(d) && NothingAnnounced(d)
      && law.lawId in d.queue && law.lawId in d.laws && WindowId(n.counter, law.lawId) !in d.windows
  {
    hide *;
    var n := NextWindowNumber(db);
    CounterUp(p, db);
    CounterNeutral(db);
    CounterIs(db);
    OneNeutral(db, n, mem);
    var head, m := Exec([n], mem, []), Measured(cfg, n, mem, s);
    MeasuredNeutral(cfg, n, mem, s);
    MeasuredSound(p, cfg, n, mem, s);
    NeutralThen(db, head, m);
    FinalOfThen(db, head, m);
    LedgerNeutral(db, Then(head, m));
    FreshWindow(p, db, n.counter, law.lawId);
    QueuedFacts(db, mem, Final(db, Then(head, m)), law.lawId);
    QueuedInView(db, Final(db, Then(head, m)), law.lawId);
  }

  lemma CounterIs(db: Db)
    ensures var n := NextWindowNumber(db); n.counter == db.counter + 1 && n.windows == db.windows
  {
  }

  lemma QueuedInView(db: Db, d: Db, id: string)
    requires KeepsAll(db, d) && id in db.queue && id in db.laws
    ensures id in d.queue && id in d.laws
  {
    assert ViewOf(d, id) == ViewOf(db, id);
    hide Holds;
  }

  /** Announcing, as a whole, loses nothing. */
  lemma StartDeliberationGap(p: Platform, cfg: Config, db: Db, mem: Mem, s: Senses, law: Law, k: nat, id: string)
    requires Assumptions(p, cfg) && Durable(p, db) && Proper(db) && Whole(db, mem) && mem.isLeader
    requires mem.active.None? && mem.deliberation.None?
    requires law.lawId in db.queue && law.lawId in db.laws && db.laws[law.lawId] == law
    requires k <= |StartDeliberation(p, cfg, db, mem, s, law).steps| && !Lost(ViewOf(db, id))
    ensures !LosesAt(db, StartDeliberation(p, cfg, db, mem, s, law), k, id)
  {
    AssumedConfig(p, cfg);
    hide *;
    var voters := VotersFor(cfg, s, law);
    var e1 := MeasuredFor(cfg, db, mem, law, voters).0;
    var a := AnnouncementOf(p, cfg, mem, s, law, voters, MeasuredFor(cfg, db, mem, law, voters).1);
    AnnouncementConcerns(p, cfg, mem, s, law, voters, MeasuredFor(cfg, db, mem, law, voters).1);
    MeasuredForSound(p, cfg, db, mem, law, voters);
    MeasuredForNeutral(cfg, db, mem, law, voters);
    var d := ClearDeliberationDecisions(Final(db, e1), law.lawId);
    var veto := Exec([d] + VetoSteps(d, law.lawId, voters), mem, []);
    VetoesSound(p, Final(db, e1), mem, law.lawId, voters);
    VetoesNeutral(p, Final(db, e1), mem, law.lawId, voters);
    var e2 := Then(e1, veto);
    NeutralThen(db, e1, veto);
    LedgerNeutral(db, e2);
    var d2 := Final(db, e2);
    QueuedFacts(db, mem, d2, law.lawId);
    QueuedInView(db, d2, law.lawId);
    NothingAnnouncedMeans(d2);
    var announce := Announce(d2, mem, a);
    AnnounceViews(d2, mem, a);
    AnnouncingHasNoGap(d2, mem, a);
    AnnounceFewer(d2, mem, a);
    PrefixedGap(db, e2, announce, law.lawId, 1, 0, k, id);
    var e3 := Then(e2, announce);
    var turn := TurnTaken(Final(db, e3), mem, law);
    TurnTakenNeutral(Final(db, e3), mem, law);
    StartDeliberationShape(p, cfg, db, mem, s, law, e1, veto, a);
    SameLoses(db, StartDeliberation(p, cfg, db, mem, s, law), Then(e3, turn), k, id);
    SuffixedGap(db, e3, turn, k, id);
    EventGapIs(|e2.steps| + 1, |e2.steps|, law.lawId, k, id);
  }

  lemma SameLoses(db: Db, e: Exec, f: Exec, k: nat, id: string)
    requires e.steps == f.steps && k <= |e.steps|
    ensures LosesAt(db, e, k, id) <==> LosesAt(db, f, k, id)
  {
    hide ViewOf, Lost;
  }

  lemma IdleLoses(db: Db, mem: Mem, k: nat, id: string)
    requires k <= |Idle(mem).steps|
    ensures k == 0 && (LosesAt(db, Idle(mem), k, id) <==> Lost(ViewOf(db, id)))
  {
    hide ViewOf, Lost;
  }

  lemma OpenGapIs(cfg: Config, db: Db, mem: Mem, s: Senses, k: int, id: string)
    requires ValidConfig(cfg)
    ensures OpenGap(cfg, db, mem, s, k, id) <==>
      && mem.isLeader && mem.active.None? && mem.deliberation.None? && cfg.deliberationMicros <= 0
      && NextLaw(cfg, db, mem, s).Some? && NextLaw(cfg, db, mem, s).value.lawId == id
      && k == |Measured(cfg, NextWindowNumber(db), mem, s).steps| + 4
  {
    hide NextLaw, Measured, NextWindowNumber;
  }

  lemma OpensNothing(p: Platform, cfg: Config, db: Db, mem: Mem, s: Senses)
    requires ValidConfig(cfg)
    requires !mem.isLeader || mem.active.Some? || mem.deliberation.Some? || NextLaw(cfg, db, mem, s).None?
    ensures MaybeOpen(p, cfg, db, mem, s) == Idle(mem)
  {
    hide NextLaw, StartDeliberation, OpenDirect;
  }

  lemma MaybeOpenGap(p: Platform, cfg: Config, db: Db, mem: Mem, s: Senses, k: nat, id: string)
    requires Assumptions(p, cfg) && Durable(p, db) && Proper(db) && Whole(db, mem)
    requires k <= |MaybeOpen(p, cfg, db, mem, s).steps| && !Lost(ViewOf(db, id))
    ensures LosesAt(db, MaybeOpen(p, cfg, db, mem, s), k, id) <==> OpenGap(cfg, db, mem, s, k, id)
  {
    hide *;
    AssumedConfig(p, cfg);
    OpenGapIs(cfg, db, mem, s, k, id);
    if mem.isLeader && mem.active.None? && mem.deliberation.None? && NextLaw(cfg, db, mem, s).Some? {
      var law := OpensNext(p, cfg, db, mem, s);
      if cfg.deliberationMicros > 0 {
        StartDeliberationGap(p, cfg, db, mem, s, law, k, id);
      } else {
        OpenDirectGap(p, cfg, db, mem, s, law, k, id);
      }
    } else {
      OpensNothing(p, cfg, db, mem, s);
      IdleLoses(db, mem, k, id);
    }
  }

  lemma AfterGapLate(cfg: Config, db: Db, e: Exec, s: Senses, k: int, id: string)
    requires ValidConfig(cfg) && k <= |e.steps|
    ensures !AfterGap(cfg, db, e, s, k, id)
  {
    hide NextLaw, Measured, Final;
  }

  lemma AfterGapIs(cfg: Config, db: Db, e: Exec, s: Senses, k: int, id: string)
    requires ValidConfig(cfg)
    ensures AfterGap(cfg, db, e, s, k, id) <==> OpenGap(cfg, Final(db, e), e.mem, s, k - |e.steps|, id)
  {
    hide OpenGap;
  }

  /** e, and then whatever can be opened. */
  lemma AndMaybeOpenGap(p: Platform, cfg: Config, db: Db, e: Exec, s: Senses, k: nat, id: string)
    requires Assumptions(p, cfg) && Durable(p, Final(db, e)) && Proper(db) && Ledger(db, e) && Whole(Final(db, e), e.mem)
    requires k <= |AndMaybeOpen(p, cfg, db, e, s).steps| && !Lost(ViewOf(db, id))
    ensures LosesAt(db, AndMaybeOpen(p, cfg, db, e, s), k, id)
      <==> (k <= |e.steps| && LosesAt(db, e, k, id)) || AfterGap(cfg, db, e, s, k, id)
  {
    hide *;
    AssumedConfig(p, cfg);
    var next := MaybeOpen(p, cfg, Final(db, e), e.mem, s);
    AndMaybeOpenIs(p, cfg, db, e, s);
    ProperAfter(db, e);
    LedgerEnd(db, e);
    ThenShape(e, next);
    LosesThen(db, e, next, k, id);
    AfterGapIs(cfg, db, e, s, k, id);
    if k <= |e.steps| {
      AfterGapLate(cfg, db, e, s, k, id);
    } else {
      MaybeOpenGap(p, cfg, Final(db, e), e.mem, s, k - |e.steps|, id);
    }
  }

  lemma AndMaybeOpenIs(p: Platform, cfg: Config, db: Db, e: Exec, s: Senses)
    requires ValidConfig(cfg)
    ensures AndMaybeOpen(p, cfg, db, e, s) == Then(e, MaybeOpen(p, cfg, Final(db, e), e.mem, s))
  {
    hide MaybeOpen, Then, Final;
  }

  // ---- proposals ----

  lemma RepealNeverLoses(p: Platform, cfg: Config, db: Db, mem: Mem, m: Proposal, k: nat, id: string)
    requires Durable(p, db) && Proper(db) && InStep(p, db, mem) && Whole(db, mem) && mem.isLeader
    requires k <= |EnqueueDerogacion(cfg, db, mem, m).steps| && !Lost(ViewOf(db, id))
    ensures !LosesAt(db, EnqueueDerogacion(cfg, db, mem, m), k, id)
  {
    hide *;
    EnqueueDerogacionShape(cfg, db, mem, m);
    var e, law := EnqueueDerogacion(cfg, db, mem, m), m.lawId;
    if law in db.laws && db.laws[law].status == Promulgated {
      PromulgatedView(p, db, mem, law);
      var d1 := SetLawAction(db, law, Derogacion);
      SetActionNeutral(db, law);
      KeepsWeaken(db, d1, law);
      var d2 := SetLawRequestedBy(d1, law, m.author);
      var d3 := EnqueueLaw(d2, law);
      var until := CooldownUntil(cfg, d3, ProposedNew);
      EnqueueTailViews(d1, law, m.author, until, ProposedNew);
      AboutFour(db, d1, d2, d3, SetCooldown(d3, m.author, until, ProposedNew), law);
      RepealCases(ViewOf(db, law), Views(e.steps, law));
      ViewsLength(e.steps, law);
      GapFromViews(db, e, law, 1, 0);
      StretchGap(db, e, law, 1, 0, k, id);
      EventGapIs(1, 0, law, k, id);
    } else {
      IdleShape(mem);
      IdleLoses(db, mem, k, id);
    }
  }

  lemma RepealCases(v: View, views: seq<View>)
    requires v.status == Some(Promulgated) && views == [v, v, v.(queued := true), v.(queued := true)]
    ensures !Lost(v) && forall k :: 0 <= k < |views| ==> !Lost(views[k])
  {
  }

  /** A new law is in its record before it is in the queue. */
  lemma PromulgationGap(p: Platform, cfg: Config, db: Db, mem: Mem, m: Proposal, category: string, k: nat, id: string)
    requires Durable(p, db) && Proper(db) && m.lawId !in db.laws
    requires k <= |EnqueuePromulgacion(cfg, db, mem, m, category).steps| && !Lost(ViewOf(db, id))
    ensures LosesAt(db, EnqueuePromulgacion(cfg, db, mem, m, category), k, id) <==> EventGap(1, 2, m.lawId, k, id)
  {
    hide *;
    var law := m.lawId;
    var reason := if m.textHash in db.discarded then ReproposedIdentical else ProposedNew;
    var d1 := SaveLaw(db, law, m.author, m.textHash, m.createdAt, category, m.textCompressed, m.textOriginalLen);
    SaveLawShape(db, m, category);
    UnknownView(p, db, law);
    SavedLawView(db, d1, law);
    var d2 := SetLawRequestedBy(d1, law, m.author);
    var d3 := EnqueueLaw(d2, law);
    var until := CooldownUntil(cfg, d3, reason);
    EnqueueTailViews(d1, law, m.author, until, reason);
    var e := EnqueuePromulgacion(cfg, db, mem, m, category);
    EnqueuePromulgacionShape(cfg, db, mem, m, category);
    AboutFour(db, d1, d2, d3, SetCooldown(d3, m.author, until, reason), law);
    NewLawCases(Views(e.steps, law));
    UnknownIsNotLost();
    ViewsLength(e.steps, law);
    GapFromViews(db, e, law, 1, 2);
    StretchGap(db, e, law, 1, 2, k, id);
  }

  lemma NewLawCases(views: seq<View>)
    requires var v := View(Some(PendingQueue), false, false, false); views == [v, v, v.(queued := true), v.(queued := true)]
    ensures forall k :: 0 <= k < |views| ==> (Lost(views[k]) <==> k < 2)
  {
  }

  lemma ProposalHandled(p: Platform, cfg: Config, db: Db, mem: Mem, s: Senses, m: Proposal, k: nat, id: string)
    requires Assumptions(p, cfg) && Accounted(p, System(db, mem)) && FreshLaw(db, Proposed(m))
    requires k <= |HandleProposal(p, cfg, db, mem, s, m).steps| && !Lost(ViewOf(db, id))
    ensures LosesAt(db, HandleProposal(p, cfg, db, mem, s, m), k, id) <==> ProposalGap(cfg, db, mem, s, m, k, id)
  {
    AssumedConfig(p, cfg);
    AccountedIs(p, System(db, mem));
    hide Durable, InStep, Proper, Whole, Ledger, AndMaybeOpen, EnqueueDerogacion, EnqueuePromulgacion, ValidateCategory, LosesAt, Lost, ViewOf, AfterGap, EventGap, Accounted, IsInCooldown, Assumptions;
    var category := ValidateCategory(m.category);
    if !mem.isLeader || m.author == "" || m.textHash == "" || category.Failure? || !m.admitted || IsInCooldown(db, m.author) {
      IdleLoses(db, mem, k, id);
    } else if m.action == Derogacion {
      RepealHandled(p, cfg, db, mem, s, m, k, id);
    } else {
      PromulgationHandled(p, cfg, db, mem, s, m, category.value, k, id);
    }
  }

  lemma RepealHandled(p: Platform, cfg: Config, db: Db, mem: Mem, s: Senses, m: Proposal, k: nat, id: string)
    requires Assumptions(p, cfg) && Durable(p, db) && Proper(db) && InStep(p, db, mem) && Whole(db, mem) && mem.isLeader
    requires var all := AndMaybeOpen(p, cfg, db, EnqueueDerogacion(cfg, db, mem, m), s); k <= |all.steps| && !Lost(ViewOf(db, id))
    ensures LosesAt(db, AndMaybeOpen(p, cfg, db, EnqueueDerogacion(cfg, db, mem, m), s), k, id)
      <==> AfterGap(cfg, db, EnqueueDerogacion(cfg, db, mem, m), s, k, id)
  {
    hide *;
    AssumedConfig(p, cfg);
    var e := EnqueueDerogacion(cfg, db, mem, m);
    EnqueueDerogacionSound(p, cfg, db, mem, m);
    SoundFinal(p, db, e);
    EnqueueDerogacionLedger(p, cfg, db, mem, m);
    AndMaybeOpenGap(p, cfg, db, e, s, k, id);
    if k <= |e.steps| {
      RepealNeverLoses(p, cfg, db, mem, m, k, id);
    }
  }

  lemma PromulgationHandled(p: Platform, cfg: Config, db: Db, mem: Mem, s: Senses, m: Proposal, category: string, k: nat, id: string)
    requires Assumptions(p, cfg) && Durable(p, db) && Proper(db) && InStep(p, db, mem) && Whole(db, mem) && mem.isLeader
    requires m.lawId !in db.laws
    requires var all := AndMaybeOpen(p, cfg, db, EnqueuePromulgacion(cfg, db, mem, m, category), s); k <= |all.steps| && !Lost(ViewOf(db, id))
    ensures LosesAt(db, AndMaybeOpen(p, cfg, db, EnqueuePromulgacion(cfg, db, mem, m, category), s), k, id)
      <==> EventGap(1, 2, m.lawId, k, id) || AfterGap(cfg, db, EnqueuePromulgacion(cfg, db, mem, m, category), s, k, id)
  {
    hide *;
    AssumedConfig(p, cfg);
    var e := EnqueuePromulgacion(cfg, db, mem, m, category);
    EnqueuePromulgacionSound(p, cfg, db, mem, m, category);
    SoundFinal(p, db, e);
    EnqueuePromulgacionLedger(p, cfg, db, mem, m, category);
    AndMaybeOpenGap(p, cfg, db, e, s, k, id);
    PromulgationWrites(cfg, db, mem, m, category);
    EventGapIs(1, 2, m.lawId, k, id);
    if k <= |e.steps| {
      PromulgationGap(p, cfg, db, mem, m, category, k, id);
    }
  }

  // ---- nonces and deadlines ----

  /** Guard and append are neutral, and closing loses the law at its first write. */
  lemma SealGap(p: Platform, db: Db, d: Db, mem: Mem, s: Senses, a: Active, nonce: int, winner: string, k: nat, id: string)
    requires CollisionFree(p) && Durable(p, d) && mem.deliberation.None? && KeepsAll(db, d)
    requires d.active == Some(a.wid) && a.wid in d.windows && d.windows[a.wid].result.None? && !LastIs(Blocks(d), a.wid)
    requires Rebuilt(p, a.wid, d.windows[a.wid], GetLaw(d, d.windows[a.wid].lawId)) == Some(a)
    requires VerifyNonce(p, a.base, nonce, a.nZeros) && !Lost(ViewOf(db, id))
    requires k <= |Then(Exec([d], mem, []), Seal(p, d, mem, s, a, nonce, winner)).steps|
    ensures var e := Then(Exec([d], mem, []), Seal(p, d, mem, s, a, nonce, winner));
      |e.steps| == 5 && (LosesAt(db, e, k, id) <==> EventGap(3, 3, a.lawId, k, id))
  {
    hide *;
    var b := BlockOf(p, d, a, nonce, winner, s);
    BlockIsFromWindow(p, d, a, nonce, winner, s);
    RebuiltFrom(p, a.wid, d.windows[a.wid], GetLaw(d, d.windows[a.wid].lawId), a);
    PointedLawHeld(p, d, a.wid);
    PointedLawKnown(p, d, a.wid);
    AppendWrite(p, d, b);
    SealShape(p, d, mem, s, a, nonce, winner);
    var d2 := AppendBlock(d, b).0;
    AppendLawsSame(d, b);
    AppendNeutral(d, b);
    KeepsWeaken(d, d2, id);
    KeepsWeaken(db, d, id);
    var close := CloseSealed(d2, mem, a.wid, a.lawId, a.action, nonce, winner);
    ClosingGap(p, d2, mem, a.wid, nonce, winner);
    CloseSealedViews(d2, mem, a.wid, nonce, winner);
    CloseSealedShape(d2, mem, a.wid, a.lawId, a.action, nonce, winner);
    var guard, append := Exec([d], mem, []), Exec([d2], mem, []);
    OneNeutral(db, d, mem);
    OneNeutral(d, d2, mem);
    ThenShape(append, close);
    ThenShape(guard, Then(append, close));
    LosesThen(db, guard, Then(append, close), k, id);
    EventGapIs(3, 3, a.lawId, k, id);
    if k <= 1 {
      NeutralLoses(db, guard, k, id);
    } else {
      LosesThen(d, append, close, k - 1, id);
      if k == 2 {
        NeutralLoses(d, append, 1, id);
      } else {
        StretchGap(d2, close, a.lawId, 1, 1, k - 2, id);
        EventGapIs(1, 1, a.lawId, k - 2, id);
      }
    }
  }

  lemma NonceHandled(p: Platform, cfg: Config, db: Db, mem: Mem, s: Senses, m: Solution, k: nat, id: string)
    requires Assumptions(p, cfg) && Accounted(p, System(db, mem))
    requires k <= |HandleNonce(p, cfg, db, mem, s, m).steps| && !Lost(ViewOf(db, id))
    ensures LosesAt(db, HandleNonce(p, cfg, db, mem, s, m), k, id) <==> NonceGap(p, cfg, db, mem, s, m, k, id)
  {
    hide *;
    AssumedConfig(p, cfg);
    AccountedIs(p, System(db, mem));
    Verdict(p, cfg, db, mem, s, m);
    NonceGapIs(p, cfg, db, mem, s, m, k, id);
    if mem.isLeader && mem.active.Some? && Acceptable(p, mem.active.value, s.now, m) {
      var a := mem.active.value;
      ActiveMemory(p, db, mem);
      FreeGuard(p, db, a);
      GuardTaken(p, db, a, WinnerName(m.winner));
      var d := TrySealWindow(db, a.wid, WinnerName(m.winner)).0;
      GuardNeutral(db, a.wid, WinnerName(m.winner));
      GuardedSealLedger(p, db, mem, s, m);
      var e := Then(Exec([d], mem, []), Seal(p, d, mem, s, a, m.nonce, m.winner));
      AndMaybeOpenGap(p, cfg, db, e, s, k, id);
      EventGapIs(3, 3, a.lawId, k, id);
      SealGap(p, db, d, mem, s, a, m.nonce, m.winner, 0, id);
      if k <= |e.steps| {
        SealGap(p, db, d, mem, s, a, m.nonce, m.winner, k, id);
      }
    } else {
      IdleLoses(db, mem, k, id);
    }
  }

  lemma NonceGapIs(p: Platform, cfg: Config, db: Db, mem: Mem, s: Senses, m: Solution, k: int, id: string)
    requires ValidConfig(cfg)
    ensures NonceGap(p, cfg, db, mem, s, m, k, id) <==>
      && mem.isLeader && mem.active.Some? && Acceptable(p, mem.active.value, s.now, m)
      && var a := mem.active.value;
         var d := TrySealWindow(db, a.wid, WinnerName(m.winner)).0;
         || EventGap(3, 3, a.lawId, k, id)
         || AfterGap(cfg, db, Then(Exec([d], mem, []), Seal(p, d, mem, s, a, m.nonce, m.winner)), s, k, id)
  {
    hide Acceptable, EventGap, AfterGap, Seal, TrySealWindow, Then;
  }

  lemma CheckDeadlineIs(p: Platform, cfg: Config, db: Db, mem: Mem, s: Senses)
    requires ValidConfig(cfg)
    ensures var e := CheckDeadline(p, cfg, db, mem, s);
      if mem.active.None? || s.now <= mem.active.value.deadline then e == Idle(mem)
      else
        var a := mem.active.value;
        var q := QuorumOf(cfg, s, ComoActiva(a));
        if q.Some? && !q.value.ok then e == AndMaybeOpen(p, cfg, db, ExpiredWithoutQuorum(db, mem, a), s)
        else e == AndMaybeOpen(p, cfg, db, Expired(db, mem, a), s)
  {
    hide AndMaybeOpen, Expired, ExpiredWithoutQuorum, QuorumOf;
  }

  lemma DeadlineGapIs(cfg: Config, db: Db, mem: Mem, s: Senses, k: int, id: string)
    requires ValidConfig(cfg)
    ensures DeadlineGap(cfg, db, mem, s, k, id) <==>
      && mem.active.Some? && s.now > mem.active.value.deadline
      && var a := mem.active.value;
         var q := QuorumOf(cfg, s, ComoActiva(a));
         if q.Some? && !q.value.ok then
           EventGap(1, 2, a.lawId, k, id) || AfterGap(cfg, db, ExpiredWithoutQuorum(db, mem, a), s, k, id)
         else
           EventGap(1, 1, a.lawId, k, id) || AfterGap(cfg, db, Expired(db, mem, a), s, k, id)
  {
    hide EventGap, AfterGap, Expired, ExpiredWithoutQuorum, QuorumOf;
  }

  lemma ExpiredStretches(p: Platform, db: Db, mem: Mem, a: Active, k: nat, id: string)
    requires Durable(p, db) && ActiveInStep(p, db, a) && a.lawId in db.laws && !Lost(ViewOf(db, id))
    ensures |Expired(db, mem, a).steps| >= 1 && |ExpiredWithoutQuorum(db, mem, a).steps| >= 2
    ensures k <= |Expired(db, mem, a).steps| ==> (LosesAt(db, Expired(db, mem, a), k, id) <==> EventGap(1, 1, a.lawId, k, id))
    ensures k <= |ExpiredWithoutQuorum(db, mem, a).steps| ==>
      (LosesAt(db, ExpiredWithoutQuorum(db, mem, a), k, id) <==> EventGap(1, 2, a.lawId, k, id))
  {
    hide *;
    ActivePointer(p, db, a);
    ExpiryGaps(p, db, mem, a);
    ExpiredViews(db, mem, a);
    ExpiredWithoutQuorumViews(db, mem, a);
    ViewsLength(Expired(db, mem, a).steps, a.lawId);
    ViewsLength(ExpiredWithoutQuorum(db, mem, a).steps, a.lawId);
    if k <= |Expired(db, mem, a).steps| {
      StretchGap(db, Expired(db, mem, a), a.lawId, 1, 1, k, id);
    }
    if k <= |ExpiredWithoutQuorum(db, mem, a).steps| {
      StretchGap(db, ExpiredWithoutQuorum(db, mem, a), a.lawId, 1, 2, k, id);
    }
  }

  lemma DeadlineHandled(p: Platform, cfg: Config, db: Db, mem: Mem, s: Senses, k: nat, id: string)
    requires Assumptions(p, cfg) && Durable(p, db) && Proper(db) && InStep(p, db, mem) && Whole(db, mem)
    requires k <= |CheckDeadline(p, cfg, db, mem, s).steps| && !Lost(ViewOf(db, id))
    ensures LosesAt(db, CheckDeadline(p, cfg, db, mem, s), k, id) <==> DeadlineGap(cfg, db, mem, s, k, id)
  {
    hide *;
    AssumedConfig(p, cfg);
    CheckDeadlineIs(p, cfg, db, mem, s);
    DeadlineGapIs(cfg, db, mem, s, k, id);
    if mem.active.None? || s.now <= mem.active.value.deadline {
      IdleLoses(db, mem, k, id);
    } else {
      var a := mem.active.value;
      ActiveMemory(p, db, mem);
      HeldIsActive(p, db, mem);
      ExpiredLedger(p, db, mem, a);
      ExpiredStretches(p, db, mem, a, k, id);
      EventGapIs(1, 2, a.lawId, k, id);
      EventGapIs(1, 1, a.lawId, k, id);
      var q := QuorumOf(cfg, s, ComoActiva(a));
      if q.Some? && !q.value.ok {
        AndMaybeOpenGap(p, cfg, db, ExpiredWithoutQuorum(db, mem, a), s, k, id);
      } else {
        AndMaybeOpenGap(p, cfg, db, Expired(db, mem, a), s, k, id);
      }
    }
  }

  // ---- the end of a deliberation ----

  lemma PauseAbout(p: Platform, cfg: Config, db: Db, mem: Mem, s: Senses, a: Announced, next: Exec, lo: int, hi: int, k: nat, id: string)
    requires InStep(p, db, mem) && mem.deliberation == Some(a) && !Lost(ViewOf(db, id))
    requires About(Final(db, PauseEnded(p, cfg, db, mem, s, a)), next.steps, a.lawId)
    requires var all := Then(PauseEnded(p, cfg, db, mem, s, a), next); k <= |all.steps| && GapIs(db, all, a.lawId, lo, hi)
    ensures LosesAt(db, Then(PauseEnded(p, cfg, db, mem, s, a), next), k, id) <==> EventGap(lo, hi, a.lawId, k, id)
  {
    hide *;
    AnnouncedIsRemembered(p, db, mem);
    var e := PauseEnded(p, cfg, db, mem, s, a);
    PauseEndedViews(p, cfg, db, mem, s, a);
    AboutThen(db, e, next, a.lawId);
    StretchGap(db, Then(e, next), a.lawId, lo, hi, k, id);
  }

  /** What the four ways of ending a deliberation lose. */
  lemma ResolutionStretches(p: Platform, cfg: Config, db: Db, mem: Mem, s: Senses, a: Announced, accepted: seq<string>, hash: Option<string>, k: nat, id: string)
    requires Durable(p, db) && Proper(db) && InStep(p, db, mem) && Whole(db, mem) && mem.deliberation == Some(a) && !Lost(ViewOf(db, id))
    ensures var e := PauseEnded(p, cfg, db, mem, s, a);
      var d, n := Final(db, e), |e.steps|;
      && a.lawId in d.laws
      && var open, out, back := OpenFrozen(p, d, e.mem, s, d.laws[a.lawId], Frozen(a, accepted)), ThrownOut(d, e.mem, a.lawId, hash), Requeued(d, e.mem, a.lawId);
         && (k <= |Then(e, open).steps| ==> (LosesAt(db, Then(e, open), k, id) <==> EventGap(n - 1, n + 4, a.lawId, k, id)))
         && (k <= |Then(e, out).steps| ==> (LosesAt(db, Then(e, out), k, id) <==> EventGap(n - 1, n, a.lawId, k, id)))
         && (k <= |Then(e, back).steps| ==> (LosesAt(db, Then(e, back), k, id) <==> EventGap(n - 1, n + 1, a.lawId, k, id)))
         && |Then(e, out).steps| >= n + 1 && |Then(e, back).steps| >= n + 1
  {
    hide *;
    PauseLeaves(p, cfg, db, mem, s, a);
    ResolutionGaps(p, cfg, db, mem, s, a, accepted, hash);
    var e := PauseEnded(p, cfg, db, mem, s, a);
    var d, n := Final(db, e), |e.steps|;
    var law := d.laws[a.lawId];
    var open, out, back := OpenFrozen(p, d, e.mem, s, law, Frozen(a, accepted)), ThrownOut(d, e.mem, a.lawId, hash), Requeued(d, e.mem, a.lawId);
    OpenFrozenViews(p, d, e.mem, s, law, Frozen(a, accepted));
    ThrownOutViews(d, e.mem, a.lawId, hash);
    RequeuedViews(d, e.mem, a.lawId);
    ViewsLength(out.steps, a.lawId);
    ViewsLength(back.steps, a.lawId);
    ThenShape(e, out);
    ThenShape(e, back);
    if k <= |Then(e, open).steps| {
      PauseAbout(p, cfg, db, mem, s, a, open, n - 1, n + 4, k, id);
    }
    if k <= |Then(e, out).steps| {
      PauseAbout(p, cfg, db, mem, s, a, out, n - 1, n, k, id);
    }
    if k <= |Then(e, back).steps| {
      PauseAbout(p, cfg, db, mem, s, a, back, n - 1, n + 1, k, id);
    }
  }

  lemma ResolutionGapIs(p: Platform, cfg: Config, db: Db, mem: Mem, s: Senses, k: int, id: string)
    requires ValidConfig(cfg) && mem.deliberation.Some?
    requires mem.deliberation.value.lawId in Final(db, PauseEnded(p, cfg, db, mem, s, mem.deliberation.value)).laws
    ensures var a := mem.deliberation.value;
      var e := PauseEnded(p, cfg, db, mem, s, a);
      var d, n := Final(db, e), |e.steps|;
      var hash := Some(d.laws[a.lawId].textHash);
      ResolutionGap(p, cfg, db, mem, s, k, id) <==>
        match Judged(cfg, db, a).0
        case Open => EventGap(n - 1, n + 4, a.lawId, k, id)
        case Discard =>
          EventGap(n - 1, n, a.lawId, k, id) || AfterGap(cfg, db, Then(e, ThrownOut(d, e.mem, a.lawId, hash)), s, k, id)
        case Unanswered =>
          EventGap(n - 1, n, a.lawId, k, id) || AfterGap(cfg, db, Then(e, ThrownOut(d, e.mem, a.lawId, None)), s, k, id)
        case Requeue =>
          EventGap(n - 1, n + 1, a.lawId, k, id) || AfterGap(cfg, db, Then(e, Requeued(d, e.mem, a.lawId)), s, k, id)
  {
    hide EventGap, AfterGap, Judged, PauseEnded, ThrownOut, Requeued, Then, Final;
  }

  lemma ResolutionHandled(p: Platform, cfg: Config, db: Db, mem: Mem, s: Senses, k: nat, id: string)
    requires Assumptions(p, cfg) && Durable(p, db) && Proper(db) && InStep(p, db, mem) && Whole(db, mem) && mem.deliberation.Some?
    requires k <= |ResolveDeliberation(p, cfg, db, mem, s, mem.deliberation.value).steps| && !Lost(ViewOf(db, id))
    ensures LosesAt(db, ResolveDeliberation(p, cfg, db, mem, s, mem.deliberation.value), k, id)
      <==> ResolutionGap(p, cfg, db, mem, s, k, id)
  {
    hide *;
    AssumedConfig(p, cfg);
    var a := mem.deliberation.value;
    PauseLeaves(p, cfg, db, mem, s, a);
    ResolveShape(p, cfg, db, mem, s, a);
    ResolutionGapIs(p, cfg, db, mem, s, k, id);
    var (outcome, accepted, _) := Judged(cfg, db, a);
    var e := PauseEnded(p, cfg, db, mem, s, a);
    var d, n := Final(db, e), |e.steps|;
    var hash := Some(d.laws[a.lawId].textHash);
    EventGapIs(n - 1, n, a.lawId, k, id);
    EventGapIs(n - 1, n + 1, a.lawId, k, id);
    ResolutionStretches(p, cfg, db, mem, s, a, accepted, hash, k, id);
    match outcome
    case Open =>
    case Discard =>
      ResolvedOut(p, cfg, db, mem, s, a, hash);
      AndMaybeOpenGap(p, cfg, db, Then(e, ThrownOut(d, e.mem, a.lawId, hash)), s, k, id);
    case Unanswered =>
      ResolutionStretches(p, cfg, db, mem, s, a, accepted, None, k, id);
      ResolvedOut(p, cfg, db, mem, s, a, None);
      AndMaybeOpenGap(p, cfg, db, Then(e, ThrownOut(d, e.mem, a.lawId, None)), s, k, id);
    case Requeue =>
      ResolvedBack(p, cfg, db, mem, s, a);
      AndMaybeOpenGap(p, cfg, db, Then(e, Requeued(d, e.mem, a.lawId)), s, k, id);
  }

  lemma DeliberationHandled(p: Platform, cfg: Config, db: Db, mem: Mem, s: Senses, k: nat, id: string)
    requires Assumptions(p, cfg) && Durable(p, db) && Proper(db) && InStep(p, db, mem) && Whole(db, mem)
    requires k <= |CheckDeliberation(p, cfg, db, mem, s).steps| && !Lost(ViewOf(db, id))
    ensures LosesAt(db, CheckDeliberation(p, cfg, db, mem, s), k, id) <==> DeliberationGap(p, cfg, db, mem, s, k, id)
  {
    AssumedConfig(p, cfg);
    hide Assumptions, Durable, Proper, InStep, Whole, ResolveDeliberation, LosesAt, Lost, ViewOf, ResolutionGap, Deliberation.AllAnswered, VotersOf;
    if mem.deliberation.Some?
       && (s.now >= mem.deliberation.value.decideUntil
           || Deliberation.AllAnswered(VotersOf(mem.deliberation.value), DeliberationDecisions(db, mem.deliberation.value.lawId))) {
      ResolutionHandled(p, cfg, db, mem, s, k, id);
    } else {
      IdleLoses(db, mem, k, id);
    }
  }

  // ---- taking over ----

  lemma ResumeGapIs(db: Db, k: int, id: string)
    ensures ResumeGap(db, k, id) <==>
      k == 1 && Holds(db, id) && LastBlock(db).Some? && LastBlock(db).value.votingWindowId == db.active.value
    ensures LastBlock(db) == GetBlock(db.blocks, LastBlockHash(db))
    ensures Holds(db, id) ==> db.active.Some? && db.active.value in db.windows && db.windows[db.active.value].result.None? && db.windows[db.active.value].lawId == id
  {
    hide FromFields, LastBlockHash;
  }

  lemma ClearedNeutral(db: Db, e: Exec, wid: string)
    requires db.active == Some(wid) && wid in db.windows && db.windows[wid].result.Some? && e.steps == [ClearActiveWindow(db)]
    ensures Neutral(db, e.steps)
  {
    hide *;
    ResolvedNotHeld(db, wid);
    PointerClearedView(db);
    OneNeutral(db, ClearActiveWindow(db), e.mem);
  }

  lemma ReleasedNeutral(db: Db, e: Exec, wid: string)
    requires e.steps == [ReleaseWindowSeal(db, wid)] || e.steps == []
    ensures Neutral(db, e.steps)
  {
    hide *;
    GuardNeutral(db, wid, "");
    OneNeutral(db, ReleaseWindowSeal(db, wid), e.mem);
    NothingIsNeutral(db);
  }

  lemma ResumeLoses(p: Platform, db: Db, mem: Mem, k: nat, id: string)
    requires Durable(p, db) && mem.isLeader && mem.deliberation.None? && !Lost(ViewOf(db, id))
    ensures ResumeGap(db, 1, id) ==> |Resume(p, db, mem).steps| == 3
    ensures k <= |Resume(p, db, mem).steps| ==> (LosesAt(db, Resume(p, db, mem), k, id) <==> ResumeGap(db, k, id))
  {
    hide *;
    ResumeShape(p, db, mem);
    ResumeGapIs(db, k, id);
    ResumeGapIs(db, 1, id);
    var e := Resume(p, db, mem);
    NothingIsNeutral(db);
    IdleShape(mem.(active := None));
    if db.active.None? {
      NeutralIfShort(db, e, k, id);
    } else {
      var wid := db.active.value;
      PointerKnown(p, db);
      LastBlockShows(p, db, wid);
      if db.windows[wid].result.Some? {
        ClearedNeutral(db, e, wid);
        NeutralIfShort(db, e, k, id);
      } else if LastIs(Blocks(db), wid) {
        PointedLawKnown(p, db, wid);
        PointedLawHeld(p, db, wid);
        var last := GetBlock(db.blocks, LastBlockHash(db)).value;
        var held := db.windows[wid].lawId;
        ClosingGap(p, db, mem, wid, last.nonce, last.winningNodeOrPool);
        CloseSealedViews(db, mem, wid, last.nonce, last.winningNodeOrPool);
        CloseSealedShape(db, mem, wid, held, db.windows[wid].action, last.nonce, last.winningNodeOrPool);
        if k <= |e.steps| {
          StretchGap(db, e, held, 1, 1, k, id);
          EventGapIs(1, 1, held, k, id);
        }
      } else {
        RebuiltInStep(p, db, wid);
        ReleasedNeutral(db, e, wid);
        NeutralIfShort(db, e, k, id);
      }
    }
  }

  lemma NeutralIfShort(db: Db, e: Exec, k: nat, id: string)
    requires Neutral(db, e.steps) && !Lost(ViewOf(db, id))
    ensures k <= |e.steps| ==> !LosesAt(db, e, k, id)
  {
    hide *;
    if k <= |e.steps| {
      NeutralLoses(db, e, k, id);
    }
  }

  lemma RecoverGapIs(db: Db, k: int, id: string)
    ensures RecoverGap(db, k, id) <==> Orphan(db, id) && id !in db.queue && 1 <= k <= 3
  {
    hide Orphan;
  }

  lemma RecoverLoses(p: Platform, db: Db, mem: Mem, k: nat, id: string)
    requires Durable(p, db) && Proper(db) && mem.deliberation.None? && !Lost(ViewOf(db, id))
    ensures Orphan(db, id) ==> |RecoverDeliberation(db, mem).steps| == 4
    ensures k <= |RecoverDeliberation(db, mem).steps| ==> (LosesAt(db, RecoverDeliberation(db, mem), k, id) <==> RecoverGap(db, k, id))
  {
    hide *;
    var e := RecoverDeliberation(db, mem);
    RecoverGapIs(db, k, id);
    OrphanIs(db, id);
    if db.deliberation.None? {
      RecoverNothing(db, mem);
      IdleShape(mem.(deliberation := None));
      NothingIsNeutral(db);
      NeutralIfShort(db, e, k, id);
    } else {
      var law := db.deliberation.value.lawId;
      DeliberatedReady(p, db);
      RecoverViews(db, mem);
      ViewsLength(e.steps, law);
      if db.laws[law].status == InDeliberation {
        RecoveryGap(p, db, mem);
        var hi := if law in db.queue then 0 else 3;
        if k <= |e.steps| {
          StretchGap(db, e, law, 1, hi, k, id);
          EventGapIs(1, hi, law, k, id);
        }
      } else {
        StatusOfView(db, law);
        if id == law {
          ForgottenCases(ViewOf(db, law), Views(e.steps, law));
          GapFromViews(db, e, law, 1, 0);
        }
        if k <= |e.steps| {
          if id == law {
            GapAt(db, e, law, 1, 0, k);
          } else {
            OthersUnmoved(db, e, law, k, id);
          }
        }
      }
    }
  }

  lemma ForgottenCases(v: View, views: seq<View>)
    requires v.status.Some? && v.status != Some(InDeliberation) && !Lost(v)
    requires views == [v.(announced := false), v.(announced := false)]
    ensures forall k :: 0 <= k < |views| ==> !Lost(views[k])
  {
  }

  lemma PromotionGapIs(p: Platform, cfg: Config, db: Db, mem: Mem, s: Senses, k: int, id: string)
    requires ValidConfig(cfg)
    ensures var e1 := Resume(p, db, mem.(isLeader := true, lastAuthor := db.lastAuthor));
      var e2 := TakeOver(p, db, mem);
      PromotionGap(p, cfg, db, mem, s, k, id) <==>
        && !mem.isLeader
        && (|| ResumeGap(db, k, id)
            || RecoverGap(Final(db, e1), k - |e1.steps|, id)
            || DeadlineGap(cfg, Final(db, e2), e2.mem, s, k - |e2.steps|, id)
            || AfterGap(cfg, db, Then(e2, CheckDeadline(p, cfg, Final(db, e2), e2.mem, s)), s, k, id))
  {
    hide ResumeGap, RecoverGap, DeadlineGap, AfterGap, Resume, TakeOver, CheckDeadline, Final, Then;
  }

  /** Resuming and recovering, for every law. */
  lemma TakeOverLoses(p: Platform, db: Db, mem: Mem, k: nat, id: string)
    requires Durable(p, db) && Proper(db) && !mem.isLeader && mem.deliberation.None? && !Lost(ViewOf(db, id))
    requires k <= |TakeOver(p, db, mem).steps|
    ensures var e1 := Resume(p, db, mem.(isLeader := true, lastAuthor := db.lastAuthor));
      LosesAt(db, TakeOver(p, db, mem), k, id) <==> ResumeGap(db, k, id) || RecoverGap(Final(db, e1), k - |e1.steps|, id)
  {
    hide *;
    var lead := mem.(isLeader := true, lastAuthor := db.lastAuthor);
    TakeOverIs(p, db, mem);
    var e1 := Resume(p, db, lead);
    ResumeLoses(p, db, lead, k, id);
    ResumeSound(p, db, lead);
    SoundFinal(p, db, e1);
    ResumeLedger(p, db, lead);
    ProperAfter(db, e1);
    LedgerEnd(db, e1);
    ResumeSilent(p, db, lead);
    var d := Final(db, e1);
    var next := RecoverDeliberation(d, e1.mem);
    ThenShape(e1, next);
    LosesThen(db, e1, next, k, id);
    RecoverGapIs(d, k - |e1.steps|, id);
    ResumeGapIs(db, k, id);
    if k > |e1.steps| {
      RecoverLoses(p, d, e1.mem, k - |e1.steps|, id);
    }
  }

  lemma DeadlineGapLate(cfg: Config, db: Db, mem: Mem, s: Senses, k: int, id: string)
    requires ValidConfig(cfg) && k <= 0
    ensures !DeadlineGap(cfg, db, mem, s, k, id)
  {
    hide *;
    DeadlineGapIs(cfg, db, mem, s, k, id);
    if mem.active.Some? {
      var a := mem.active.value;
      EventGapIs(1, 2, a.lawId, k, id);
      EventGapIs(1, 1, a.lawId, k, id);
      AfterGapLate(cfg, db, ExpiredWithoutQuorum(db, mem, a), s, k, id);
      AfterGapLate(cfg, db, Expired(db, mem, a), s, k, id);
    }
  }

  lemma DeadlineGapEarly(p: Platform, cfg: Config, db: Db, mem: Mem, s: Senses, k: int, id: string)
    requires Assumptions(p, cfg) && Durable(p, db) && InStep(p, db, mem) && k > |CheckDeadline(p, cfg, db, mem, s).steps|
    ensures !DeadlineGap(cfg, db, mem, s, k, id)
  {
    hide *;
    AssumedConfig(p, cfg);
    DeadlineGapIs(cfg, db, mem, s, k, id);
    CheckDeadlineIs(p, cfg, db, mem, s);
    if mem.active.Some? && s.now > mem.active.value.deadline {
      var a := mem.active.value;
      EventGapIs(1, 2, a.lawId, k, id);
      EventGapIs(1, 1, a.lawId, k, id);
      ExpiredLengths(db, mem, a);
      var q := QuorumOf(cfg, s, ComoActiva(a));
      var e := if q.Some? && !q.value.ok then ExpiredWithoutQuorum(db, mem, a) else Expired(db, mem, a);
      AfterGapWithin(p, cfg, db, e, s, k, id);
      AndMaybeOpenIs(p, cfg, db, e, s);
      ThenShape(e, MaybeOpen(p, cfg, Final(db, e), e.mem, s));
    }
  }

  lemma ExpiredLengths(db: Db, mem: Mem, a: Active)
    ensures |Expired(db, mem, a).steps| >= 1 && |ExpiredWithoutQuorum(db, mem, a).steps| >= 2
  {
  }

  /** The gap of an opening is within its writes. */
  lemma OpenGapWithin(p: Platform, cfg: Config, db: Db, mem: Mem, s: Senses, k: int, id: string)
    requires ValidConfig(cfg) && OpenGap(cfg, db, mem, s, k, id)
    ensures k <= |MaybeOpen(p, cfg, db, mem, s).steps|
  {
    hide NextLaw, OpenDirect, Measured;
    var law := NextLaw(cfg, db, mem, s).value;
    OpenDirectLength(p, cfg, db, mem, s, law);
  }

  lemma OpenDirectLength(p: Platform, cfg: Config, db: Db, mem: Mem, s: Senses, law: Law)
    requires ValidConfig(cfg)
    ensures |OpenDirect(p, cfg, db, mem, s, law).steps| >= |Measured(cfg, NextWindowNumber(db), mem, s).steps| + 5
  {
    hide *;
    OpenDirectShape(p, cfg, db, mem, s, law);
    var d := NextWindowNumber(db);
    var m := Measured(cfg, d, mem, s);
    var e1 := Then(Exec([d], mem, []), m);
    ThenShape(Exec([d], mem, []), m);
    var o := OpeningDirect(cfg, d.counter, law, e1.mem, s);
    var open := Installed(p, Final(db, e1), e1.mem, law, o, s);
    InstalledMem(p, Final(db, e1), e1.mem, law, o, s);
    var e2 := Then(e1, open);
    ThenShape(e1, open);
    ThenShape(e2, TurnTaken(Final(db, e2), e2.mem, law));
  }

  lemma AfterGapWithin(p: Platform, cfg: Config, db: Db, e: Exec, s: Senses, k: int, id: string)
    requires ValidConfig(cfg) && k > |AndMaybeOpen(p, cfg, db, e, s).steps|
    ensures !AfterGap(cfg, db, e, s, k, id)
  {
    hide *;
    AfterGapIs(cfg, db, e, s, k, id);
    AndMaybeOpenIs(p, cfg, db, e, s);
    ThenShape(e, MaybeOpen(p, cfg, Final(db, e), e.mem, s));
    if AfterGap(cfg, db, e, s, k, id) {
      OpenGapWithin(p, cfg, Final(db, e), e.mem, s, k - |e.steps|, id);
    }
  }

  lemma PromotionHandled(p: Platform, cfg: Config, db: Db, mem: Mem, s: Senses, k: nat, id: string)
    requires Assumptions(p, cfg) && Durable(p, db) && Proper(db) && InStep(p, db, mem)
    requires k <= |BecomeLeader(p, cfg, db, mem, s).steps| && !Lost(ViewOf(db, id))
    ensures LosesAt(db, BecomeLeader(p, cfg, db, mem, s), k, id) <==> PromotionGap(p, cfg, db, mem, s, k, id)
  {
    hide *;
    AssumedConfig(p, cfg);
    BecomeLeaderShape(p, cfg, db, mem, s);
    PromotionGapIs(p, cfg, db, mem, s, k, id);
    if mem.isLeader {
      IdleLoses(db, mem, k, id);
    } else {
      FollowerIsBlank(p, db, mem);
      TakeOverIs(p, db, mem);
      var lead := mem.(isLeader := true, lastAuthor := db.lastAuthor);
      TakenOver(p, cfg, db, lead);
      var e1, e2 := Resume(p, db, lead), TakeOver(p, db, mem);
      SoundFinal(p, db, e2);
      ProperAfter(db, e2);
      LedgerEnd(db, e2);
      var d := Final(db, e2);
      var c := CheckDeadline(p, cfg, d, e2.mem, s);
      CheckDeadlineSound(p, cfg, d, e2.mem, s);
      CheckDeadlineLedger(p, cfg, d, e2.mem, s);
      SoundFinal(p, d, c);
      LedgerThen(db, e2, c);
      FinalOfThen(db, e2, c);
      ThenShape(e2, c);
      AndMaybeOpenGap(p, cfg, db, Then(e2, c), s, k, id);
      TakeOverGapEarly(p, db, mem, k, id);
      if k <= |Then(e2, c).steps| {
        LosesThen(db, e2, c, k, id);
        if k <= |e2.steps| {
          TakeOverLoses(p, db, mem, k, id);
          DeadlineGapLate(cfg, d, e2.mem, s, k - |e2.steps|, id);
        } else {
          DeadlineHandled(p, cfg, d, e2.mem, s, k - |e2.steps|, id);
        }
      } else {
        DeadlineGapEarly(p, cfg, d, e2.mem, s, k - |e2.steps|, id);
      }
    }
  }

  /** The gaps of a takeover are within its writes. */
  lemma TakeOverGapEarly(p: Platform, db: Db, mem: Mem, k: int, id: string)
    requires Durable(p, db) && Proper(db) && !mem.isLeader && mem.deliberation.None? && !Lost(ViewOf(db, id))
    ensures var e1 := Resume(p, db, mem.(isLeader := true, lastAuthor := db.lastAuthor));
      k > |TakeOver(p, db, mem).steps| ==> !ResumeGap(db, k, id) && !RecoverGap(Final(db, e1), k - |e1.steps|, id)
  {
    hide *;
    var lead := mem.(isLeader := true, lastAuthor := db.lastAuthor);
    TakeOverIs(p, db, mem);
    var e1 := Resume(p, db, lead);
    ResumeLoses(p, db, lead, 0, id);
    ResumeSound(p, db, lead);
    SoundFinal(p, db, e1);
    ResumeLedger(p, db, lead);
    ProperAfter(db, e1);
    LedgerEnd(db, e1);
    ResumeSilent(p, db, lead);
    var d := Final(db, e1);
    RecoverLoses(p, d, e1.mem, 0, id);
    ThenShape(e1, RecoverDeliberation(d, e1.mem));
    RecoverGapIs(d, k - |e1.steps|, id);
    ResumeGapIs(db, k, id);
    ResumeGapIs(db, 1, id);
  }

  // ---- every handler, and runs ----

  /** A crash after k writes of a handler loses a law that was not lost exactly if the k-th write is in a gap of that law. */
  lemma HandledGaps(p: Platform, cfg: Config, db: Db, mem: Mem, s: Senses, ev: Event, k: nat, id: string)
    requires Assumptions(p, cfg) && Accounted(p, System(db, mem)) && FreshLaw(db, ev)
    requires k <= |Handled(p, cfg, db, mem, s, ev).steps| && !Lost(ViewOf(db, id))
    ensures Lost(ViewOf(StoreAt(db, Handled(p, cfg, db, mem, s, ev), k), id)) <==> InGap(p, cfg, db, mem, s, ev, k, id)
  {
    hide *;
    AssumedConfig(p, cfg);
    AccountedIs(p, System(db, mem));
    HandledIs(p, cfg, db, mem, s, ev);
    InGapIs(p, cfg, db, mem, s, ev, k, id);
    LosesIs(db, Handled(p, cfg, db, mem, s, ev), k, id);
    match ev
    case Proposed(m) => ProposalHandled(p, cfg, db, mem, s, m, k, id);
    case Answered(m) => NonceHandled(p, cfg, db, mem, s, m, k, id);
    case DeliberationTick => DeliberationHandled(p, cfg, db, mem, s, k, id);
    case DeadlineTick => DeadlineHandled(p, cfg, db, mem, s, k, id);
    case OpenTick => MaybeOpenGap(p, cfg, db, mem, s, k, id);
    case Promoted => PromotionHandled(p, cfg, db, mem, s, k, id);
  }

  lemma LosesIs(db: Db, e: Exec, k: nat, id: string)
    requires k <= |e.steps|
    ensures LosesAt(db, e, k, id) <==> Lost(ViewOf(StoreAt(db, e, k), id))
  {
    hide Lost, ViewOf, StoreAt;
  }

  lemma InGapIs(p: Platform, cfg: Config, db: Db, mem: Mem, s: Senses, ev: Event, k: int, id: string)
    requires ValidConfig(cfg)
    ensures match ev
      case Proposed(m) => InGap(p, cfg, db, mem, s, ev, k, id) == ProposalGap(cfg, db, mem, s, m, k, id)
      case Answered(m) => InGap(p, cfg, db, mem, s, ev, k, id) == NonceGap(p, cfg, db, mem, s, m, k, id)
      case DeliberationTick => InGap(p, cfg, db, mem, s, ev, k, id) == DeliberationGap(p, cfg, db, mem, s, k, id)
      case DeadlineTick => InGap(p, cfg, db, mem, s, ev, k, id) == DeadlineGap(cfg, db, mem, s, k, id)
      case OpenTick => InGap(p, cfg, db, mem, s, ev, k, id) == OpenGap(cfg, db, mem, s, k, id)
      case Promoted => InGap(p, cfg, db, mem, s, ev, k, id) == PromotionGap(p, cfg, db, mem, s, k, id)
  {
    hide ProposalGap, NonceGap, DeliberationGap, DeadlineGap, OpenGap, PromotionGap;
  }
}
