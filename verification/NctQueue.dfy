/**
 How often a law is in the queue. Two writes can queue a law that is queued already: a repeal asked for again, and the
 recovery of a deliberation whose announcement was cut short. No other write of any handler does.
 */
module NctQueue {
  import opened Wrappers
  import opened Platform
  import opened Text
  import opened Challenge
  import opened Categories
  import opened Laws
  import opened Chain
  import opened Store
  import opened Nct
  import opened NctInvariant
  import opened NctHandlers
  import opened NctRuns
  import opened NctSafety
  import opened NctRecords
  import opened NctConservation
  import opened NctLedger
  import opened NctPlaces
  import opened NctGaps
  import opened NctFailover
  import Deliberation

  predicate OneCopy(db: Db, id: string) {
    Copies(db, id) <= 1
  }

  // ---- the two writes ----

  lemma FourWrites(db: Db, e: Exec, d1: Db, d2: Db, d3: Db, d4: Db)
    requires e.steps == [d1, d2, d3, d4]
    ensures Final(db, e) == d4 && StoreAt(db, e, 3) == d3 && StoreAt(db, e, 2) == d2 && StoreAt(db, e, 1) == d1
  {
  }

  lemma RepealTail(db: Db, id: string, author: string, until: int)
    ensures var d1 := SetLawAction(db, id, Derogacion);
      var d2 := SetLawRequestedBy(d1, id, author);
      var d3 := EnqueueLaw(d2, id);
      && d1.queue == d2.queue == db.queue && d3.queue == db.queue + [id]
      && SetCooldown(d3, author, until, ProposedNew).queue == db.queue + [id]
  {
  }

  /** A repeal looks at the status of the law and at nothing else: it queues a promulgated law however often it is
      queued already. */
  lemma RepealQueues(cfg: Config, db: Db, mem: Mem, m: Proposal)
    ensures Final(db, EnqueueDerogacion(cfg, db, mem, m)).queue
      == db.queue + (if m.lawId in db.laws && db.laws[m.lawId].status == Promulgated then [m.lawId] else [])
  {
    hide *;
    EnqueueDerogacionShape(cfg, db, mem, m);
    var e := EnqueueDerogacion(cfg, db, mem, m);
    if m.lawId in db.laws && db.laws[m.lawId].status == Promulgated {
      RepealWrites(cfg, db, mem, m);
    } else {
      LedgerIdle(db, mem);
    }
  }

  lemma RepealWrites(cfg: Config, db: Db, mem: Mem, m: Proposal)
    requires m.lawId in db.laws && db.laws[m.lawId].status == Promulgated
    ensures var e := EnqueueDerogacion(cfg, db, mem, m);
      && |e.steps| == 4 && e.steps[0].queue == e.steps[1].queue == db.queue
      && e.steps[2].queue == e.steps[3].queue == Final(db, e).queue == db.queue + [m.lawId] && e.mem == mem
  {
    hide *;
    EnqueueDerogacionShape(cfg, db, mem, m);
    var e := EnqueueDerogacion(cfg, db, mem, m);
    var d1 := SetLawAction(db, m.lawId, Derogacion);
    var d2 := SetLawRequestedBy(d1, m.lawId, m.author);
    var d3 := EnqueueLaw(d2, m.lawId);
    var until := CooldownUntil(cfg, d3, ProposedNew);
    RepealTail(db, m.lawId, m.author, until);
    FourWrites(db, e, d1, d2, d3, SetCooldown(d3, m.author, until, ProposedNew));
  }

  lemma RequeuedQueue(db: Db, mem: Mem, id: string)
    ensures var e := Requeued(db, mem, id);
      && |e.steps| == 2 && e.steps[0].queue == db.queue && e.steps[1].queue == db.queue + [id] && e.mem == mem
  {
  }

  /** Recovering an announced law looks at its status and not at the queue. */
  lemma RecoveryQueues(p: Platform, db: Db, mem: Mem)
    requires Durable(p, db) && db.deliberation.Some?
    requires db.laws[db.deliberation.value.lawId].status == InDeliberation
    ensures var id := db.deliberation.value.lawId;
      var e := RecoverDeliberation(db, mem);
      && |e.steps| == 4 && e.steps[0].queue == e.steps[1].queue == e.steps[2].queue == db.queue
      && e.steps[3].queue == Final(db, e).queue == db.queue + [id]
  {
    hide *;
    DeliberatedReady(p, db);
    RecoverShape(db, mem);
    var id := db.deliberation.value.lawId;
    var d1 := ClearDeliberation(db);
    var d2 := ClearDeliberationDecisions(d1, id);
    ClearedQueue(db, id);
    RequeuedQueue(d2, mem, id);
    FinalIsLast(db, RecoverDeliberation(db, mem));
  }

  lemma ClearedQueue(db: Db, id: string)
    ensures ClearDeliberation(db).queue == db.queue && ClearDeliberationDecisions(ClearDeliberation(db), id).queue == db.queue
  {
  }

  lemma Appends(a: Db, b: Db, other: string, id: string)
    requires b.queue == a.queue + [other]
    ensures Copies(b, id) == Copies(a, id) + (if other == id then 1 else 0)
  {
    assert multiset(a.queue + [other]) == multiset(a.queue) + multiset{other};
  }

  lemma SameCopies(a: Db, b: Db, id: string)
    requires b.queue == a.queue
    ensures Copies(b, id) == Copies(a, id)
  {
  }

  /** A second request to repeal a law that is queued for it queues it again. */
  lemma RepealQueuedTwice(cfg: Config, db: Db, mem: Mem, m: Proposal)
    requires m.lawId in db.laws && db.laws[m.lawId].status == Promulgated
    ensures Copies(Final(db, EnqueueDerogacion(cfg, db, mem, m)), m.lawId) == Copies(db, m.lawId) + 1
    ensures !OneCopy(Final(db, EnqueueDerogacion(cfg, db, mem, m)), m.lawId) <==> m.lawId in db.queue
  {
    RepealQueues(cfg, db, mem, m);
    Appends(db, Final(db, EnqueueDerogacion(cfg, db, mem, m)), m.lawId, m.lawId);
    hide EnqueueDerogacion;
  }

  /** A crash between the status and the removal of an announcement makes whoever takes over queue the law again. */
  lemma CutAnnouncementQueuedTwice(p: Platform, db: Db, mem: Mem, a: Announced, next: Mem)
    requires Durable(p, db) && a.lawId in db.laws && a.lawId in db.queue
    ensures |Announce(db, mem, a).steps| == 3
    ensures var cut := StoreAt(db, Announce(db, mem, a), 2);
      && cut.queue == db.queue && ViewOf(cut, a.lawId).announced && cut.laws[a.lawId].status == InDeliberation
      && Final(cut, RecoverDeliberation(cut, next)).queue == db.queue + [a.lawId]
      && !OneCopy(Final(cut, RecoverDeliberation(cut, next)), a.lawId)
  {
    CutAnnouncement(db, mem, a);
    var cut := StoreAt(db, Announce(db, mem, a), 2);
    hide Announce, Durable, RecoverDeliberation;
    var d2 := ClearDeliberationDecisions(ClearDeliberation(cut), a.lawId);
    RecoverShape(cut, next);
    RequeuedQueue(d2, next, a.lawId);
    FinalIsLast(cut, RecoverDeliberation(cut, next));
    Appends(db, Final(cut, RecoverDeliberation(cut, next)), a.lawId, a.lawId);
  }

  lemma CutAnnouncement(db: Db, mem: Mem, a: Announced)
    requires a.lawId in db.laws
    ensures |Announce(db, mem, a).steps| == 3
    ensures var cut := StoreAt(db, Announce(db, mem, a), 2);
      && cut.queue == db.queue && cut.deliberation == Some(a)
      && a.lawId in cut.laws && cut.laws[a.lawId].status == InDeliberation
  {
  }

  /** Opening its window takes every copy out. */
  lemma OpeningTakesEveryCopy(p: Platform, db: Db, mem: Mem, law: Law, o: Opening, s: Senses)
    ensures Copies(Final(db, Installed(p, db, mem, law, o, s)), law.lawId) == 0
  {
    hide WindowOf, ActiveOf, ChallengeOf;
    assert law.lawId !in Final(db, Installed(p, db, mem, law, o, s)).queue;
  }

  // ---- stretches that queue nothing ----

  ghost predicate Fewer(db: Db, steps: seq<Db>) {
    forall i :: 0 <= i < |steps| ==> multiset(steps[i].queue) <= multiset(db.queue)
  }

  /** A law that is queued at most once stays so at each write. */
  ghost predicate Calm(db: Db, steps: seq<Db>, id: string) {
    OneCopy(db, id) ==> forall i :: 0 <= i < |steps| ==> OneCopy(steps[i], id)
  }

  predicate SameQueue(db: Db, steps: seq<Db>) {
    forall i :: 0 <= i < |steps| ==> steps[i].queue == db.queue
  }

  lemma SameIsFewer(db: Db, e: Exec)
    requires SameQueue(db, e.steps)
    ensures Fewer(db, e.steps) && Final(db, e).queue == db.queue
  {
  }

  lemma FewerEnd(db: Db, e: Exec, id: string)
    requires Fewer(db, e.steps)
    ensures Calm(db, e.steps, id) && (id in Final(db, e).queue ==> id in db.queue)
    ensures multiset(Final(db, e).queue) <= multiset(db.queue)
  {
    assert id in Final(db, e).queue <==> multiset(Final(db, e).queue)[id] > 0;
    assert id in db.queue <==> multiset(db.queue)[id] > 0;
  }

  lemma FewerThen(db: Db, e: Exec, next: Exec)
    requires Fewer(db, e.steps) && Fewer(Final(db, e), next.steps)
    ensures Fewer(db, Then(e, next).steps)
  {
    var all := Then(e, next).steps;
    forall i | 0 <= i < |all| ensures multiset(all[i].queue) <= multiset(db.queue) {
      if i >= |e.steps| {
        assert all[i] == next.steps[i - |e.steps|];
        FewerEnd(db, e, "");
      }
    }
  }

  lemma SameQueueThen(db: Db, e: Exec, next: Exec)
    requires SameQueue(db, e.steps) && SameQueue(Final(db, e), next.steps)
    ensures SameQueue(db, Then(e, next).steps)
  {
    SameIsFewer(db, e);
    hide Fewer;
  }

  lemma CalmThen(db: Db, e: Exec, next: Exec, id: string)
    requires Calm(db, e.steps, id) && Calm(Final(db, e), next.steps, id)
    ensures Calm(db, Then(e, next).steps, id)
  {
    hide OneCopy;
    var all := Then(e, next).steps;
    if OneCopy(db, id) {
      assert OneCopy(Final(db, e), id);
      forall i | 0 <= i < |all| ensures OneCopy(all[i], id) {
        assert i >= |e.steps| ==> all[i] == next.steps[i - |e.steps|];
      }
    }
  }

  lemma CalmAt(db: Db, e: Exec, id: string, k: nat)
    requires Calm(db, e.steps, id) && OneCopy(db, id) && k <= |e.steps|
    ensures OneCopy(StoreAt(db, e, k), id)
  {
    hide OneCopy;
  }

  lemma {:induction false} RemovedQueue(queue: seq<string>, id: string)
    ensures multiset(Remove(queue, id)) <= multiset(queue)
  {
    if queue != [] {
      RemovedQueue(queue[1..], id);
      assert queue == [queue[0]] + queue[1..];
    }
  }

  lemma InstalledFewer(p: Platform, db: Db, mem: Mem, law: Law, o: Opening, s: Senses)
    ensures Fewer(db, Installed(p, db, mem, law, o, s).steps)
  {
    hide WindowOf, ActiveOf, ChallengeOf, Remove;
    RemovedQueue(db.queue, law.lawId);
  }

  lemma AnnounceFewer(db: Db, mem: Mem, a: Announced)
    ensures var e := Announce(db, mem, a); Fewer(db, e.steps) && a.lawId !in Final(db, e).queue && |e.steps| == 3
  {
    RemovedQueue(db.queue, a.lawId);
  }

  lemma TurnSame(db: Db, mem: Mem, law: Law)
    ensures SameQueue(db, TurnTaken(db, mem, law).steps)
  {
  }

  lemma MeasuredSame(cfg: Config, db: Db, mem: Mem, s: Senses)
    requires ValidConfig(cfg)
    ensures SameQueue(db, Measured(cfg, db, mem, s).steps)
  {
  }

  lemma MeasuredForSame(cfg: Config, db: Db, mem: Mem, law: Law, voters: seq<Deliberation.Convocado>)
    ensures SameQueue(db, MeasuredFor(cfg, db, mem, law, voters).0.steps)
  {
  }

  lemma {:induction false} VetoesSame(db: Db, id: string, voters: seq<Deliberation.Convocado>)
    ensures SameQueue(db, VetoSteps(db, id, voters))
    decreases |voters|
  {
    if voters != [] {
      VetoesSame(db, id, voters[1..]);
      VetoesSame(SetDeliberationDecision(db, id, voters[0].voterId, Deliberation.REJECT), id, voters[1..]);
    }
  }

  lemma VetoStretchSame(db: Db, mem: Mem, id: string, voters: seq<Deliberation.Convocado>)
    ensures var d := ClearDeliberationDecisions(db, id); SameQueue(db, [d] + VetoSteps(d, id, voters))
  {
    VetoesSame(ClearDeliberationDecisions(db, id), id, voters);
  }

  lemma PauseSame(p: Platform, cfg: Config, db: Db, mem: Mem, s: Senses, a: Announced)
    ensures SameQueue(db, PauseEnded(p, cfg, db, mem, s, a).steps)
  {
    hide Judged, ResultOf;
  }

  lemma ThrownOutSame(db: Db, mem: Mem, id: string, textHash: Option<string>)
    ensures var e := ThrownOut(db, mem, id, textHash); SameQueue(db, e.steps) && e.mem == mem
  {
  }

  lemma CloseSealedSame(db: Db, mem: Mem, wid: string, id: string, action: Action, nonce: int, winner: string)
    ensures var e := CloseSealed(db, mem, wid, id, action, nonce, winner); SameQueue(db, e.steps) && e.mem == mem.(active := None)
  {
  }

  lemma ResultSame(db: Db, wid: string, result: WindowResult)
    ensures SetWindowResult(db, wid, result, None, None).queue == db.queue
  {
  }

  lemma PointerSame(db: Db)
    ensures ClearActiveWindow(db).queue == db.queue
  {
  }

  lemma OneSame(db: Db, d: Db, mem: Mem)
    requires d.queue == db.queue
    ensures SameQueue(db, Exec([d], mem, []).steps) && Final(db, Exec([d], mem, [])) == d
  {
  }

  lemma IdleCalm(db: Db, mem: Mem, id: string)
    ensures Calm(db, Idle(mem).steps, id) && Final(db, Idle(mem)) == db && Idle(mem).mem == mem
  {
  }

  // ---- the law in deliberation ----

  /** The law the leader deliberates on has left the queue. */
  predicate Withdrawn(db: Db, mem: Mem) {
    mem.deliberation.Some? ==> mem.deliberation.value.lawId !in db.queue
  }

  lemma NothingDeliberated(db: Db, mem: Mem)
    requires mem.deliberation.None?
    ensures Withdrawn(db, mem)
  {
  }

  lemma OpenDirectFewer(p: Platform, cfg: Config, db: Db, mem: Mem, s: Senses, law: Law)
    requires ValidConfig(cfg)
    ensures var e := OpenDirect(p, cfg, db, mem, s, law); Fewer(db, e.steps) && e.mem.deliberation == mem.deliberation
  {
    hide *;
    var d := NextWindowNumber(db);
    OpenDirectShape(p, cfg, db, mem, s, law);
    var head, m := Exec([d], mem, []), Measured(cfg, d, mem, s);
    OneSame(db, d, mem);
    MeasuredSame(cfg, d, mem, s);
    MeasuredMem(cfg, d, mem, s);
    SameQueueThen(db, head, m);
    var e1 := Then(head, m);
    ThenShape(head, m);
    SameIsFewer(db, e1);
    var open := Installed(p, Final(db, e1), e1.mem, law, OpeningDirect(cfg, d.counter, law, e1.mem, s), s);
    InstalledFewer(p, Final(db, e1), e1.mem, law, OpeningDirect(cfg, d.counter, law, e1.mem, s), s);
    InstalledMem(p, Final(db, e1), e1.mem, law, OpeningDirect(cfg, d.counter, law, e1.mem, s), s);
    FewerThen(db, e1, open);
    ThenShape(e1, open);
    var e2 := Then(e1, open);
    TurnSame(Final(db, e2), e2.mem, law);
    TurnTakenShape(Final(db, e2), e2.mem, e2.mem, law);
    SameIsFewer(Final(db, e2), TurnTaken(Final(db, e2), e2.mem, law));
    FewerThen(db, e2, TurnTaken(Final(db, e2), e2.mem, law));
    ThenShape(e2, TurnTaken(Final(db, e2), e2.mem, law));
  }

  lemma MeasuredMem(cfg: Config, db: Db, mem: Mem, s: Senses)
    requires ValidConfig(cfg)
    ensures Measured(cfg, db, mem, s).mem.deliberation == mem.deliberation
  {
  }

  lemma OpenFrozenFewer(p: Platform, db: Db, mem: Mem, s: Senses, law: Law, f: Frozen)
    ensures var e := OpenFrozen(p, db, mem, s, law, f); Fewer(db, e.steps) && e.mem.deliberation == mem.deliberation
  {
    hide *;
    OpenFrozenShape(p, db, mem, s, law, f);
    var d := NextWindowNumber(db);
    var o := OpeningFrozen(d.counter, law, mem, s, f);
    OneSame(db, d, mem);
    SameIsFewer(db, Exec([d], mem, []));
    InstalledFewer(p, d, mem, law, o, s);
    InstalledMem(p, d, mem, law, o, s);
    FewerThen(db, Exec([d], mem, []), Installed(p, d, mem, law, o, s));
    ThenShape(Exec([d], mem, []), Installed(p, d, mem, law, o, s));
  }

  lemma StartDeliberationFewer(p: Platform, cfg: Config, db: Db, mem: Mem, s: Senses, law: Law)
    requires ValidConfig(cfg)
    ensures var e := StartDeliberation(p, cfg, db, mem, s, law); Fewer(db, e.steps) && Withdrawn(Final(db, e), e.mem)
  {
    hide *;
    var voters := VotersFor(cfg, s, law);
    var e1 := MeasuredFor(cfg, db, mem, law, voters).0;
    var a := AnnouncementOf(p, cfg, mem, s, law, voters, MeasuredFor(cfg, db, mem, law, voters).1);
    AnnouncementConcerns(p, cfg, mem, s, law, voters, MeasuredFor(cfg, db, mem, law, voters).1);
    MeasuredForSame(cfg, db, mem, law, voters);
    var d := ClearDeliberationDecisions(Final(db, e1), law.lawId);
    var veto := Exec([d] + VetoSteps(d, law.lawId, voters), mem, []);
    VetoStretchSame(Final(db, e1), mem, law.lawId, voters);
    SameQueueThen(db, e1, veto);
    var e2 := Then(e1, veto);
    SameIsFewer(db, e2);
    var announce := Announce(Final(db, e2), mem, a);
    AnnounceFewer(Final(db, e2), mem, a);
    FewerThen(db, e2, announce);
    var e3 := Then(e2, announce);
    FinalOfThen(db, e2, announce);
    var turn := TurnTaken(Final(db, e3), mem, law);
    TurnSame(Final(db, e3), mem, law);
    SameIsFewer(Final(db, e3), turn);
    FewerThen(db, e3, turn);
    FinalOfThen(db, e3, turn);
    StartDeliberationShape(p, cfg, db, mem, s, law, e1, veto, a);
    LeftQueue(db, Then(e3, turn), StartDeliberation(p, cfg, db, mem, s, law), a);
  }

  lemma LeftQueue(db: Db, e: Exec, all: Exec, a: Announced)
    requires a.lawId !in Final(db, e).queue && all == e.(mem := all.mem) && all.mem.deliberation == Some(a)
    ensures Withdrawn(Final(db, all), all.mem)
  {
  }

  lemma MaybeOpenFewer(p: Platform, cfg: Config, db: Db, mem: Mem, s: Senses)
    requires ValidConfig(cfg) && Withdrawn(db, mem)
    ensures var e := MaybeOpen(p, cfg, db, mem, s); Fewer(db, e.steps) && Withdrawn(Final(db, e), e.mem)
  {
    hide NextLaw, StartDeliberation, OpenDirect, Fewer, Withdrawn;
    SameIsFewer(db, Idle(mem));
    if mem.isLeader && mem.active.None? && mem.deliberation.None? {
      var next := NextLaw(cfg, db, mem, s);
      if next.Some? {
        StartDeliberationFewer(p, cfg, db, mem, s, next.value);
        OpenDirectFewer(p, cfg, db, mem, s, next.value);
        var e := OpenDirect(p, cfg, db, mem, s, next.value);
        NothingDeliberated(Final(db, e), e.mem);
      }
    }
  }

  /** A stretch that is calm and then whatever can be opened. */
  lemma AndMaybeOpenCalm(p: Platform, cfg: Config, db: Db, e: Exec, s: Senses, id: string)
    requires ValidConfig(cfg) && Calm(db, e.steps, id) && Withdrawn(Final(db, e), e.mem)
    ensures var all := AndMaybeOpen(p, cfg, db, e, s); Calm(db, all.steps, id) && Withdrawn(Final(db, all), all.mem)
  {
    hide Calm, Withdrawn, MaybeOpen, Fewer, Final;
    var next := MaybeOpen(p, cfg, Final(db, e), e.mem, s);
    MaybeOpenFewer(p, cfg, Final(db, e), e.mem, s);
    FewerEnd(Final(db, e), next, id);
    CalmThen(db, e, next, id);
    FinalOfThen(db, e, next);
  }

  lemma AndMaybeOpenWithdrawn(p: Platform, cfg: Config, db: Db, e: Exec, s: Senses)
    requires ValidConfig(cfg) && Withdrawn(Final(db, e), e.mem)
    ensures var all := AndMaybeOpen(p, cfg, db, e, s); Withdrawn(Final(db, all), all.mem)
  {
    hide Withdrawn, MaybeOpen, Fewer, Final;
    MaybeOpenFewer(p, cfg, Final(db, e), e.mem, s);
    FinalOfThen(db, e, MaybeOpen(p, cfg, Final(db, e), e.mem, s));
  }

  lemma RequeuedCalm(db: Db, mem: Mem, other: string, id: string)
    requires other !in db.queue
    ensures Calm(db, Requeued(db, mem, other).steps, id)
  {
    RequeuedQueue(db, mem, other);
    var e := Requeued(db, mem, other);
    SameCopies(db, e.steps[0], id);
    Appends(db, e.steps[1], other, id);
    hide Requeued, Copies;
  }

  // ---- the handlers ----

  /** The proposal gets to the queue as a repeal. */
  predicate RepealAccepted(db: Db, mem: Mem, m: Proposal) {
    && mem.isLeader && m.author != "" && m.textHash != "" && ValidateCategory(m.category).Success? && m.admitted
    && !IsInCooldown(db, m.author) && m.action == Derogacion
    && m.lawId in db.laws && db.laws[m.lawId].status == Promulgated
  }

  /** A takeover would find this law announced and in deliberation. */
  predicate Orphan(db: Db, id: string) {
    && db.deliberation.Some? && db.deliberation.value.lawId == id
    && id in db.laws && db.laws[id].status == InDeliberation
  }

  /** The event queues the law again although it is queued. */
  predicate Doubles(db: Db, mem: Mem, ev: Event, id: string) {
    && id in db.queue
    && match ev
       case Proposed(m) => m.lawId == id && RepealAccepted(db, mem, m)
       case Promoted => !mem.isLeader && Orphan(db, id)
       case _ => false
  }

  function Leading(db: Db, mem: Mem): Mem {
    mem.(isLeader := true, lastAuthor := db.lastAuthor)
  }

  /** The write at which it does: the third of a repeal, or the fourth of the recovery. */
  function DoubledAt(p: Platform, db: Db, mem: Mem, ev: Event): nat {
    if ev.Promoted? then |Resume(p, db, Leading(db, mem)).steps| + 4 else 3
  }

  /** What a proposal does besides repealing: nothing, at most opening, or queueing a new law. */
  lemma ProposalIs(p: Platform, cfg: Config, db: Db, mem: Mem, s: Senses, m: Proposal)
    requires ValidConfig(cfg)
    ensures var e := HandleProposal(p, cfg, db, mem, s, m);
      if RepealAccepted(db, mem, m) then e == AndMaybeOpen(p, cfg, db, EnqueueDerogacion(cfg, db, mem, m), s)
      else
        || e == Idle(mem) || e == AndMaybeOpen(p, cfg, db, Idle(mem), s)
        || (m.action == Promulgacion
            && exists c :: e == AndMaybeOpen(p, cfg, db, EnqueuePromulgacion(cfg, db, mem, m, c), s))
  {
    hide AndMaybeOpen, EnqueuePromulgacion, ValidateCategory, IsInCooldown;
  }

  lemma PromulgationWrites(cfg: Config, db: Db, mem: Mem, m: Proposal, category: string)
    ensures var e := EnqueuePromulgacion(cfg, db, mem, m, category);
      && |e.steps| == 4 && e.steps[0].queue == e.steps[1].queue == db.queue
      && e.steps[2].queue == e.steps[3].queue == Final(db, e).queue == db.queue + [m.lawId] && e.mem == mem
  {
    hide NormalizeCategory, CooldownUntil;
  }

  /** Four writes of which the third queues a law. */
  lemma QueuedByFour(db: Db, e: Exec, mem: Mem, other: string, id: string)
    requires |e.steps| == 4 && e.steps[0].queue == e.steps[1].queue == db.queue
    requires e.steps[2].queue == e.steps[3].queue == Final(db, e).queue == db.queue + [other] && e.mem == mem
    requires Withdrawn(db, mem) && (mem.deliberation.Some? ==> mem.deliberation.value.lawId != other)
    ensures Withdrawn(Final(db, e), e.mem)
    ensures other != id || id !in db.queue ==> Calm(db, e.steps, id)
    ensures other == id && id in db.queue ==> OneCopy(db, id) ==>
      OneCopy(StoreAt(db, e, 0), id) && OneCopy(StoreAt(db, e, 1), id) && OneCopy(StoreAt(db, e, 2), id) && !OneCopy(StoreAt(db, e, 3), id)
  {
    SameCopies(db, e.steps[0], id);
    SameCopies(db, e.steps[1], id);
    Appends(db, e.steps[2], other, id);
    Appends(db, e.steps[3], other, id);
    hide Copies, Final;
  }

  lemma NewIsNotQueued(p: Platform, db: Db, id: string)
    requires Durable(p, db) && id !in db.laws
    ensures id !in db.queue
  {
  }

  lemma DeliberatedIs(p: Platform, db: Db, mem: Mem)
    requires InStep(p, db, mem) && mem.deliberation.Some?
    ensures var id := mem.deliberation.value.lawId; id in db.laws && db.laws[id].status == InDeliberation
  {
  }

  lemma ProposalQueue(p: Platform, cfg: Config, db: Db, mem: Mem, s: Senses, m: Proposal, id: string)
    requires ValidConfig(cfg) && Durable(p, db) && InStep(p, db, mem) && FreshLaw(db, Proposed(m)) && Withdrawn(db, mem)
    ensures var e := HandleProposal(p, cfg, db, mem, s, m);
      && Withdrawn(Final(db, e), e.mem)
      && (!Doubles(db, mem, Proposed(m), id) ==> Calm(db, e.steps, id))
  {
    hide *;
    ProposalIs(p, cfg, db, mem, s, m);
    IdleCalm(db, mem, id);
    DoublesIs(db, mem, Proposed(m), id);
    if mem.deliberation.Some? {
      DeliberatedIs(p, db, mem);
    }
    if RepealAccepted(db, mem, m) {
      RepealTarget(db, mem, m);
      RepealWrites(cfg, db, mem, m);
      var e := EnqueueDerogacion(cfg, db, mem, m);
      QueuedByFour(db, e, mem, m.lawId, id);
      AndMaybeOpenWithdrawn(p, cfg, db, e, s);
      if !Doubles(db, mem, Proposed(m), id) {
        AndMaybeOpenCalm(p, cfg, db, e, s, id);
      }
    } else {
      AndMaybeOpenCalm(p, cfg, db, Idle(mem), s, id);
      if m.action == Promulgacion {
        FreshPromulgation(db, m);
        NewIsNotQueued(p, db, m.lawId);
        forall c ensures Calm(db, AndMaybeOpen(p, cfg, db, EnqueuePromulgacion(cfg, db, mem, m, c), s).steps, id)
          ensures var all := AndMaybeOpen(p, cfg, db, EnqueuePromulgacion(cfg, db, mem, m, c), s); Withdrawn(Final(db, all), all.mem)
        {
          PromulgationWrites(cfg, db, mem, m, c);
          QueuedByFour(db, EnqueuePromulgacion(cfg, db, mem, m, c), mem, m.lawId, id);
          AndMaybeOpenCalm(p, cfg, db, EnqueuePromulgacion(cfg, db, mem, m, c), s, id);
        }
      }
    }
  }

  lemma FreshPromulgation(db: Db, m: Proposal)
    requires FreshLaw(db, Proposed(m)) && m.action == Promulgacion
    ensures m.lawId !in db.laws
  {
  }

  lemma RepealTarget(db: Db, mem: Mem, m: Proposal)
    requires RepealAccepted(db, mem, m)
    ensures m.lawId in db.laws && db.laws[m.lawId].status == Promulgated
  {
    hide ValidateCategory, IsInCooldown;
  }

  lemma DoublesIs(db: Db, mem: Mem, ev: Event, id: string)
    ensures Doubles(db, mem, ev, id) ==> id in db.queue && (ev.Proposed? || ev.Promoted?)
    ensures ev.Proposed? ==> (Doubles(db, mem, ev, id) <==> id in db.queue && ev.proposal.lawId == id && RepealAccepted(db, mem, ev.proposal))
    ensures ev.Promoted? ==> (Doubles(db, mem, ev, id) <==> id in db.queue && !mem.isLeader && Orphan(db, id))
  {
    hide RepealAccepted, Orphan;
  }

  lemma AfterPauseQueue(p: Platform, cfg: Config, db: Db, mem: Mem, s: Senses, a: Announced, next: Exec, id: string)
    requires var e := PauseEnded(p, cfg, db, mem, s, a); Calm(Final(db, e), next.steps, id) && next.mem.deliberation.None?
    ensures var all := Then(PauseEnded(p, cfg, db, mem, s, a), next);
      Calm(db, all.steps, id) && Withdrawn(Final(db, all), all.mem)
  {
    hide *;
    var e := PauseEnded(p, cfg, db, mem, s, a);
    PauseSame(p, cfg, db, mem, s, a);
    SameIsFewer(db, e);
    FewerEnd(db, e, id);
    CalmThen(db, e, next, id);
    ThenShape(e, next);
    NothingDeliberated(Final(db, Then(e, next)), Then(e, next).mem);
  }

  lemma SameCalm(db: Db, e: Exec, id: string)
    requires SameQueue(db, e.steps)
    ensures Calm(db, e.steps, id)
  {
    hide *;
    SameIsFewer(db, e);
    FewerEnd(db, e, id);
  }

  lemma DeliberationQueue(p: Platform, cfg: Config, db: Db, mem: Mem, s: Senses, id: string)
    requires ValidConfig(cfg) && Durable(p, db) && InStep(p, db, mem) && Withdrawn(db, mem) && mem.deliberation.Some?
    ensures var e := ResolveDeliberation(p, cfg, db, mem, s, mem.deliberation.value);
      Calm(db, e.steps, id) && Withdrawn(Final(db, e), e.mem)
  {
    hide *;
    var a := mem.deliberation.value;
    WithdrawnIs(db, mem);
    RememberedAnnouncement(p, db, mem);
    PauseEndedSound(p, cfg, db, mem, s, a);
    PauseSame(p, cfg, db, mem, s, a);
    ResolveShape(p, cfg, db, mem, s, a);
    var (outcome, accepted, _) := Judged(cfg, db, a);
    var e := PauseEnded(p, cfg, db, mem, s, a);
    SameIsFewer(db, e);
    var d := Final(db, e);
    var law := d.laws[a.lawId];
    match outcome
    case Open =>
      var next := OpenFrozen(p, d, e.mem, s, law, Frozen(a, accepted));
      OpenFrozenFewer(p, d, e.mem, s, law, Frozen(a, accepted));
      FewerEnd(d, next, id);
      AfterPauseQueue(p, cfg, db, mem, s, a, next, id);
    case Discard =>
      ThrownOutSame(d, e.mem, a.lawId, Some(law.textHash));
      ResolvedWithout(p, cfg, db, mem, s, a, ThrownOut(d, e.mem, a.lawId, Some(law.textHash)), id);
    case Unanswered =>
      ThrownOutSame(d, e.mem, a.lawId, None);
      ResolvedWithout(p, cfg, db, mem, s, a, ThrownOut(d, e.mem, a.lawId, None), id);
    case Requeue =>
      RequeuedQueue(d, e.mem, a.lawId);
      RequeuedCalm(d, e.mem, a.lawId, id);
      AfterPauseQueue(p, cfg, db, mem, s, a, Requeued(d, e.mem, a.lawId), id);
      AndMaybeOpenCalm(p, cfg, db, Then(e, Requeued(d, e.mem, a.lawId)), s, id);
  }

  lemma ResolvedWithout(p: Platform, cfg: Config, db: Db, mem: Mem, s: Senses, a: Announced, next: Exec, id: string)
    requires ValidConfig(cfg)
    requires var e := PauseEnded(p, cfg, db, mem, s, a); SameQueue(Final(db, e), next.steps) && next.mem.deliberation.None?
    ensures var all := AndMaybeOpen(p, cfg, db, Then(PauseEnded(p, cfg, db, mem, s, a), next), s);
      Calm(db, all.steps, id) && Withdrawn(Final(db, all), all.mem)
  {
    hide *;
    var e := PauseEnded(p, cfg, db, mem, s, a);
    SameCalm(Final(db, e), next, id);
    AfterPauseQueue(p, cfg, db, mem, s, a, next, id);
    AndMaybeOpenCalm(p, cfg, db, Then(e, next), s, id);
  }

  lemma WithdrawnIs(db: Db, mem: Mem)
    requires Withdrawn(db, mem) && mem.deliberation.Some?
    ensures mem.deliberation.value.lawId !in db.queue
  {
  }

  lemma SealSame(p: Platform, db: Db, mem: Mem, s: Senses, a: Active, nonce: int, winner: string)
    requires AppendBlock(db, BlockOf(p, db, a, nonce, winner, s)).1
    ensures var e := Seal(p, db, mem, s, a, nonce, winner); SameQueue(db, e.steps) && e.mem == mem.(active := None)
  {
    hide *;
    SealShape(p, db, mem, s, a, nonce, winner);
    var d := AppendBlock(db, BlockOf(p, db, a, nonce, winner, s)).0;
    AppendShape(db, BlockOf(p, db, a, nonce, winner, s));
    OneSame(db, d, mem);
    CloseSealedSame(d, mem, a.wid, a.lawId, a.action, nonce, winner);
    SameQueueThen(db, Exec([d], mem, []), CloseSealed(d, mem, a.wid, a.lawId, a.action, nonce, winner));
    ThenShape(Exec([d], mem, []), CloseSealed(d, mem, a.wid, a.lawId, a.action, nonce, winner));
  }

  lemma GuardSame(db: Db, wid: string, winner: string)
    ensures TrySealWindow(db, wid, winner).0.queue == db.queue && ReleaseWindowSeal(db, wid).queue == db.queue
  {
  }

  lemma NonceQueue(p: Platform, cfg: Config, db: Db, mem: Mem, s: Senses, m: Solution, id: string)
    requires Assumptions(p, cfg) && Durable(p, db) && InStep(p, db, mem) && Withdrawn(db, mem)
    ensures var e := HandleNonce(p, cfg, db, mem, s, m); Calm(db, e.steps, id) && Withdrawn(Final(db, e), e.mem)
  {
    hide *;
    AssumedConfig(p, cfg);
    HandleNonceShape(p, cfg, db, mem, s, m);
    IdleCalm(db, mem, id);
    if mem.active.Some? && VerifyNonce(p, mem.active.value.base, m.nonce, mem.active.value.nZeros) {
      var a := mem.active.value;
      ActiveMemory(p, db, mem);
      GuardTaken(p, db, a, WinnerName(m.winner));
      var d := TrySealWindow(db, a.wid, WinnerName(m.winner)).0;
      GuardSame(db, a.wid, WinnerName(m.winner));
      RebuiltFrom(p, a.wid, d.windows[a.wid], GetLaw(d, d.windows[a.wid].lawId), a);
      BlockIsFromWindow(p, d, a, m.nonce, m.winner, s);
      PointedLawHeld(p, d, a.wid);
      AppendWrite(p, d, BlockOf(p, d, a, m.nonce, m.winner, s));
      SealSame(p, d, mem, s, a, m.nonce, m.winner);
      var head, seal := Exec([d], mem, []), Seal(p, d, mem, s, a, m.nonce, m.winner);
      OneSame(db, d, mem);
      SameQueueThen(db, head, seal);
      ThenShape(head, seal);
      SameCalm(db, Then(head, seal), id);
      NothingDeliberated(Final(db, Then(head, seal)), Then(head, seal).mem);
      AndMaybeOpenCalm(p, cfg, db, Then(head, seal), s, id);
    }
  }

  lemma ActiveIsNotQueued(p: Platform, db: Db, a: Active)
    requires Durable(p, db) && ActiveInStep(p, db, a)
    ensures a.lawId !in db.queue
  {
    hide *;
    ActivePointer(p, db, a);
    OpenPointer(p, db, a);
    HeldView(p, db, a.wid);
    StatusOfView(db, a.lawId);
  }

  /** A result, a stretch in the middle, and the pointer cleared. */
  lemma BetweenCalm(db: Db, d1: Db, middle: Exec, mem: Mem, id: string)
    requires d1.queue == db.queue && Calm(d1, middle.steps, id)
    ensures Calm(db, [d1] + middle.steps + [ClearActiveWindow(Final(d1, middle))], id)
  {
    hide *;
    var head, last := Exec([d1], mem, []), ClearActiveWindow(Final(d1, middle));
    OneSame(db, d1, mem);
    SameCalm(db, head, id);
    CalmThen(db, head, middle, id);
    FinalOfThen(db, head, middle);
    ThenShape(head, middle);
    PointerSame(Final(d1, middle));
    OneSame(Final(d1, middle), last, mem);
    SameCalm(Final(d1, middle), Exec([last], mem, []), id);
    CalmThen(db, Then(head, middle), Exec([last], mem, []), id);
    ThenShape(Then(head, middle), Exec([last], mem, []));
  }

  lemma ExpiredCalm(db: Db, mem: Mem, a: Active, id: string)
    requires a.lawId !in db.queue
    ensures var e := Expired(db, mem, a); Calm(db, e.steps, id) && e.mem == mem.(active := None)
    ensures var e := ExpiredWithoutQuorum(db, mem, a); Calm(db, e.steps, id) && e.mem == mem.(active := None)
  {
    hide *;
    var textHash := if GetLaw(db, a.lawId).Some? then Some(GetLaw(db, a.lawId).value.textHash) else None;
    var d1 := SetWindowResult(db, a.wid, ExpiredPending, None, None);
    ResultSame(db, a.wid, ExpiredPending);
    ExpiredShape(db, mem, a, d1, textHash);
    ThrownOutSame(d1, mem, a.lawId, textHash);
    SameCalm(d1, ThrownOut(d1, mem, a.lawId, textHash), id);
    BetweenCalm(db, d1, ThrownOut(d1, mem, a.lawId, textHash), mem, id);
    var d2 := SetWindowResult(db, a.wid, ExpiredNoQuorum, None, None);
    ResultSame(db, a.wid, ExpiredNoQuorum);
    ExpiredWithoutQuorumShape(db, mem, a, d2);
    RequeuedCalm(d2, mem, a.lawId, id);
    BetweenCalm(db, d2, Requeued(d2, mem, a.lawId), mem, id);
  }

  lemma DeadlineQueue(p: Platform, cfg: Config, db: Db, mem: Mem, s: Senses, id: string)
    requires ValidConfig(cfg) && Durable(p, db) && InStep(p, db, mem) && Withdrawn(db, mem)
    ensures var e := CheckDeadline(p, cfg, db, mem, s); Calm(db, e.steps, id) && Withdrawn(Final(db, e), e.mem)
  {
    hide *;
    CheckDeadlineShape(p, cfg, db, mem, s);
    IdleCalm(db, mem, id);
    if mem.active.Some? {
      var a := mem.active.value;
      ActiveMemory(p, db, mem);
      ActiveIsNotQueued(p, db, a);
      ExpiredCalm(db, mem, a, id);
      NothingDeliberated(Final(db, Expired(db, mem, a)), Expired(db, mem, a).mem);
      NothingDeliberated(Final(db, ExpiredWithoutQuorum(db, mem, a)), ExpiredWithoutQuorum(db, mem, a).mem);
      AndMaybeOpenCalm(p, cfg, db, Expired(db, mem, a), s, id);
      AndMaybeOpenCalm(p, cfg, db, ExpiredWithoutQuorum(db, mem, a), s, id);
    }
  }

  // ---- taking over ----

  /** Resuming touches neither the queue nor the announcement, and no law enters or leaves deliberation. */
  lemma ResumeSame(p: Platform, db: Db, mem: Mem)
    requires Durable(p, db) && mem.isLeader && mem.deliberation.None?
    ensures var e := Resume(p, db, mem);
      && SameQueue(db, e.steps) && Final(db, e).deliberation == db.deliberation
      && forall id :: Orphan(Final(db, e), id) <==> Orphan(db, id)
  {
    hide *;
    ResumeShape(p, db, mem);
    var e := Resume(p, db, mem);
    IdleSame(db, mem.(active := None));
    SameOrphans(db, db);
    if db.active.Some? {
      var wid := db.active.value;
      PointerKnown(p, db);
      LastBlockShows(p, db, wid);
      if db.windows[wid].result.Some? {
        ClearedSame(db, e);
      } else if LastIs(Blocks(db), wid) {
        var last := GetBlock(db.blocks, LastBlockHash(db)).value;
        PointedLawKnown(p, db, wid);
        HeldView(p, db, wid);
        StatusOfView(db, db.windows[wid].lawId);
        CloseSealedSame(db, mem, wid, db.windows[wid].lawId, db.windows[wid].action, last.nonce, last.winningNodeOrPool);
        SealedOrphans(db, mem, wid, db.windows[wid].lawId, db.windows[wid].action, last.nonce, last.winningNodeOrPool);
      } else {
        RebuiltInStep(p, db, wid);
        ReleasedSame(db, e, wid);
      }
    }
  }

  lemma IdleSame(db: Db, mem: Mem)
    ensures SameQueue(db, Idle(mem).steps) && Final(db, Idle(mem)) == db
  {
  }

  lemma SameOrphans(db: Db, d: Db)
    requires d.deliberation == db.deliberation && d.laws == db.laws
    ensures forall id :: Orphan(d, id) <==> Orphan(db, id)
  {
  }

  lemma ClearedSame(db: Db, e: Exec)
    requires e.steps == [ClearActiveWindow(db)]
    ensures SameQueue(db, e.steps) && Final(db, e).deliberation == db.deliberation
    ensures forall id :: Orphan(Final(db, e), id) <==> Orphan(db, id)
  {
  }

  lemma ReleasedSame(db: Db, e: Exec, wid: string)
    requires e.steps == [ReleaseWindowSeal(db, wid)] || e.steps == []
    ensures SameQueue(db, e.steps) && Final(db, e).deliberation == db.deliberation
    ensures forall id :: Orphan(Final(db, e), id) <==> Orphan(db, id)
  {
  }

  lemma SealedOrphans(db: Db, mem: Mem, wid: string, held: string, action: Action, nonce: int, winner: string)
    requires held in db.laws && db.laws[held].status == InWindow
    ensures var d := Final(db, CloseSealed(db, mem, wid, held, action, nonce, winner));
      d.deliberation == db.deliberation && forall id :: Orphan(d, id) <==> Orphan(db, id)
  {
    ClosedLaws(db, mem, wid, held, action, nonce, winner);
    hide CloseSealed, Final;
  }

  lemma ClosedLaws(db: Db, mem: Mem, wid: string, held: string, action: Action, nonce: int, winner: string)
    ensures var d := Final(db, CloseSealed(db, mem, wid, held, action, nonce, winner));
      && d.laws == SetLawStatus(db, held, if action == Derogacion then Repealed else Promulgated).laws
      && d.deliberation == db.deliberation
  {
  }

  lemma OrphanIs(db: Db, id: string)
    ensures Orphan(db, id) <==>
      db.deliberation.Some? && db.deliberation.value.lawId == id && id in db.laws && db.laws[id].status == InDeliberation
  {
  }

  /** The recovery is calm unless it recovers a law that is queued. */
  lemma RecoverCalm(p: Platform, db: Db, mem: Mem, id: string)
    requires Durable(p, db) && mem.deliberation.None?
    ensures var e := RecoverDeliberation(db, mem);
      && (!(Orphan(db, id) && id in db.queue) ==> Calm(db, e.steps, id)) && e.mem == mem
      && (Orphan(db, id) && id in db.queue ==>
          |e.steps| == 4 && SameQueue(db, e.steps[..3]) && e.steps[3].queue == db.queue + [id])
  {
    hide *;
    var e := RecoverDeliberation(db, mem);
    OrphanIs(db, id);
    if db.deliberation.None? {
      RecoverNothing(db, mem);
      SameMemory(mem);
      IdleCalm(db, mem, id);
      IdleCalm(db, mem.(deliberation := None), id);
    } else {
      var other := db.deliberation.value.lawId;
      DeliberatedReady(p, db);
      RecoverShape(db, mem);
      SameMemory(mem);
      if db.laws[other].status == InDeliberation {
        RecoveryQueues(p, db, mem);
        RecoveredCopies(db, e, other, id);
      } else {
        ClearedQueue(db, other);
        assert e.steps == [ClearDeliberation(db), ClearDeliberationDecisions(ClearDeliberation(db), other)];
        TwoSame(db, e);
        SameCalm(db, e, id);
      }
    }
  }

  lemma TwoSame(db: Db, e: Exec)
    requires |e.steps| == 2 && e.steps[0].queue == e.steps[1].queue == db.queue
    ensures SameQueue(db, e.steps)
  {
  }

  lemma RecoveredCopies(db: Db, e: Exec, other: string, id: string)
    requires |e.steps| == 4 && e.steps[0].queue == e.steps[1].queue == e.steps[2].queue == db.queue
    requires e.steps[3].queue == db.queue + [other]
    ensures SameQueue(db, e.steps[..3]) && (other != id || id !in db.queue ==> Calm(db, e.steps, id))
  {
    SameCopies(db, e.steps[0], id);
    SameCopies(db, e.steps[1], id);
    SameCopies(db, e.steps[2], id);
    Appends(db, e.steps[3], other, id);
    hide Copies;
  }

  /** The first two parts of become_leader. */
  function TakeOver(p: Platform, db: Db, mem: Mem): Exec {
    var e1 := Resume(p, db, Leading(db, mem));
    Then(e1, RecoverDeliberation(Final(db, e1), e1.mem))
  }

  lemma TakeOverIs(p: Platform, db: Db, mem: Mem)
    ensures var e1 := Resume(p, db, mem.(isLeader := true, lastAuthor := db.lastAuthor));
      && TakeOver(p, db, mem) == Then(e1, RecoverDeliberation(Final(db, e1), e1.mem))
      && DoubledAt(p, db, mem, Promoted) == |e1.steps| + 4
  {
    hide Resume, RecoverDeliberation, Then;
  }

  lemma TakeOverQueue(p: Platform, db: Db, mem: Mem, id: string)
    requires Durable(p, db) && !mem.isLeader && mem.deliberation.None?
    ensures var e := TakeOver(p, db, mem);
      && Sound(p, db, e) && e.mem.deliberation.None?
      && (!Doubles(db, mem, Promoted, id) ==> Calm(db, e.steps, id))
      && (Doubles(db, mem, Promoted, id) ==>
          && |e.steps| == DoubledAt(p, db, mem, Promoted)
          && SameQueue(db, e.steps[..|e.steps| - 1]) && e.steps[|e.steps| - 1].queue == db.queue + [id])
  {
    hide *;
    var lead := mem.(isLeader := true, lastAuthor := db.lastAuthor);
    TakeOverIs(p, db, mem);
    DoublesIs(db, mem, Promoted, id);
    var e1 := Resume(p, db, lead);
    ResumeSound(p, db, lead);
    ResumeRecoverSound(p, db, lead);
    SoundFinal(p, db, e1);
    ResumeSame(p, db, lead);
    ResumeSilent(p, db, lead);
    SameIsFewer(db, e1);
    var d := Final(db, e1);
    var next := RecoverDeliberation(d, e1.mem);
    RecoverCalm(p, d, e1.mem, id);
    ThenShape(e1, next);
    SameCalm(db, e1, id);
    if Doubles(db, mem, Promoted, id) {
      SamePrefix(db, d, e1.steps, next.steps);
    } else {
      CalmThen(db, e1, next, id);
    }
  }

  lemma ResumeSilent(p: Platform, db: Db, mem: Mem)
    requires mem.deliberation.None?
    ensures Resume(p, db, mem).mem.deliberation.None?
  {
    hide Rebuilt, SetWindowResult, SetLawStatus;
  }

  lemma SamePrefix(db: Db, d: Db, first: seq<Db>, next: seq<Db>)
    requires SameQueue(db, first) && d.queue == db.queue && |next| == 4 && SameQueue(d, next[..3])
    ensures var all := first + next; SameQueue(db, all[..|all| - 1]) && all[|all| - 1] == next[3]
  {
    var all := first + next;
    assert all[..|all| - 1] == first + next[..3];
    assert forall i :: 0 <= i < 3 ==> next[..3][i] == next[i];
  }

  lemma PromotionQueue(p: Platform, cfg: Config, db: Db, mem: Mem, s: Senses, id: string)
    requires Assumptions(p, cfg) && Durable(p, db) && InStep(p, db, mem) && Withdrawn(db, mem)
    ensures var e := BecomeLeader(p, cfg, db, mem, s);
      && Withdrawn(Final(db, e), e.mem)
      && (!Doubles(db, mem, Promoted, id) ==> Calm(db, e.steps, id))
  {
    hide *;
    AssumedConfig(p, cfg);
    BecomeLeaderShape(p, cfg, db, mem, s);
    IdleCalm(db, mem, id);
    if !mem.isLeader {
      FollowerIsBlank(p, db, mem);
      TakeOverIs(p, db, mem);
      TakeOverQueue(p, db, mem, id);
      var e2 := TakeOver(p, db, mem);
      SoundFinal(p, db, e2);
      NothingDeliberated(Final(db, e2), e2.mem);
      var c := CheckDeadline(p, cfg, Final(db, e2), e2.mem, s);
      DeadlineQueue(p, cfg, Final(db, e2), e2.mem, s, id);
      FinalOfThen(db, e2, c);
      ThenShape(e2, c);
      AndMaybeOpenWithdrawn(p, cfg, db, Then(e2, c), s);
      if !Doubles(db, mem, Promoted, id) {
        CalmThen(db, e2, c, id);
        AndMaybeOpenCalm(p, cfg, db, Then(e2, c), s, id);
      }
    }
  }

  lemma CheckDeliberationIs(p: Platform, cfg: Config, db: Db, mem: Mem, s: Senses)
    requires ValidConfig(cfg)
    ensures var e := CheckDeliberation(p, cfg, db, mem, s);
      e == Idle(mem) || (mem.deliberation.Some? && e == ResolveDeliberation(p, cfg, db, mem, s, mem.deliberation.value))
  {
    hide ResolveDeliberation, Deliberation.AllAnswered;
  }

  /** Whatever the event: short of doubling it, a law that is queued once is queued at most once at every write, and the law
      in deliberation stays out of the queue. */
  lemma HandledCalm(p: Platform, cfg: Config, db: Db, mem: Mem, s: Senses, ev: Event, id: string)
    requires Assumptions(p, cfg) && Durable(p, db) && InStep(p, db, mem) && FreshLaw(db, ev) && Withdrawn(db, mem)
    ensures var e := Handled(p, cfg, db, mem, s, ev);
      && Withdrawn(Final(db, e), e.mem)
      && (!Doubles(db, mem, ev, id) ==> Calm(db, e.steps, id))
  {
    hide *;
    AssumedConfig(p, cfg);
    HandledIs(p, cfg, db, mem, s, ev);
    IdleCalm(db, mem, id);
    match ev
    case Proposed(m) => ProposalQueue(p, cfg, db, mem, s, m, id);
    case Answered(m) => NonceQueue(p, cfg, db, mem, s, m, id);
    case DeliberationTick =>
      CheckDeliberationIs(p, cfg, db, mem, s);
      if mem.deliberation.Some? {
        DeliberationQueue(p, cfg, db, mem, s, id);
      }
    case DeadlineTick => DeadlineQueue(p, cfg, db, mem, s, id);
    case OpenTick =>
      MaybeOpenFewer(p, cfg, db, mem, s);
      FewerEnd(db, MaybeOpen(p, cfg, db, mem, s), id);
    case Promoted => PromotionQueue(p, cfg, db, mem, s, id);
  }

  // ---- exactly when a law is queued twice ----

  lemma PrefixStore(db: Db, first: Exec, all: Exec, k: nat)
    requires |first.steps| <= |all.steps| && all.steps[..|first.steps|] == first.steps && k <= |first.steps|
    ensures StoreAt(db, all, k) == StoreAt(db, first, k)
  {
    assert k > 0 ==> all.steps[..|first.steps|][k - 1] == all.steps[k - 1];
  }

  lemma LastDoubles(db: Db, e: Exec, id: string)
    requires e.steps != [] && OneCopy(db, id) && id in db.queue
    requires SameQueue(db, e.steps[..|e.steps| - 1]) && e.steps[|e.steps| - 1].queue == db.queue + [id]
    ensures !OneCopy(StoreAt(db, e, |e.steps|), id) && forall k :: 0 <= k < |e.steps| ==> OneCopy(StoreAt(db, e, k), id)
  {
    var n := |e.steps| - 1;
    Appends(db, e.steps[n], id, id);
    forall k | 0 <= k <= n ensures OneCopy(StoreAt(db, e, k), id) {
      assert k > 0 ==> e.steps[..n][k - 1] == e.steps[k - 1];
      SameCopies(db, StoreAt(db, e, k), id);
    }
  }

  lemma RepealDoubles(p: Platform, cfg: Config, db: Db, mem: Mem, s: Senses, m: Proposal)
    requires Assumptions(p, cfg) && Durable(p, db) && InStep(p, db, mem) && Withdrawn(db, mem)
    requires RepealAccepted(db, mem, m) && m.lawId in db.queue && OneCopy(db, m.lawId)
    ensures var e := HandleProposal(p, cfg, db, mem, s, m);
      && |e.steps| >= 3 && !OneCopy(StoreAt(db, e, 3), m.lawId)
      && forall k :: 0 <= k < 3 ==> OneCopy(StoreAt(db, e, k), m.lawId)
  {
    hide *;
    AssumedConfig(p, cfg);
    ProposalIs(p, cfg, db, mem, s, m);
    RepealTarget(db, mem, m);
    RepealWrites(cfg, db, mem, m);
    if mem.deliberation.Some? {
      DeliberatedIs(p, db, mem);
    }
    var first := EnqueueDerogacion(cfg, db, mem, m);
    QueuedByFour(db, first, mem, m.lawId, m.lawId);
    AndMaybeOpenStarts(p, cfg, db, first, s);
    var e := HandleProposal(p, cfg, db, mem, s, m);
    PrefixStore(db, first, e, 0);
    PrefixStore(db, first, e, 1);
    PrefixStore(db, first, e, 2);
    PrefixStore(db, first, e, 3);
  }

  lemma RecoveryDoubles(p: Platform, cfg: Config, db: Db, mem: Mem, s: Senses, id: string)
    requires Assumptions(p, cfg) && Durable(p, db) && InStep(p, db, mem) && Doubles(db, mem, Promoted, id) && OneCopy(db, id)
    ensures var e, at := BecomeLeader(p, cfg, db, mem, s), DoubledAt(p, db, mem, Promoted);
      && |e.steps| >= at && !OneCopy(StoreAt(db, e, at), id)
      && forall k :: 0 <= k < at ==> OneCopy(StoreAt(db, e, k), id)
  {
    hide *;
    AssumedConfig(p, cfg);
    DoublesIs(db, mem, Promoted, id);
    FollowerIsBlank(p, db, mem);
    TakeOverIs(p, db, mem);
    TakeOverQueue(p, db, mem, id);
    BecomeLeaderShape(p, cfg, db, mem, s);
    var e2 := TakeOver(p, db, mem);
    var c := CheckDeadline(p, cfg, Final(db, e2), e2.mem, s);
    LastDoubles(db, e2, id);
    ThenShape(e2, c);
    AndMaybeOpenStarts(p, cfg, db, Then(e2, c), s);
    var e := BecomeLeader(p, cfg, db, mem, s);
    LongerPrefix(e2.steps, c.steps, e.steps);
    forall k | 0 <= k <= |e2.steps| ensures StoreAt(db, e, k) == StoreAt(db, e2, k) {
      PrefixStore(db, e2, e, k);
    }
  }

  lemma LongerPrefix(a: seq<Db>, b: seq<Db>, all: seq<Db>)
    requires |all| >= |a + b| && all[..|a + b|] == a + b
    ensures all[..|a|] == a
  {
    assert all[..|a|] == all[..|a + b|][..|a|];
  }

  /** Within its first n writes a handler queues a law twice exactly if it doubles it, and not before the write that
      does. */
  lemma HandledCopies(p: Platform, cfg: Config, db: Db, mem: Mem, s: Senses, ev: Event, id: string, n: nat)
    requires Assumptions(p, cfg) && Durable(p, db) && InStep(p, db, mem) && FreshLaw(db, ev) && Withdrawn(db, mem)
    requires OneCopy(db, id) && n <= |Handled(p, cfg, db, mem, s, ev).steps|
    ensures var e := Handled(p, cfg, db, mem, s, ev);
      (exists k :: 0 <= k <= n && !OneCopy(StoreAt(db, e, k), id)) <==> Doubles(db, mem, ev, id) && n >= DoubledAt(p, db, mem, ev)
  {
    hide *;
    AssumedConfig(p, cfg);
    HandledIs(p, cfg, db, mem, s, ev);
    DoublesIs(db, mem, ev, id);
    DoubledAtIs(p, db, mem, ev);
    var e := Handled(p, cfg, db, mem, s, ev);
    if Doubles(db, mem, ev, id) {
      if ev.Proposed? {
        RepealDoubles(p, cfg, db, mem, s, ev.proposal);
      } else {
        RecoveryDoubles(p, cfg, db, mem, s, id);
      }
    } else {
      HandledCalm(p, cfg, db, mem, s, ev, id);
      forall k | 0 <= k <= n ensures OneCopy(StoreAt(db, e, k), id) {
        CalmAt(db, e, id, k);
      }
    }
  }

  lemma DoubledAtIs(p: Platform, db: Db, mem: Mem, ev: Event)
    ensures ev.Proposed? ==> DoubledAt(p, db, mem, ev) == 3
    ensures ev.Promoted? ==> DoubledAt(p, db, mem, ev) == DoubledAt(p, db, mem, Promoted)
  {
  }

  // ---- runs ----

  /** The step gets as far as queueing the law again. */
  predicate QueuesTwice(p: Platform, sys: System, step: Step, id: string) {
    match step
    case Handle(ev, _) => Doubles(sys.db, sys.mem, ev, id)
    case Crash(ev, _, n, _) => Doubles(sys.db, sys.mem, ev, id) && n >= DoubledAt(p, sys.db, sys.mem, ev)
    case _ => false
  }

  /** The law is queued at most once before the step and at every write of it. */
  ghost predicate OnceThroughout(p: Platform, cfg: Config, sys: System, step: Step, id: string)
    requires ValidConfig(cfg) && Legal(p, cfg, sys, step)
  {
    match step
    case Handle(ev, s) =>
      var e := Handled(p, cfg, sys.db, sys.mem, s, ev);
      forall k :: 0 <= k <= |e.steps| ==> OneCopy(StoreAt(sys.db, e, k), id)
    case Crash(ev, s, n, _) =>
      var e := Handled(p, cfg, sys.db, sys.mem, s, ev);
      forall k :: 0 <= k <= n ==> OneCopy(StoreAt(sys.db, e, k), id)
    case _ => OneCopy(sys.db, id)
  }

  lemma FinalIsAt(db: Db, e: Exec)
    ensures Final(db, e) == StoreAt(db, e, |e.steps|)
  {
  }

  /** A handler that gets to its end. */
  lemma WholeHandlerCopies(p: Platform, cfg: Config, db: Db, mem: Mem, s: Senses, ev: Event, id: string)
    requires Assumptions(p, cfg) && Durable(p, db) && InStep(p, db, mem) && FreshLaw(db, ev) && Withdrawn(db, mem) && OneCopy(db, id)
    ensures var e := Handled(p, cfg, db, mem, s, ev);
      (forall k :: 0 <= k <= |e.steps| ==> OneCopy(StoreAt(db, e, k), id)) <==> !Doubles(db, mem, ev, id)
  {
    hide *;
    AssumedConfig(p, cfg);
    var e := Handled(p, cfg, db, mem, s, ev);
    HandledCopies(p, cfg, db, mem, s, ev, id, |e.steps|);
    if Doubles(db, mem, ev, id) {
      DoublesIs(db, mem, ev, id);
      DoubledAtIs(p, db, mem, ev);
      HandledIs(p, cfg, db, mem, s, ev);
      if ev.Proposed? {
        RepealDoubles(p, cfg, db, mem, s, ev.proposal);
      } else {
        RecoveryDoubles(p, cfg, db, mem, s, id);
      }
    }
  }

  lemma SteppedDownWithdrawn(db: Db, mem: Mem)
    requires Withdrawn(db, mem)
    ensures Withdrawn(db, SteppedDown(mem))
  {
  }

  lemma StepWithdrawn(p: Platform, cfg: Config, sys: System, step: Step)
    requires Assumptions(p, cfg) && Durable(p, sys.db) && InStep(p, sys.db, sys.mem) && Legal(p, cfg, sys, step)
    requires Withdrawn(sys.db, sys.mem)
    ensures var next := After(p, cfg, sys, step); Withdrawn(next.db, next.mem)
  {
    AssumedConfig(p, cfg);
    SteppedDownWithdrawn(sys.db, sys.mem);
    hide Durable, InStep, Handled, Assumptions, SteppedDown;
    match step
    case Handle(ev, s) => HandledCalm(p, cfg, sys.db, sys.mem, s, ev, "");
    case Crash(ev, s, k, next) =>
    case Replace(next) =>
    case StepDown =>
    case GuardLapses(wid) =>
    case Vote(id, voter, decision) =>
  }

  /** One step: the law is queued at most once at every write exactly if the step does not queue it twice, and then also
      after it. */
  lemma StepCopies(p: Platform, cfg: Config, sys: System, step: Step, id: string)
    requires Assumptions(p, cfg) && Durable(p, sys.db) && InStep(p, sys.db, sys.mem) && Legal(p, cfg, sys, step)
    requires Withdrawn(sys.db, sys.mem) && OneCopy(sys.db, id)
    ensures OnceThroughout(p, cfg, sys, step, id) <==> !QueuesTwice(p, sys, step, id)
    ensures OnceThroughout(p, cfg, sys, step, id) ==> OneCopy(After(p, cfg, sys, step).db, id)
  {
    AssumedConfig(p, cfg);
    hide Durable, InStep, Handled, Assumptions, SteppedDown, Withdrawn, Doubles, DoubledAt, Copies, Final, StoreAt, Copies;
    match step
    case Handle(ev, s) =>
      WholeHandlerCopies(p, cfg, sys.db, sys.mem, s, ev, id);
      FinalIsAt(sys.db, Handled(p, cfg, sys.db, sys.mem, s, ev));
    case Crash(ev, s, k, next) => HandledCopies(p, cfg, sys.db, sys.mem, s, ev, id, k);
    case Replace(next) =>
    case StepDown =>
    case GuardLapses(wid) => SameCopies(sys.db, ReleaseWindowSeal(sys.db, wid), id);
    case Vote(other, voter, decision) => SameCopies(sys.db, SetDeliberationDecision(sys.db, other, voter, decision), id);
  }

  lemma InitialQueue(sys: System, id: string)
    requires Initial(sys)
    ensures Withdrawn(sys.db, sys.mem) && OneCopy(sys.db, id)
  {
  }

  lemma {:induction false} RunWithdrawn(p: Platform, cfg: Config, systems: seq<System>, run: seq<Step>, j: nat)
    requires Assumptions(p, cfg) && Execution(p, cfg, systems, run) && Initial(systems[0]) && j < |systems|
    ensures Withdrawn(systems[j].db, systems[j].mem)
    decreases j
  {
    hide *;
    AssumedConfig(p, cfg);
    ExecutionLength(p, cfg, systems, run);
    InitialQueue(systems[0], "");
    if j > 0 {
      RunWithdrawn(p, cfg, systems, run, j - 1);
      InitialKeeps(p, cfg, systems, run, j - 1);
      TakeStep(p, cfg, systems, run, j - 1);
      StepWithdrawn(p, cfg, systems[j - 1], run[j - 1]);
    }
  }

  /** No repeal of the law is accepted while it is queued, and no orphan deliberation of it is recovered while it is. */
  ghost predicate NeverQueuedTwice(p: Platform, systems: seq<System>, run: seq<Step>, id: string) {
    forall i {:trigger run[i]} :: 0 <= i < |run| && i < |systems| ==> !QueuesTwice(p, systems[i], run[i], id)
  }

  /** The law is queued at most once at every single write of the run. */
  ghost predicate AlwaysOnce(p: Platform, cfg: Config, systems: seq<System>, run: seq<Step>, id: string)
    requires ValidConfig(cfg) && Execution(p, cfg, systems, run)
  {
    forall i {:trigger run[i]} :: 0 <= i < |run| ==> OnceThroughout(p, cfg, systems[i], run[i], id)
  }

  lemma {:induction false} RunOneCopy(p: Platform, cfg: Config, systems: seq<System>, run: seq<Step>, j: nat, id: string)
    requires Assumptions(p, cfg) && Execution(p, cfg, systems, run) && Initial(systems[0]) && j < |systems|
    requires NeverQueuedTwice(p, systems, run, id)
    ensures OneCopy(systems[j].db, id)
    decreases j
  {
    hide *;
    AssumedConfig(p, cfg);
    ExecutionLength(p, cfg, systems, run);
    InitialQueue(systems[0], id);
    if j > 0 {
      RunOneCopy(p, cfg, systems, run, j - 1, id);
      InitialKeeps(p, cfg, systems, run, j - 1);
      RunWithdrawn(p, cfg, systems, run, j - 1);
      TakeStep(p, cfg, systems, run, j - 1);
      StepCopies(p, cfg, systems[j - 1], run[j - 1], id);
      NeverAt(p, systems, run, id, j - 1);
    }
  }

  lemma NeverAt(p: Platform, systems: seq<System>, run: seq<Step>, id: string, i: nat)
    requires NeverQueuedTwice(p, systems, run, id) && i < |run| && i < |systems|
    ensures !QueuesTwice(p, systems[i], run[i], id)
  {
    hide QueuesTwice;
  }

  lemma OnceThroughoutStarts(p: Platform, cfg: Config, sys: System, step: Step, id: string)
    requires ValidConfig(cfg) && Legal(p, cfg, sys, step) && OnceThroughout(p, cfg, sys, step, id)
    ensures OneCopy(sys.db, id)
  {
    hide Handled, OneCopy;
    match step
    case Handle(ev, s) => assert StoreAt(sys.db, Handled(p, cfg, sys.db, sys.mem, s, ev), 0) == sys.db;
    case Crash(ev, s, n, next) => assert StoreAt(sys.db, Handled(p, cfg, sys.db, sys.mem, s, ev), 0) == sys.db;
    case _ =>
  }

  lemma StepOnceIff(p: Platform, cfg: Config, systems: seq<System>, run: seq<Step>, id: string, i: nat)
    requires Assumptions(p, cfg) && Execution(p, cfg, systems, run) && Initial(systems[0]) && i < |run|
    requires NeverQueuedTwice(p, systems, run, id) || AlwaysOnce(p, cfg, systems, run, id)
    ensures OnceThroughout(p, cfg, systems[i], run[i], id) && !QueuesTwice(p, systems[i], run[i], id)
  {
    hide Assumptions, Initial, Execution, OnceThroughout, QueuesTwice, Durable, InStep, Withdrawn, OneCopy, Legal, After;
    AssumedConfig(p, cfg);
    ExecutionLength(p, cfg, systems, run);
    TakeStep(p, cfg, systems, run, i);
    InitialKeeps(p, cfg, systems, run, i);
    RunWithdrawn(p, cfg, systems, run, i);
    if NeverQueuedTwice(p, systems, run, id) {
      RunOneCopy(p, cfg, systems, run, i, id);
    } else {
      OnceThroughoutStarts(p, cfg, systems[i], run[i], id);
    }
    StepCopies(p, cfg, systems[i], run[i], id);
  }

  /** Over any run from an empty store, restarts as leader included: a law is queued at most once at every single write
      exactly if no repeal of it is accepted and no orphan deliberation of it recovered while it is queued. */
  lemma DuplicateFreeIff(p: Platform, cfg: Config, systems: seq<System>, run: seq<Step>, id: string)
    requires Assumptions(p, cfg) && Execution(p, cfg, systems, run) && Initial(systems[0])
    ensures AlwaysOnce(p, cfg, systems, run, id) <==> NeverQueuedTwice(p, systems, run, id)
  {
    ExecutionLength(p, cfg, systems, run);
    hide Assumptions, Initial, Execution, OnceThroughout, QueuesTwice, Legal, After;
    if AlwaysOnce(p, cfg, systems, run, id) || NeverQueuedTwice(p, systems, run, id) {
      forall i | 0 <= i < |run| ensures OnceThroughout(p, cfg, systems[i], run[i], id) && !QueuesTwice(p, systems[i], run[i], id) {
        StepOnceIff(p, cfg, systems, run, id, i);
      }
    }
  }

  lemma OneCopyMeans(db: Db, id: string)
    requires OneCopy(db, id)
    ensures PlacesOfOne(db, id) == 1
  {
  }
}
