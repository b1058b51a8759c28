/**
 In how many places a law is, for a leader whose memory accounts for the store, and when memory does over a whole run.
 */
module NctPlaces {
  import opened Wrappers
  import opened Platform
  import opened Text
  import opened Challenge
  import opened Laws
  import opened Chain
  import opened Store
  import opened Nct
  import opened NctInvariant
  import opened NctHandlers
  import opened NctRuns
  import opened NctSafety
  import opened NctConservation
  import opened NctLedger
  import Deliberation

  // ---- one step ----

  lemma HandledLedger(p: Platform, cfg: Config, db: Db, mem: Mem, s: Senses, ev: Event)
    requires Assumptions(p, cfg) && Durable(p, db) && Proper(db) && InStep(p, db, mem) && Whole(db, mem) && FreshLaw(db, ev)
    ensures var e := Handled(p, cfg, db, mem, s, ev); Ledger(db, e) && Whole(Final(db, e), e.mem)
  {
    hide Durable, InStep, Proper, Whole, Ledger, Assumptions, HandleProposal, HandleNonce, CheckDeliberation, CheckDeadline, MaybeOpen, BecomeLeader;
    match ev
    case Proposed(m) => HandleProposalLedger(p, cfg, db, mem, s, m);
    case Answered(m) => HandleNonceLedger(p, cfg, db, mem, s, m);
    case DeliberationTick => CheckDeliberationLedger(p, cfg, db, mem, s);
    case DeadlineTick => CheckDeadlineLedger(p, cfg, db, mem, s);
    case OpenTick => MaybeOpenLedger(p, cfg, db, mem, s);
    case Promoted => BecomeLeaderLedger(p, cfg, db, mem, s);
  }

  /** The step starts a process that believes it leads without having become leader. */
  predicate StartsLeading(step: Step) {
    (step.Crash? || step.Replace?) && step.next.isLeader
  }

  /** A process started as leader finds a store with no open window and no announced law. */
  ghost predicate CleanStart(db: Db, step: Step) {
    StartsLeading(step) ==> NobodyHeld(db) && NothingAnnounced(db)
  }

  ghost predicate CleanStarts(systems: seq<System>, run: seq<Step>) {
    forall i {:trigger run[i]} :: 0 <= i < |run| && i + 1 < |systems| ==> CleanStart(systems[i + 1].db, run[i])
  }

  lemma CleanAt(systems: seq<System>, run: seq<Step>, i: nat)
    requires CleanStarts(systems, run) && i < |run| && i + 1 < |systems|
    ensures CleanStart(systems[i + 1].db, run[i])
  {
    hide CleanStart;
  }

  /** The boundary between handlers. */
  ghost predicate Accounted(p: Platform, sys: System) {
    Durable(p, sys.db) && InStep(p, sys.db, sys.mem) && Proper(sys.db) && Whole(sys.db, sys.mem)
  }

  lemma WholeFollower(db: Db, mem: Mem)
    requires !mem.isLeader
    ensures Whole(db, mem)
  {
  }

  lemma WholeStart(db: Db, step: Step)
    requires (step.Crash? || step.Replace?) && CleanStart(db, step)
    ensures Whole(db, step.next)
  {
    hide ViewOf;
  }

  lemma SteppedDownFollows(mem: Mem)
    ensures !SteppedDown(mem).isLeader
  {
  }

  lemma NeutralStep(p: Platform, db: Db, d: Db, mem: Mem)
    requires KeepsAll(db, d) && Proper(db) && Whole(db, mem)
    ensures Proper(d) && Whole(d, mem) && forall id :: Lost(ViewOf(d, id)) <==> Lost(ViewOf(db, id))
  {
    hide ViewOf;
    WholeNeutral(db, d, mem, mem);
  }

  lemma LedgerAt(db: Db, e: Exec, k: nat)
    requires Proper(db) && Ledger(db, e) && k <= |e.steps|
    ensures Proper(StoreAt(db, e, k))
    ensures forall id :: Lost(ViewOf(db, id)) ==> StillLost(ViewOf(db, id), ViewOf(StoreAt(db, e, k), id))
  {
    hide ViewOf, Proper, Lost;
  }

  lemma LedgerEnd(db: Db, e: Exec)
    requires Proper(db) && Ledger(db, e)
    ensures Proper(Final(db, e)) && forall id :: Lost(ViewOf(db, id)) <==> Lost(ViewOf(Final(db, e), id))
  {
    ProperAfter(db, e);
    hide ViewOf, Proper, Lost;
    forall id ensures Lost(ViewOf(db, id)) <==> Lost(ViewOf(Final(db, e), id)) {
      assert Balanced(ViewOf(db, id), LastView(db, e, id));
    }
  }

  /** Only a crash loses a law, and nothing finds it again. */
  lemma StepConserves(p: Platform, cfg: Config, sys: System, step: Step)
    requires Assumptions(p, cfg) && Accounted(p, sys) && Legal(p, cfg, sys, step) && CleanStart(After(p, cfg, sys, step).db, step)
    ensures var next := After(p, cfg, sys, step);
      && Accounted(p, next)
      && (forall id :: Lost(ViewOf(sys.db, id)) ==> Lost(ViewOf(next.db, id)))
      && (!step.Crash? ==> forall id :: Lost(ViewOf(next.db, id)) ==> Lost(ViewOf(sys.db, id)))
  {
    StepKeeps(p, cfg, sys, step);
    hide Durable, InStep, Proper, Whole, Ledger, Lost, ViewOf, Handled, SteppedDown, ReleaseWindowSeal, SetDeliberationDecision, Assumptions, CleanStart;
    match step
    case Handle(ev, s) =>
      HandledLedger(p, cfg, sys.db, sys.mem, s, ev);
      LedgerEnd(sys.db, Handled(p, cfg, sys.db, sys.mem, s, ev));
    case Crash(ev, s, k, next) =>
      HandledLedger(p, cfg, sys.db, sys.mem, s, ev);
      LedgerAt(sys.db, Handled(p, cfg, sys.db, sys.mem, s, ev), k);
      WholeStart(StoreAt(sys.db, Handled(p, cfg, sys.db, sys.mem, s, ev), k), step);
    case Replace(next) => WholeStart(sys.db, step);
    case StepDown =>
      SteppedDownFollows(sys.mem);
      WholeFollower(sys.db, SteppedDown(sys.mem));
    case GuardLapses(wid) =>
      GuardNeutral(sys.db, wid, "");
      NeutralStep(p, sys.db, ReleaseWindowSeal(sys.db, wid), sys.mem);
    case Vote(id, voter, decision) =>
      VoteNeutral(sys.db, id, voter, decision);
      NeutralStep(p, sys.db, SetDeliberationDecision(sys.db, id, voter, decision), sys.mem);
  }

  lemma VoteNeutral(db: Db, id: string, voter: string, decision: string)
    ensures KeepsAll(db, SetDeliberationDecision(db, id, voter, decision))
  {
    NeutralView(db, SetDeliberationDecision(db, id, voter, decision));
  }

  // ---- whole runs ----

  /** Memory accounts for every law at every boundary of the run exactly if every start as leader is clean. */
  lemma AccountedIffClean(p: Platform, cfg: Config, systems: seq<System>, run: seq<Step>)
    requires Assumptions(p, cfg) && Execution(p, cfg, systems, run) && Accounted(p, systems[0])
    ensures (forall j :: 0 <= j < |systems| ==> Accounted(p, systems[j])) <==> CleanStarts(systems, run)
  {
    ExecutionLength(p, cfg, systems, run);
    hide Accounted, Execution, Assumptions, CleanStart;
    if CleanStarts(systems, run) {
      forall j | 0 <= j < |systems| ensures Accounted(p, systems[j]) {
        RunAccounted(p, cfg, systems, run, j);
      }
    }
    if forall j :: 0 <= j < |systems| ==> Accounted(p, systems[j]) {
      forall i | 0 <= i < |run| ensures CleanStart(systems[i + 1].db, run[i]) {
        AccountedStart(p, cfg, systems, run, i);
      }
    }
  }

  lemma {:induction false} RunAccounted(p: Platform, cfg: Config, systems: seq<System>, run: seq<Step>, j: nat)
    requires Assumptions(p, cfg) && Execution(p, cfg, systems, run) && CleanStarts(systems, run) && j < |systems|
    requires Accounted(p, systems[0])
    ensures Accounted(p, systems[j])
    decreases j
  {
    hide *;
    AssumedConfig(p, cfg);
    ExecutionLength(p, cfg, systems, run);
    if j > 0 {
      RunAccounted(p, cfg, systems, run, j - 1);
      TakeStep(p, cfg, systems, run, j - 1);
      CleanAt(systems, run, j - 1);
      StepConserves(p, cfg, systems[j - 1], run[j - 1]);
    }
  }

  /** A leader that remembers nothing accounts for a store exactly if the store holds and announces nothing. */
  lemma BlankLeaderAccountsIff(p: Platform, db: Db, mem: Mem)
    requires Durable(p, db) && Proper(db) && Blank(mem) && mem.isLeader
    ensures Accounted(p, System(db, mem)) <==> NobodyHeld(db) && NothingAnnounced(db)
  {
    BlankInStep(p, db, mem);
    hide Durable, InStep, ViewOf, Proper;
  }

  lemma AccountedStart(p: Platform, cfg: Config, systems: seq<System>, run: seq<Step>, i: nat)
    requires Assumptions(p, cfg) && Execution(p, cfg, systems, run) && i < |run| && Accounted(p, systems[i + 1])
    ensures CleanStart(systems[i + 1].db, run[i])
  {
    AssumedConfig(p, cfg);
    ExecutionLength(p, cfg, systems, run);
    TakeStep(p, cfg, systems, run, i);
    AccountedIs(p, systems[i + 1]);
    hide Accounted, Execution, Assumptions, Handled, Durable, InStep, Proper, NobodyHeld, NothingAnnounced, Whole;
    if StartsLeading(run[i]) {
      BlankLeaderAccountsIff(p, systems[i + 1].db, systems[i + 1].mem);
      assert System(systems[i + 1].db, systems[i + 1].mem) == systems[i + 1];
    }
  }

  /** How often the law is in the queue. */
  function Copies(db: Db, id: string): (n: nat)
    ensures n > 0 <==> id in db.queue
  {
    multiset(db.queue)[id]
  }

  /** In how many places a law is, for the coordinator that leads: each copy in the queue, the deliberation, the window,
      and having been decided, unless it is promulgated and queued for repeal. */
  function Places(db: Db, mem: Mem, id: string): nat
    requires id in db.laws
  {
    var queued := id in db.queue;
    Copies(db, id)
    + (if mem.deliberation.Some? && mem.deliberation.value.lawId == id then 1 else 0)
    + (if mem.active.Some? && mem.active.value.lawId == id then 1 else 0)
    + (if Decided(Some(db.laws[id].status)) && !(queued && db.laws[id].status == Promulgated) then 1 else 0)
  }

  lemma ActiveIsHeld(p: Platform, sys: System, id: string)
    requires Accounted(p, sys) && sys.mem.isLeader
    ensures ViewOf(sys.db, id).held <==> sys.mem.active.Some? && sys.mem.active.value.lawId == id
    ensures ViewOf(sys.db, id).held ==> !ViewOf(sys.db, id).queued && ViewOf(sys.db, id).status == Some(InWindow)
  {
    hide Durable, InStep, ViewOf, Proper;
    if sys.mem.active.Some? {
      HeldIsActive(p, sys.db, sys.mem);
    }
  }

  lemma AnnouncedIsDeliberated(p: Platform, sys: System, id: string)
    requires Accounted(p, sys) && sys.mem.isLeader
    ensures ViewOf(sys.db, id).announced <==> sys.mem.deliberation.Some? && sys.mem.deliberation.value.lawId == id
    ensures ViewOf(sys.db, id).announced ==> !ViewOf(sys.db, id).queued && ViewOf(sys.db, id).status == Some(InDeliberation)
  {
    hide Durable, InStep, ViewOf, Proper;
    if sys.mem.deliberation.Some? {
      AnnouncedIsRemembered(p, sys.db, sys.mem);
    }
  }

  /** The places of a law that is in one of them: as many as its copies if that is the queue. */
  function PlacesOfOne(db: Db, id: string): (n: nat)
    ensures n >= 1 && (n == 1 <==> Copies(db, id) <= 1)
  {
    if id in db.queue then Copies(db, id) else 1
  }

  /** Between handlers the leader has each law in exactly one place, its copies in the queue counted apart, or in none if
      it is lost; and it never has a deliberation and a window at once. */
  lemma PlacedOnce(p: Platform, sys: System, id: string)
    requires Accounted(p, sys) && sys.mem.isLeader && id in sys.db.laws
    ensures Places(sys.db, sys.mem, id) == if Lost(ViewOf(sys.db, id)) then 0 else PlacesOfOne(sys.db, id)
    ensures sys.mem.active.None? || sys.mem.deliberation.None?
  {
    NotBoth(p, sys);
    ActiveIsHeld(p, sys, id);
    AnnouncedIsDeliberated(p, sys, id);
    StatusOfView(sys.db, id);
    ProperAt(sys.db, id);
    hide Accounted, ViewOf, Copies;
  }

  lemma NotBoth(p: Platform, sys: System)
    requires Accounted(p, sys)
    ensures sys.mem.active.None? || sys.mem.deliberation.None?
    ensures Proper(sys.db)
  {
    hide Durable, ActiveInStep, AnnouncedInStep, Proper, Whole;
  }

  /** In how many places of the store a law is, for whoever would take over now: each copy in the queue is one. */
  function StorePlaces(db: Db, id: string): nat {
    var v := ViewOf(db, id);
    Copies(db, id) + (if v.held then 1 else 0)
    + (if v.announced && v.status == Some(InDeliberation) then 1 else 0)
    + (if Decided(v.status) && !(v.queued && v.status == Some(Promulgated)) then 1 else 0)
  }

  lemma PlacesOfView(p: Platform, db: Db, id: string)
    requires Durable(p, db) && Proper(db)
    ensures var v := ViewOf(db, id);
      && (v.held ==> !v.queued && v.status == Some(InWindow)) && ProperView(v)
  {
    ProperAt(db, id);
    if ViewOf(db, id).held {
      HeldView(p, db, db.active.value);
    }
    hide Durable, Proper;
  }

  lemma AccountedIs(p: Platform, sys: System)
    ensures Accounted(p, sys) <==> Durable(p, sys.db) && InStep(p, sys.db, sys.mem) && Proper(sys.db) && Whole(sys.db, sys.mem)
  {
  }

  lemma CountedPlaces(db: Db, id: string)
    requires var v := ViewOf(db, id); (v.held ==> !v.queued && v.status == Some(InWindow)) && ProperView(v)
    ensures var v := ViewOf(db, id);
      && (|| StorePlaces(db, id) <= PlacesOfOne(db, id)
          || (StorePlaces(db, id) == Copies(db, id) + 1 && v.queued && v.announced && v.status == Some(InDeliberation)))
      && (v.status.Some? ==> (Lost(v) <==> StorePlaces(db, id) == 0))
  {
    StatusOfView(db, id);
    hide ViewOf, Copies;
  }
}
