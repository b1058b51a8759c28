/**
 What becomes of a law over any run, starts as leader over an open window or an announced law included: which write of which
 handler loses it, and that nothing finds it again.
 */
module NctFates {
  import opened Wrappers
  import opened Platform
  import opened Text
  import opened Categories
  import opened Challenge
  import opened Laws
  import opened Chain
  import opened Store
  import opened Nct
  import opened NctInvariant
  import opened NctHandlers
  import opened NctRuns
  import opened NctSafety
  import opened NctRecords
  import opened NctConservation
  import opened NctLedger
  import opened NctPlaces
  import opened NctFailover
  import opened NctCrashes
  import opened NctQueue
  import opened NctVeil
  import opened NctSettled

  // ---- what a leader was not told of ----

  /** The law is in the open window of the store, and this leader has no window. */
  predicate HeldUnknown(db: Db, mem: Mem, id: string) {
    mem.isLeader && mem.active.None? && Holds(db, id)
  }

  /** The law is announced and nowhere else, and this leader deliberates on none. */
  predicate AnnouncedUnknown(db: Db, mem: Mem, id: string) {
    mem.isLeader && mem.deliberation.None? && db.deliberation.Some? && db.deliberation.value.lawId == id && Undecided(db, id)
  }

  predicate Unknown(db: Db, mem: Mem, id: string) {
    HeldUnknown(db, mem, id) || AnnouncedUnknown(db, mem, id)
  }

  /** What holds at the boundaries of every run. */
  ghost predicate Sane(p: Platform, db: Db, mem: Mem) {
    Durable(p, db) && InStep(p, db, mem) && Proper(db) && Withdrawn(db, mem)
  }

  lemma SaneIs(p: Platform, db: Db, mem: Mem)
    ensures Sane(p, db, mem) <==> Durable(p, db) && InStep(p, db, mem) && Proper(db) && Withdrawn(db, mem)
  {
  }

  // ---- what the leader knows is accounted for ----

  lemma KnownDurable(p: Platform, db: Db, mem: Mem)
    requires Durable(p, db)
    ensures Durable(p, Known(db, mem))
  {
    hide Linked, SafeChain, LawsOk, QueueOk, WindowsOk, GetChain, Resumable, Ready;
  }

  lemma KnownInStep(p: Platform, db: Db, mem: Mem)
    requires InStep(p, db, mem)
    ensures InStep(p, Known(db, mem), mem)
  {
    hide GetChain, Rebuilt, LastIs;
  }

  /** What the leader knows of a law. */
  lemma KnownView(db: Db, mem: Mem, id: string)
    ensures var v, k := ViewOf(db, id), ViewOf(Known(db, mem), id);
      && k.status == v.status && k.queued == v.queued
      && k.held == (v.held && !(mem.isLeader && mem.active.None?))
      && k.announced == (v.announced && !(mem.isLeader && mem.deliberation.None?))
  {
  }

  lemma KnownProper(db: Db, mem: Mem)
    requires Proper(db)
    ensures Proper(Known(db, mem))
  {
    hide ViewOf, Known;
    forall id ensures ProperView(ViewOf(Known(db, mem), id)) {
      KnownView(db, mem, id);
      ProperAt(db, id);
    }
  }

  lemma KnownWhole(p: Platform, db: Db, mem: Mem)
    requires InStep(p, db, mem) && Withdrawn(db, mem)
    ensures Whole(Known(db, mem), mem)
  {
    hide ActiveInStep, ViewOf, Known;
    forall id ensures
      && (mem.isLeader && mem.active.None? ==> !ViewOf(Known(db, mem), id).held)
      && (mem.isLeader && mem.deliberation.None? ==> !ViewOf(Known(db, mem), id).announced)
      && (mem.isLeader && ViewOf(Known(db, mem), id).announced ==> !ViewOf(Known(db, mem), id).queued)
    {
      KnownView(db, mem, id);
      StatusOfView(db, id);
    }
  }

  lemma KnownAccounted(p: Platform, db: Db, mem: Mem)
    requires Sane(p, db, mem)
    ensures Accounted(p, System(Known(db, mem), mem))
  {
    hide *;
    SaneIs(p, db, mem);
    KnownDurable(p, db, mem);
    KnownInStep(p, db, mem);
    KnownProper(db, mem);
    KnownWhole(p, db, mem);
    AccountedIs(p, System(Known(db, mem), mem));
  }

  /** A law is lost to what the leader knows exactly if it is lost, or the leader was not told. */
  lemma LostToKnown(p: Platform, db: Db, mem: Mem, id: string)
    requires Durable(p, db) && Proper(db)
    ensures Lost(ViewOf(Known(db, mem), id)) <==> Lost(ViewOf(db, id)) || Unknown(db, mem, id)
    ensures Unknown(db, mem, id) ==> !Lost(ViewOf(db, id))
    ensures HeldUnknown(db, mem, id) ==> ViewOf(db, id).status == Some(InWindow) && !AnnouncedUnknown(db, mem, id)
    ensures AnnouncedUnknown(db, mem, id) ==> ViewOf(db, id).status == Some(InDeliberation) && !Holds(db, id)
  {
    KnownView(db, mem, id);
    StatusOfView(db, id);
    PlacesOfView(p, db, id);
    hide Durable, Proper, Known, ViewOf, Holds;
  }

  // ---- at one write ----

  /** What is told of the same write with and without the veil. */
  ghost predicate Paired(db: Db, mem: Mem, d: Db, v: Db) {
    && Veils(MissedPointer(db, mem), MissedPause(db, mem), d, v)
    && Settled(mem.active.None?, mem.deliberation.None?, db, d)
    && Settled(mem.active.None?, mem.deliberation.None?, Known(db, mem), v)
  }

  lemma PairedIs(db: Db, mem: Mem, d: Db, v: Db)
    requires Paired(db, mem, d, v)
    ensures v.laws == d.laws && v.queue == d.queue && v.windows == d.windows
    ensures v.active == d.active || (v.active == None && mem.active.None? && d.active == db.active)
    ensures v.deliberation == d.deliberation || (v.deliberation == None && mem.deliberation.None?
        && d.deliberation == db.deliberation)
    ensures mem.active.None? ==> RecordsKept(db, d) && PointerKept(db, d)
    ensures mem.deliberation.None? ==> PausesKept(db, d) && PausesKept(Known(db, mem), v)
  {
    hide RecordsKept, PointerKept, PausesKept, Known;
  }

  lemma KnownParts(db: Db, mem: Mem)
    ensures var k := Known(db, mem);
      k.laws == db.laws && k.queue == db.queue && k.windows == db.windows && k.counter == db.counter
    ensures mem.isLeader && mem.active.None? ==> Known(db, mem).active == None
    ensures mem.isLeader && mem.deliberation.None? ==> Known(db, mem).deliberation == None
  {
  }

  /** Numbered windows, and so the one of the pointer, are as they were if the leader has none. */
  lemma RecordStays(p: Platform, db: Db, d: Db)
    requires Durable(p, db) && RecordsKept(db, d) && db.active.Some?
    ensures db.active.value in db.windows && db.active.value in d.windows
        && d.windows[db.active.value] == db.windows[db.active.value]
    ensures WindowNumber(db.active.value) <= db.counter
  {
    hide Linked, SafeChain, LawsOk, QueueOk, DeliberationOk, GetChain, Resumable, WindowNumber;
  }

  /** The unknown window is there as long as the pointer is. */
  lemma HeldStays(p: Platform, db: Db, mem: Mem, d: Db, v: Db, id: string)
    requires Durable(p, db) && Paired(db, mem, d, v) && mem.active.None? && d.active == db.active
    ensures Holds(d, id) <==> Holds(db, id)
  {
    PairedIs(db, mem, d, v);
    if db.active.Some? {
      RecordStays(p, db, d);
    }
    hide Durable, Paired, RecordsKept, PointerKept, PausesKept;
  }

  /** A law that only the store anchors, and not what the leader knows, was unknown before, and its anchor is untouched. */
  lemma BehindVeil(p: Platform, db: Db, mem: Mem, d: Db, v: Db, id: string)
    requires Durable(p, db) && mem.isLeader && Paired(db, mem, d, v)
    ensures Lost(ViewOf(d, id)) ==> Lost(ViewOf(v, id))
    ensures Lost(ViewOf(v, id)) && !Lost(ViewOf(d, id)) ==>
      (HeldUnknown(db, mem, id) && d.active == db.active) || (AnnouncedUnknown(db, mem, id) && d.deliberation == db.deliberation)
  {
    PairedIs(db, mem, d, v);
    StatusOfView(d, id);
    StatusOfView(v, id);
    VeiledHolds(d, v, id);
    if mem.active.None? && d.active == db.active {
      HeldStays(p, db, mem, d, v, id);
    }
    KnownParts(db, mem);
    VeiledUndecided(db, mem, d, v, id);
    hide Durable, Paired, RecordsKept, PointerKept, PausesKept, Known, ViewOf, Holds, Undecided;
  }

  lemma VeiledHolds(d: Db, v: Db, id: string)
    requires v.windows == d.windows && (v.active == d.active || v.active == None)
    ensures Holds(v, id) ==> Holds(d, id)
    ensures v.active == d.active ==> Holds(v, id) == Holds(d, id)
  {
  }

  lemma VeiledUndecided(db: Db, mem: Mem, d: Db, v: Db, id: string)
    requires mem.deliberation.None? && mem.isLeader ==> PausesKept(Known(db, mem), v)
    requires v.laws == d.laws && v.queue == d.queue
    ensures Undecided(v, id) == Undecided(d, id)
    ensures Undecided(v, id) <==> ViewOf(d, id).status == Some(InDeliberation) && !ViewOf(d, id).queued
    ensures mem.deliberation.None? && mem.isLeader && v.deliberation == None && Undecided(v, id) ==> Undecided(db, id)
  {
    hide Holds;
  }

  /** The k-th write of a handler, seen with and without the veil. */
  lemma PairedAt(p: Platform, cfg: Config, db: Db, mem: Mem, s: Senses, ev: Event, k: nat)
    requires Assumptions(p, cfg) && mem.isLeader && k <= |Handled(p, cfg, db, mem, s, ev).steps|
    ensures var e, f := Handled(p, cfg, db, mem, s, ev), Handled(p, cfg, Known(db, mem), mem, s, ev);
      && |f.steps| == |e.steps| && f.mem == e.mem && Paired(db, mem, StoreAt(db, e, k), StoreAt(Known(db, mem), f, k))
  {
    hide *;
    AssumedConfig(p, cfg);
    var e, f := Handled(p, cfg, db, mem, s, ev), Handled(p, cfg, Known(db, mem), mem, s, ev);
    KnownVeils(db, mem);
    HandledLocks(p, cfg, db, mem, s, ev);
    HandledSettled(p, cfg, db, mem, s, ev);
    HandledSettled(p, cfg, Known(db, mem), mem, s, ev);
    SettledSelf(mem.active.None?, mem.deliberation.None?, db);
    SettledSelf(mem.active.None?, mem.deliberation.None?, Known(db, mem));
    LockedMem(MissedPointer(db, mem), MissedPause(db, mem), e, f);
    PairUp(db, mem, e, f, k);
  }

  lemma PairUp(db: Db, mem: Mem, e: Exec, f: Exec, k: nat)
    requires var w, a := mem.active.None?, mem.deliberation.None?;
      && Lockstep(MissedPointer(db, mem), MissedPause(db, mem), e, f) && k <= |e.steps| == |f.steps|
      && Veils(MissedPointer(db, mem), MissedPause(db, mem), db, Known(db, mem))
      && AllSettled(w, a, db, e.steps) && AllSettled(w, a, Known(db, mem), f.steps)
      && Settled(w, a, db, db) && Settled(w, a, Known(db, mem), Known(db, mem))
    ensures Paired(db, mem, StoreAt(db, e, k), StoreAt(Known(db, mem), f, k))
  {
    hide Veils, Settled, Known, MissedPointer, MissedPause;
  }

  lemma FreshToKnown(db: Db, mem: Mem, ev: Event)
    requires FreshLaw(db, ev)
    ensures FreshLaw(Known(db, mem), ev)
  {
  }

  /** What conservation says of the same write when the leader knows all there is. */
  lemma KnownAt(p: Platform, cfg: Config, db: Db, mem: Mem, s: Senses, ev: Event, k: nat)
    requires Assumptions(p, cfg) && Sane(p, db, mem) && FreshLaw(db, ev)
    requires k <= |Handled(p, cfg, Known(db, mem), mem, s, ev).steps|
    ensures var v, e := Known(db, mem), Handled(p, cfg, Known(db, mem), mem, s, ev);
      && Proper(v) && Proper(StoreAt(v, e, k))
      && (forall id :: Lost(ViewOf(v, id)) ==> StillLost(ViewOf(v, id), ViewOf(StoreAt(v, e, k), id)))
      && Durable(p, Final(v, e)) && InStep(p, Final(v, e), e.mem) && Whole(Final(v, e), e.mem)
      && (forall id :: Lost(ViewOf(v, id)) <==> Lost(ViewOf(Final(v, e), id)))
  {
    hide *;
    AssumedConfig(p, cfg);
    var v, e := Known(db, mem), Handled(p, cfg, Known(db, mem), mem, s, ev);
    KnownAccounted(p, db, mem);
    AccountedIs(p, System(v, mem));
    FreshToKnown(db, mem, ev);
    HandledLedger(p, cfg, v, mem, s, ev);
    LedgerAt(v, e, k);
    LedgerEnd(v, e);
    HandledSound(p, cfg, v, mem, s, ev);
    SoundFinal(p, v, e);
  }

  lemma StillLostAt(v: Db, w: Db, id: string)
    requires Lost(ViewOf(v, id)) && StillLost(ViewOf(v, id), ViewOf(w, id))
    ensures Lost(ViewOf(w, id)) && ViewOf(w, id).status == ViewOf(v, id).status
  {
    hide ViewOf, Lost;
  }

  /** A follower was told of everything. */
  lemma FollowerKnows(db: Db, mem: Mem, id: string)
    requires !mem.isLeader
    ensures Known(db, mem) == db && !Unknown(db, mem, id)
  {
  }

  /** A law that is lost stays lost at every write of every handler. */
  lemma LostAtEveryWrite(p: Platform, cfg: Config, db: Db, mem: Mem, s: Senses, ev: Event, k: nat, id: string)
    requires Assumptions(p, cfg) && Sane(p, db, mem) && FreshLaw(db, ev) && k <= |Handled(p, cfg, db, mem, s, ev).steps|
    requires Lost(ViewOf(db, id))
    ensures Lost(ViewOf(StoreAt(db, Handled(p, cfg, db, mem, s, ev), k), id))
  {
    hide *;
    AssumedConfig(p, cfg);
    SaneIs(p, db, mem);
    LostToKnown(p, db, mem, id);
    var e, f := Handled(p, cfg, db, mem, s, ev), Handled(p, cfg, Known(db, mem), mem, s, ev);
    if mem.isLeader {
      PairedAt(p, cfg, db, mem, s, ev, k);
      KnownAt(p, cfg, db, mem, s, ev, k);
      StillLostAt(Known(db, mem), StoreAt(Known(db, mem), f, k), id);
      BehindVeil(p, db, mem, StoreAt(db, e, k), StoreAt(Known(db, mem), f, k), id);
      UnknownIs(db, mem, id);
    } else {
      FollowerKnows(db, mem, id);
      KnownAt(p, cfg, db, mem, s, ev, k);
      StillLostAt(db, StoreAt(db, e, k), id);
    }
  }

  lemma UnknownIs(db: Db, mem: Mem, id: string)
    ensures Unknown(db, mem, id) <==> HeldUnknown(db, mem, id) || AnnouncedUnknown(db, mem, id)
    ensures Unknown(db, mem, id) ==> mem.isLeader
    ensures HeldUnknown(db, mem, id) <==> mem.isLeader && mem.active.None? && Holds(db, id)
    ensures AnnouncedUnknown(db, mem, id) <==>
      mem.isLeader && mem.deliberation.None? && db.deliberation.Some? && db.deliberation.value.lawId == id && Undecided(db, id)
  {
    hide Holds, Undecided;
  }

  /** The law of a window the leader was not told of is lost at a write exactly if the pointer has moved. */
  lemma HeldLostIff(p: Platform, cfg: Config, db: Db, mem: Mem, s: Senses, ev: Event, k: nat, id: string)
    requires Assumptions(p, cfg) && Sane(p, db, mem) && FreshLaw(db, ev) && k <= |Handled(p, cfg, db, mem, s, ev).steps|
    requires HeldUnknown(db, mem, id)
    ensures var d := StoreAt(db, Handled(p, cfg, db, mem, s, ev), k); Lost(ViewOf(d, id)) <==> d.active != db.active
  {
    hide *;
    AssumedConfig(p, cfg);
    SaneIs(p, db, mem);
    UnknownIs(db, mem, id);
    LostToKnown(p, db, mem, id);
    PairedAt(p, cfg, db, mem, s, ev, k);
    KnownAt(p, cfg, db, mem, s, ev, k);
    var d := StoreAt(db, Handled(p, cfg, db, mem, s, ev), k);
    var v := StoreAt(Known(db, mem), Handled(p, cfg, Known(db, mem), mem, s, ev), k);
    StillLostAt(Known(db, mem), v, id);
    BehindVeil(p, db, mem, d, v, id);
    if d.active == db.active {
      HeldStays(p, db, mem, d, v, id);
      HeldIsAnchored(d, id);
    }
  }

  lemma HeldIsAnchored(db: Db, id: string)
    ensures Holds(db, id) ==> !Lost(ViewOf(db, id))
    ensures db.deliberation.Some? && db.deliberation.value.lawId == id && ViewOf(db, id).status == Some(InDeliberation)
      ==> !Lost(ViewOf(db, id))
  {
    hide Holds;
  }

  /** An announced law the leader was not told of is lost at a write exactly if another announcement has taken its place. */
  lemma AnnouncedLostIff(p: Platform, cfg: Config, db: Db, mem: Mem, s: Senses, ev: Event, k: nat, id: string)
    requires Assumptions(p, cfg) && Sane(p, db, mem) && FreshLaw(db, ev) && k <= |Handled(p, cfg, db, mem, s, ev).steps|
    requires AnnouncedUnknown(db, mem, id)
    ensures var d := StoreAt(db, Handled(p, cfg, db, mem, s, ev), k); Lost(ViewOf(d, id)) <==> d.deliberation != db.deliberation
  {
    hide *;
    AssumedConfig(p, cfg);
    SaneIs(p, db, mem);
    UnknownIs(db, mem, id);
    LostToKnown(p, db, mem, id);
    PairedAt(p, cfg, db, mem, s, ev, k);
    KnownAt(p, cfg, db, mem, s, ev, k);
    var d := StoreAt(db, Handled(p, cfg, db, mem, s, ev), k);
    var v := StoreAt(Known(db, mem), Handled(p, cfg, Known(db, mem), mem, s, ev), k);
    StillLostAt(Known(db, mem), v, id);
    BehindVeil(p, db, mem, d, v, id);
    PairedIs(db, mem, d, v);
    KnownView(db, mem, id);
    SameStatus(d, v, id);
    HeldIsAnchored(d, id);
  }

  lemma SameStatus(d: Db, v: Db, id: string)
    requires v.laws == d.laws
    ensures ViewOf(v, id).status == ViewOf(d, id).status
  {
    hide Holds;
  }

  /** Any other law is lost at a write exactly if that write is in a gap of it. */
  lemma KnownLostIff(p: Platform, cfg: Config, db: Db, mem: Mem, s: Senses, ev: Event, k: nat, id: string)
    requires Assumptions(p, cfg) && Sane(p, db, mem) && FreshLaw(db, ev) && k <= |Handled(p, cfg, db, mem, s, ev).steps|
    requires !Lost(ViewOf(db, id)) && !Unknown(db, mem, id)
    ensures Lost(ViewOf(StoreAt(db, Handled(p, cfg, db, mem, s, ev), k), id)) <==> InGap(p, cfg, Known(db, mem), mem, s, ev, k, id)
  {
    hide *;
    AssumedConfig(p, cfg);
    SaneIs(p, db, mem);
    LostToKnown(p, db, mem, id);
    KnownAccounted(p, db, mem);
    FreshToKnown(db, mem, ev);
    if mem.isLeader {
      PairedAt(p, cfg, db, mem, s, ev, k);
      HandledGaps(p, cfg, Known(db, mem), mem, s, ev, k, id);
      BehindVeil(p, db, mem, StoreAt(db, Handled(p, cfg, db, mem, s, ev), k),
                 StoreAt(Known(db, mem), Handled(p, cfg, Known(db, mem), mem, s, ev), k), id);
      UnknownIs(db, mem, id);
    } else {
      FollowerKnows(db, mem, id);
      HandledGaps(p, cfg, db, mem, s, ev, k, id);
    }
  }

  // ---- a leader stays one ----

  lemma StretchLeads(p: Platform, cfg: Config, db: Db, mem: Mem, s: Senses, law: Law, o: Opening)
    requires ValidConfig(cfg)
    ensures TurnTaken(db, mem, law).mem.isLeader == mem.isLeader
    ensures Installed(p, db, mem, law, o, s).mem.isLeader == mem.isLeader
    ensures Measured(cfg, db, mem, s).mem.isLeader == mem.isLeader
  {
    hide RatchetAfter, ActiveOf, SetLawStatus, RemoveFromQueue, Deliberation.EffectiveHashrate, Difficulty.NonceSpaceFor;
  }

  lemma ThenMem(e: Exec, next: Exec)
    ensures Then(e, next).mem == next.mem
  {
  }

  lemma MaybeOpenLeads(p: Platform, cfg: Config, db: Db, mem: Mem, s: Senses)
    requires ValidConfig(cfg)
    ensures MaybeOpen(p, cfg, db, mem, s).mem.isLeader == mem.isLeader
  {
    hide *;
    MaybeIs(p, cfg, db, mem, s);
    IdleIs(mem);
    var next := NextLaw(cfg, db, mem, s);
    if next.Some? {
      OpenDirectLeads(p, cfg, db, mem, s, next.value);
      StartDeliberationLeads(p, cfg, db, mem, s, next.value);
    }
  }

  lemma OpenDirectLeads(p: Platform, cfg: Config, db: Db, mem: Mem, s: Senses, law: Law)
    requires ValidConfig(cfg)
    ensures OpenDirect(p, cfg, db, mem, s, law).mem.isLeader == mem.isLeader
  {
    hide *;
    OpenDirectShape(p, cfg, db, mem, s, law);
    var d := NextWindowNumber(db);
    var e1 := Then(Exec([d], mem, []), Measured(cfg, d, mem, s));
    var o := OpeningDirect(cfg, d.counter, law, e1.mem, s);
    ThenMem(Exec([d], mem, []), Measured(cfg, d, mem, s));
    StretchLeads(p, cfg, d, mem, s, law, o);
    var installed := Installed(p, Final(db, e1), e1.mem, law, o, s);
    StretchLeads(p, cfg, Final(db, e1), e1.mem, s, law, o);
    ThenMem(e1, installed);
    var e2 := Then(e1, installed);
    StretchLeads(p, cfg, Final(db, e2), e2.mem, s, law, o);
    ThenMem(e2, TurnTaken(Final(db, e2), e2.mem, law));
  }

  lemma StartDeliberationLeads(p: Platform, cfg: Config, db: Db, mem: Mem, s: Senses, law: Law)
    requires ValidConfig(cfg)
    ensures StartDeliberation(p, cfg, db, mem, s, law).mem.isLeader == mem.isLeader
    ensures StartDeliberation(p, cfg, db, mem, s, law).mem.active == mem.active
    ensures StartDeliberation(p, cfg, db, mem, s, law).mem.deliberation.Some?
  {
    hide VotersFor, MeasuredFor, AnnouncementOf, VetoSteps, Announce, Final;
  }

  lemma AndMaybeOpenLeads(p: Platform, cfg: Config, db: Db, e: Exec, s: Senses)
    requires ValidConfig(cfg)
    ensures AndMaybeOpen(p, cfg, db, e, s).mem.isLeader == e.mem.isLeader
  {
    hide *;
    AndMaybeIs(p, cfg, db, e, s);
    MaybeOpenLeads(p, cfg, Final(db, e), e.mem, s);
    ThenMem(e, MaybeOpen(p, cfg, Final(db, e), e.mem, s));
  }

  lemma ClosingLeads(p: Platform, cfg: Config, db: Db, mem: Mem, s: Senses, a: Active, nonce: int, winner: string)
    ensures Seal(p, db, mem, s, a, nonce, winner).mem.isLeader == mem.isLeader
    ensures Expired(db, mem, a).mem.isLeader == mem.isLeader && ExpiredWithoutQuorum(db, mem, a).mem.isLeader == mem.isLeader
  {
    hide BlockOf, AppendBlock, SetWindowResult, SetLawStatus;
  }

  lemma ResolveLeads(p: Platform, cfg: Config, db: Db, mem: Mem, s: Senses, a: Announced)
    requires ValidConfig(cfg)
    ensures ResolveDeliberation(p, cfg, db, mem, s, a).mem.isLeader == mem.isLeader
  {
    hide *;
    ResolveIs(p, cfg, db, mem, s, a);
    PauseIs(p, cfg, db, mem, s, a);
    var (outcome, accepted, silences) := Judged(cfg, db, a);
    var e := PauseEnded(p, cfg, db, mem, s, a);
    PauseLeads(p, cfg, db, mem, s, a);
    var d := Final(db, e);
    var law := GetLaw(d, a.lawId);
    if law.None? {
      AndMaybeOpenLeads(p, cfg, db, e, s);
    } else {
      FrozenLeads(p, cfg, d, e.mem, s, law.value, Frozen(a, accepted));
      ThenMem(e, OpenFrozen(p, d, e.mem, s, law.value, Frozen(a, accepted)));
      BackLeads(d, e, a.lawId, Some(law.value.textHash));
      BackLeads(d, e, a.lawId, None);
      AndMaybeOpenLeads(p, cfg, db, Then(e, ThrownOut(d, e.mem, a.lawId, Some(law.value.textHash))), s);
      AndMaybeOpenLeads(p, cfg, db, Then(e, ThrownOut(d, e.mem, a.lawId, None)), s);
      AndMaybeOpenLeads(p, cfg, db, Then(e, Requeued(d, e.mem, a.lawId)), s);
    }
  }

  lemma PauseLeads(p: Platform, cfg: Config, db: Db, mem: Mem, s: Senses, a: Announced)
    ensures PauseEnded(p, cfg, db, mem, s, a).mem == mem.(deliberation := None)
  {
    hide Judged, ResultOf, DeliberationDecisions;
  }

  lemma FrozenLeads(p: Platform, cfg: Config, db: Db, mem: Mem, s: Senses, law: Law, f: Frozen)
    ensures OpenFrozen(p, db, mem, s, law, f).mem.isLeader == mem.isLeader
  {
    hide OpeningFrozen, ActiveOf, SetLawStatus, RemoveFromQueue;
  }

  lemma BackLeads(db: Db, e: Exec, id: string, hash: Option<string>)
    ensures Then(e, ThrownOut(db, e.mem, id, hash)).mem == e.mem && Then(e, Requeued(db, e.mem, id)).mem == e.mem
  {
    hide SetLawStatus;
  }

  lemma ProposalLeads(p: Platform, cfg: Config, db: Db, mem: Mem, s: Senses, m: Proposal)
    requires ValidConfig(cfg)
    ensures HandleProposal(p, cfg, db, mem, s, m).mem.isLeader == mem.isLeader
  {
    hide *;
    NctVeil.ProposalIs(p, cfg, db, mem, s, m);
    RepealIs(cfg, db, mem, m);
    IdleIs(mem);
    AndMaybeOpenLeads(p, cfg, db, EnqueueDerogacion(cfg, db, mem, m), s);
    if ValidateCategory(m.category).Success? {
      EnqueueIs(cfg, db, mem, m, ValidateCategory(m.category).value);
      AndMaybeOpenLeads(p, cfg, db, EnqueuePromulgacion(cfg, db, mem, m, ValidateCategory(m.category).value), s);
    }
  }

  lemma NonceLeads(p: Platform, cfg: Config, db: Db, mem: Mem, s: Senses, m: Solution)
    requires ValidConfig(cfg)
    ensures HandleNonce(p, cfg, db, mem, s, m).mem.isLeader == mem.isLeader
  {
    if mem.active.Some? {
      var a := mem.active.value;
      var d := TrySealWindow(db, a.wid, WinnerName(m.winner)).0;
      ClosingLeads(p, cfg, d, mem, s, a, m.nonce, m.winner);
      ThenMem(Exec([d], mem, []), Seal(p, d, mem, s, a, m.nonce, m.winner));
      AndMaybeOpenLeads(p, cfg, db, Then(Exec([d], mem, []), Seal(p, d, mem, s, a, m.nonce, m.winner)), s);
    }
    hide AndMaybeOpen, Then, Seal, TrySealWindow, Acceptable, WinnerName;
  }

  lemma DeadlineLeads(p: Platform, cfg: Config, db: Db, mem: Mem, s: Senses)
    requires ValidConfig(cfg)
    ensures CheckDeadline(p, cfg, db, mem, s).mem.isLeader == mem.isLeader
  {
    if mem.active.Some? {
      ClosingLeads(p, cfg, db, mem, s, mem.active.value, 0, "");
      AndMaybeOpenLeads(p, cfg, db, Expired(db, mem, mem.active.value), s);
      AndMaybeOpenLeads(p, cfg, db, ExpiredWithoutQuorum(db, mem, mem.active.value), s);
    }
    hide AndMaybeOpen, Expired, ExpiredWithoutQuorum, QuorumOf, ComoActiva;
  }

  lemma HandledLeads(p: Platform, cfg: Config, db: Db, mem: Mem, s: Senses, ev: Event)
    requires ValidConfig(cfg) && mem.isLeader
    ensures Handled(p, cfg, db, mem, s, ev).mem.isLeader
  {
    hide *;
    HandledIs(p, cfg, db, mem, s, ev);
    IdleIs(mem);
    match ev
    case Proposed(m) => ProposalLeads(p, cfg, db, mem, s, m);
    case Answered(m) => NonceLeads(p, cfg, db, mem, s, m);
    case DeliberationTick =>
      CheckDeliberationIs(p, cfg, db, mem, s);
      if mem.deliberation.Some? {
        ResolveLeads(p, cfg, db, mem, s, mem.deliberation.value);
      }
    case DeadlineTick => DeadlineLeads(p, cfg, db, mem, s);
    case OpenTick => MaybeOpenLeads(p, cfg, db, mem, s);
    case Promoted => LeaderIdles(p, cfg, db, mem, s);
  }

  // ---- at the end of a handler ----

  lemma NobodyIs(db: Db)
    requires NobodyHeld(db)
    ensures forall wid :: db.active == Some(wid) ==> !Unresulted(db, wid)
  {
    assert db.active.Some? && db.active.value in db.windows ==> !ViewOf(db, db.windows[db.active.value].lawId).held;
  }

  /** A leader without window ends a handler with one exactly if the handler moved the pointer. */
  lemma OpensIffMoved(p: Platform, cfg: Config, db: Db, mem: Mem, s: Senses, ev: Event)
    requires Assumptions(p, cfg) && Sane(p, db, mem) && FreshLaw(db, ev) && mem.isLeader && mem.active.None? && db.active.Some?
    ensures var e := Handled(p, cfg, db, mem, s, ev); e.mem.active.Some? <==> Final(db, e).active != db.active
  {
    hide *;
    AssumedConfig(p, cfg);
    SaneIs(p, db, mem);
    var e, f := Handled(p, cfg, db, mem, s, ev), Handled(p, cfg, Known(db, mem), mem, s, ev);
    var n := |e.steps|;
    PairedAt(p, cfg, db, mem, s, ev, n);
    KnownAt(p, cfg, db, mem, s, ev, n);
    HandledSound(p, cfg, db, mem, s, ev);
    SoundFinal(p, db, e);
    EndIs(db, e);
    EndIs(Known(db, mem), f);
    var d, v := Final(db, e), Final(Known(db, mem), f);
    PairedIs(db, mem, d, v);
    PairedKnown(db, mem, d, v);
    KnownParts(db, mem);
    RecordStays(p, db, d);
    PointerIs(db, d);
    PointerIs(Known(db, mem), v);
    ActiveIs(p, d, e.mem);
    ActiveIs(p, v, e.mem);
    WholeIs(v, e.mem);
    HandledLeads(p, cfg, db, mem, s, ev);
    if e.mem.active.None? {
      NobodyIs(v);
      SameRecords(d, v);
    }
  }

  lemma EndIs(db: Db, e: Exec)
    ensures StoreAt(db, e, |e.steps|) == Final(db, e)
  {
  }

  lemma PairedKnown(db: Db, mem: Mem, d: Db, v: Db)
    requires Paired(db, mem, d, v)
    ensures mem.active.None? ==> PointerKept(Known(db, mem), v)
  {
    hide RecordsKept, PointerKept, PausesKept, Known, Veils;
  }

  lemma PointerIs(db: Db, d: Db)
    requires PointerKept(db, d)
    ensures d.active != db.active ==> d.active.Some? && Unresulted(d, d.active.value) && WindowNumber(d.active.value) > db.counter
  {
    hide WindowNumber;
  }

  lemma ActiveIs(p: Platform, db: Db, mem: Mem)
    requires InStep(p, db, mem)
    ensures mem.active.Some? ==> db.active == Some(mem.active.value.wid)
    ensures mem.deliberation.Some? ==>
      db.deliberation == mem.deliberation && ViewOf(db, mem.deliberation.value.lawId).status == Some(InDeliberation)
  {
    hide Holds;
  }

  lemma WholeIs(db: Db, mem: Mem)
    requires Whole(db, mem)
    ensures mem.isLeader ==>
      && (mem.active.None? ==> NobodyHeld(db)) && (mem.deliberation.None? ==> NothingAnnounced(db))
  {
    hide ViewOf;
  }

  lemma SameRecords(d: Db, v: Db)
    requires v.windows == d.windows
    ensures forall wid :: Unresulted(v, wid) == Unresulted(d, wid)
  {
  }

  /** A leader without deliberation ends a handler with one exactly if the handler replaced the announcement it was not told
      of. */
  lemma AnnouncesIffReplaced(p: Platform, cfg: Config, db: Db, mem: Mem, s: Senses, ev: Event, id: string)
    requires Assumptions(p, cfg) && Sane(p, db, mem) && FreshLaw(db, ev) && AnnouncedUnknown(db, mem, id)
    ensures var e := Handled(p, cfg, db, mem, s, ev); e.mem.deliberation.Some? <==> Final(db, e).deliberation != db.deliberation
  {
    hide *;
    AssumedConfig(p, cfg);
    SaneIs(p, db, mem);
    UnknownIs(db, mem, id);
    LostToKnown(p, db, mem, id);
    var e, f := Handled(p, cfg, db, mem, s, ev), Handled(p, cfg, Known(db, mem), mem, s, ev);
    var n := |e.steps|;
    PairedAt(p, cfg, db, mem, s, ev, n);
    KnownAt(p, cfg, db, mem, s, ev, n);
    HandledSound(p, cfg, db, mem, s, ev);
    SoundFinal(p, db, e);
    EndIs(db, e);
    EndIs(Known(db, mem), f);
    var d, v := Final(db, e), Final(Known(db, mem), f);
    PairedIs(db, mem, d, v);
    PausesAre(db, d);
    ActiveIs(p, d, e.mem);
    ActiveIs(p, v, e.mem);
    WholeIs(v, e.mem);
    HandledLeads(p, cfg, db, mem, s, ev);
    HeldIsAnchored(v, id);
    if e.mem.deliberation.None? {
      NothingAnnouncedMeans(v);
    }
  }

  lemma PausesAre(db: Db, d: Db)
    requires PausesKept(db, d)
    ensures db.deliberation.Some? ==> d.deliberation.Some?
  {
    hide Undecided;
  }

  /** A handler costs the law of a window its leader was not told of exactly if it opens a window: by the choice of a next law
      or with the frozen numbers of an announcement. */
  lemma HeldLostByHandler(p: Platform, cfg: Config, db: Db, mem: Mem, s: Senses, ev: Event, id: string)
    requires Assumptions(p, cfg) && Sane(p, db, mem) && FreshLaw(db, ev) && HeldUnknown(db, mem, id)
    ensures var e := Handled(p, cfg, db, mem, s, ev); Lost(ViewOf(Final(db, e), id)) <==> e.mem.active.Some?
  {
    hide *;
    AssumedConfig(p, cfg);
    UnknownIs(db, mem, id);
    HoldsPointer(db, id);
    OpensIffMoved(p, cfg, db, mem, s, ev);
    var e := Handled(p, cfg, db, mem, s, ev);
    HeldLostIff(p, cfg, db, mem, s, ev, |e.steps|, id);
    EndIs(db, e);
  }

  lemma HoldsPointer(db: Db, id: string)
    requires Holds(db, id)
    ensures db.active.Some?
  {
  }

  /** A handler costs an announced law its leader was not told of exactly if it announces another. */
  lemma AnnouncedLostByHandler(p: Platform, cfg: Config, db: Db, mem: Mem, s: Senses, ev: Event, id: string)
    requires Assumptions(p, cfg) && Sane(p, db, mem) && FreshLaw(db, ev) && AnnouncedUnknown(db, mem, id)
    ensures var e := Handled(p, cfg, db, mem, s, ev); Lost(ViewOf(Final(db, e), id)) <==> e.mem.deliberation.Some?
  {
    hide *;
    AssumedConfig(p, cfg);
    AnnouncesIffReplaced(p, cfg, db, mem, s, ev, id);
    var e := Handled(p, cfg, db, mem, s, ev);
    AnnouncedLostIff(p, cfg, db, mem, s, ev, |e.steps|, id);
    EndIs(db, e);
  }

  // ---- one step ----

  /** The leader wrote over the only thing that led to the law. */
  predicate Overwritten(db: Db, mem: Mem, d: Db, id: string) {
    (HeldUnknown(db, mem, id) && d.active != db.active) || (AnnouncedUnknown(db, mem, id) && d.deliberation != db.deliberation)
  }

  /** The step loses the law: a crash in a gap of it, or a leader that writes over what it was not told of. */
  predicate Loses(p: Platform, cfg: Config, sys: System, step: Step, id: string)
    requires ValidConfig(cfg)
  {
    && Legal(p, cfg, sys, step)
    && match step
       case Handle(ev, s) => Overwritten(sys.db, sys.mem, Final(sys.db, Handled(p, cfg, sys.db, sys.mem, s, ev)), id)
       case Crash(ev, s, k, next) =>
         if Unknown(sys.db, sys.mem, id) then Overwritten(sys.db, sys.mem, StoreAt(sys.db, Handled(p, cfg, sys.db, sys.mem,
             s, ev), k), id)
         else InGap(p, cfg, Known(sys.db, sys.mem), sys.mem, s, ev, k, id)
       case _ => false
  }

  lemma OverwrittenIs(db: Db, mem: Mem, d: Db, id: string)
    ensures Overwritten(db, mem, d, id) <==>
      (HeldUnknown(db, mem, id) && d.active != db.active) || (AnnouncedUnknown(db, mem, id) && d.deliberation != db.deliberation)
  {
    hide HeldUnknown, AnnouncedUnknown;
  }

  /** After k writes of a handler. */
  lemma LostAfter(p: Platform, cfg: Config, db: Db, mem: Mem, s: Senses, ev: Event, k: nat, id: string)
    requires Assumptions(p, cfg) && Sane(p, db, mem) && FreshLaw(db, ev) && k <= |Handled(p, cfg, db, mem, s, ev).steps|
    ensures var d := StoreAt(db, Handled(p, cfg, db, mem, s, ev), k);
      && (Lost(ViewOf(db, id)) ==> Lost(ViewOf(d, id)))
      && (!Lost(ViewOf(db, id)) ==>
            (Lost(ViewOf(d, id)) <==>
              if Unknown(db, mem, id) then Overwritten(db, mem, d, id) else InGap(p, cfg, Known(db, mem), mem, s, ev, k, id)))
  {
    hide *;
    AssumedConfig(p, cfg);
    SaneIs(p, db, mem);
    UnknownIs(db, mem, id);
    LostToKnown(p, db, mem, id);
    OverwrittenIs(db, mem, StoreAt(db, Handled(p, cfg, db, mem, s, ev), k), id);
    if Lost(ViewOf(db, id)) {
      LostAtEveryWrite(p, cfg, db, mem, s, ev, k, id);
    } else if HeldUnknown(db, mem, id) {
      HeldLostIff(p, cfg, db, mem, s, ev, k, id);
    } else if AnnouncedUnknown(db, mem, id) {
      AnnouncedLostIff(p, cfg, db, mem, s, ev, k, id);
    } else {
      KnownLostIff(p, cfg, db, mem, s, ev, k, id);
    }
  }

  /** A handler that is not cut short loses no law its leader knows of. */
  lemma LostAtEnd(p: Platform, cfg: Config, db: Db, mem: Mem, s: Senses, ev: Event, id: string)
    requires Assumptions(p, cfg) && Sane(p, db, mem) && FreshLaw(db, ev) && !Lost(ViewOf(db, id))
    ensures var d := Final(db, Handled(p, cfg, db, mem, s, ev)); Lost(ViewOf(d, id)) <==> Overwritten(db, mem, d, id)
  {
    hide *;
    AssumedConfig(p, cfg);
    SaneIs(p, db, mem);
    UnknownIs(db, mem, id);
    LostToKnown(p, db, mem, id);
    var e, f := Handled(p, cfg, db, mem, s, ev), Handled(p, cfg, Known(db, mem), mem, s, ev);
    OverwrittenIs(db, mem, Final(db, e), id);
    LostAfter(p, cfg, db, mem, s, ev, |e.steps|, id);
    EndIs(db, e);
    if !Unknown(db, mem, id) {
      KnownAt(p, cfg, db, mem, s, ev, |f.steps|);
      EndIs(Known(db, mem), f);
      if mem.isLeader {
        PairedAt(p, cfg, db, mem, s, ev, |e.steps|);
        BehindVeil(p, db, mem, Final(db, e), Final(Known(db, mem), f), id);
      } else {
        FollowerKnows(db, mem, id);
      }
    }
  }

  lemma ProperAtWrite(p: Platform, cfg: Config, db: Db, mem: Mem, s: Senses, ev: Event, k: nat)
    requires Assumptions(p, cfg) && Sane(p, db, mem) && FreshLaw(db, ev) && k <= |Handled(p, cfg, db, mem, s, ev).steps|
    ensures Proper(StoreAt(db, Handled(p, cfg, db, mem, s, ev), k))
  {
    hide *;
    AssumedConfig(p, cfg);
    var e, f := Handled(p, cfg, db, mem, s, ev), Handled(p, cfg, Known(db, mem), mem, s, ev);
    if mem.isLeader {
      PairedAt(p, cfg, db, mem, s, ev, k);
      KnownAt(p, cfg, db, mem, s, ev, k);
      PairedIs(db, mem, StoreAt(db, e, k), StoreAt(Known(db, mem), f, k));
      ProperToo(StoreAt(Known(db, mem), f, k), StoreAt(db, e, k));
    } else {
      FollowerKnows(db, mem, "");
      KnownAt(p, cfg, db, mem, s, ev, k);
    }
  }

  lemma ProperToo(v: Db, d: Db)
    requires Proper(v) && v.laws == d.laws && v.queue == d.queue
    ensures Proper(d)
  {
    hide Holds;
    forall id ensures ProperView(ViewOf(d, id)) {
      assert ProperView(ViewOf(v, id));
    }
  }

  lemma StepSane(p: Platform, cfg: Config, sys: System, step: Step)
    requires Assumptions(p, cfg) && Sane(p, sys.db, sys.mem) && Legal(p, cfg, sys, step)
    ensures var next := After(p, cfg, sys, step); Sane(p, next.db, next.mem)
  {
    SaneIs(p, sys.db, sys.mem);
    StepKeeps(p, cfg, sys, step);
    StepWithdrawn(p, cfg, sys, step);
    StepProper(p, cfg, sys, step);
    hide Legal, After, Sane, Durable, InStep, Proper, Withdrawn;
    var next := After(p, cfg, sys, step);
    SaneIs(p, next.db, next.mem);
  }

  lemma HandledSane(p: Platform, cfg: Config, db: Db, mem: Mem, s: Senses, ev: Event)
    requires Assumptions(p, cfg) && Sane(p, db, mem) && FreshLaw(db, ev)
    ensures var e := Handled(p, cfg, db, mem, s, ev); Sane(p, Final(db, e), e.mem)
  {
    hide Sane, Handled, Assumptions, Final, FreshLaw;
    StepSane(p, cfg, System(db, mem), Handle(ev, s));
  }

  lemma StepProper(p: Platform, cfg: Config, sys: System, step: Step)
    requires Assumptions(p, cfg) && Sane(p, sys.db, sys.mem) && Legal(p, cfg, sys, step)
    ensures Proper(After(p, cfg, sys, step).db)
  {
    AssumedConfig(p, cfg);
    SaneIs(p, sys.db, sys.mem);
    hide Sane, Durable, InStep, Proper, Withdrawn, Handled, Assumptions, SteppedDown, ReleaseWindowSeal,
        SetDeliberationDecision, StoreAt, Final;
    match step
    case Handle(ev, s) =>
      var e := Handled(p, cfg, sys.db, sys.mem, s, ev);
      ProperAtWrite(p, cfg, sys.db, sys.mem, s, ev, |e.steps|);
      EndIs(sys.db, e);
    case Crash(ev, s, k, next) => ProperAtWrite(p, cfg, sys.db, sys.mem, s, ev, k);
    case GuardLapses(wid) =>
      ReleasedParts(sys.db, wid);
      ProperToo(sys.db, ReleaseWindowSeal(sys.db, wid));
    case Vote(id, voter, decision) =>
      VotedParts(sys.db, id, voter, decision);
      ProperToo(sys.db, SetDeliberationDecision(sys.db, id, voter, decision));
    case _ =>
  }

  lemma ReleasedParts(db: Db, wid: string)
    ensures ReleaseWindowSeal(db, wid) == db.(guards := ReleaseWindowSeal(db, wid).guards)
  {
  }

  lemma VotedParts(db: Db, id: string, voter: string, decision: string)
    ensures SetDeliberationDecision(db, id, voter, decision) == db.(decisions := SetDeliberationDecision(db, id, voter,
        decision).decisions)
  {
  }

  /** A lost law stays lost, and any other is lost by a step exactly if the step is a crash in a gap of it, or a leader writes
      over what it was not told of. */
  lemma StepFate(p: Platform, cfg: Config, sys: System, step: Step, id: string)
    requires Assumptions(p, cfg) && Sane(p, sys.db, sys.mem) && Legal(p, cfg, sys, step)
    ensures var next := After(p, cfg, sys, step);
      && (Lost(ViewOf(sys.db, id)) ==> Lost(ViewOf(next.db, id)))
      && (!Lost(ViewOf(sys.db, id)) ==> (Lost(ViewOf(next.db, id)) <==> Loses(p, cfg, sys, step, id)))
  {
    AssumedConfig(p, cfg);
    hide Sane, Handled, Assumptions, SteppedDown, ReleaseWindowSeal, SetDeliberationDecision, StoreAt, Final, ViewOf, Lost, InGap,
      Overwritten, Unknown, Known;
    match step
    case Handle(ev, s) =>
      var e := Handled(p, cfg, sys.db, sys.mem, s, ev);
      LostAfter(p, cfg, sys.db, sys.mem, s, ev, |e.steps|, id);
      EndIs(sys.db, e);
      if !Lost(ViewOf(sys.db, id)) {
        LostAtEnd(p, cfg, sys.db, sys.mem, s, ev, id);
      }
    case Crash(ev, s, k, next) => LostAfter(p, cfg, sys.db, sys.mem, s, ev, k, id);
    case GuardLapses(wid) =>
      GuardNeutral(sys.db, wid, "");
      KeepsWeaken(sys.db, ReleaseWindowSeal(sys.db, wid), id);
    case Vote(x, voter, decision) =>
      VoteNeutral(sys.db, x, voter, decision);
      KeepsWeaken(sys.db, SetDeliberationDecision(sys.db, x, voter, decision), id);
    case _ =>
  }

  // ---- whole runs ----

  lemma {:induction false} RunSane(p: Platform, cfg: Config, systems: seq<System>, run: seq<Step>, i: nat, j: nat)
    requires Assumptions(p, cfg) && Execution(p, cfg, systems, run) && i <= j < |systems| && Sane(p, systems[i].db, systems[i].mem)
    ensures Sane(p, systems[j].db, systems[j].mem)
    decreases j
  {
    hide *;
    AssumedConfig(p, cfg);
    ExecutionLength(p, cfg, systems, run);
    if i < j {
      RunSane(p, cfg, systems, run, i, j - 1);
      TakeStep(p, cfg, systems, run, j - 1);
      StepSane(p, cfg, systems[j - 1], run[j - 1]);
    }
  }

  /** A law that nothing in the store anchors is never found again, whatever happens: crashes, promotions, and starts as leader
      over anything. */
  lemma {:induction false} LostForever(p: Platform, cfg: Config, systems: seq<System>, run: seq<Step>, i: nat, j: nat, id: string)
    requires Assumptions(p, cfg) && Execution(p, cfg, systems, run) && i <= j < |systems|
    requires Sane(p, systems[i].db, systems[i].mem) && Lost(ViewOf(systems[i].db, id))
    ensures Lost(ViewOf(systems[j].db, id))
    decreases j
  {
    hide *;
    AssumedConfig(p, cfg);
    ExecutionLength(p, cfg, systems, run);
    if i < j {
      LostForever(p, cfg, systems, run, i, j - 1, id);
      RunSane(p, cfg, systems, run, i, j - 1);
      TakeStep(p, cfg, systems, run, j - 1);
      StepFate(p, cfg, systems[j - 1], run[j - 1], id);
    }
  }

  /** Some step of the run loses the law. */
  ghost predicate SomeLoses(p: Platform, cfg: Config, systems: seq<System>, run: seq<Step>, id: string)
    requires ValidConfig(cfg)
  {
    exists i {:trigger run[i]} :: 0 <= i < |run| && i < |systems| && Loses(p, cfg, systems[i], run[i], id)
  }

  /** Up to j the law is lost only if some step before j lost it. */
  lemma {:induction false} RunFate(p: Platform, cfg: Config, systems: seq<System>, run: seq<Step>, j: nat, id: string)
    requires Assumptions(p, cfg) && Execution(p, cfg, systems, run) && j < |systems|
    requires Sane(p, systems[0].db, systems[0].mem) && !Lost(ViewOf(systems[0].db, id))
    ensures Lost(ViewOf(systems[j].db, id)) ==> exists i :: 0 <= i < j && Loses(p, cfg, systems[i], run[i], id)
    decreases j
  {
    hide *;
    AssumedConfig(p, cfg);
    ExecutionLength(p, cfg, systems, run);
    if j > 0 {
      RunFate(p, cfg, systems, run, j - 1, id);
      RunSane(p, cfg, systems, run, 0, j - 1);
      TakeStep(p, cfg, systems, run, j - 1);
      StepFate(p, cfg, systems[j - 1], run[j - 1], id);
    }
  }

  lemma SomeLoss(p: Platform, cfg: Config, systems: seq<System>, run: seq<Step>, id: string) returns (i: nat)
    requires ValidConfig(cfg) && SomeLoses(p, cfg, systems, run, id)
    ensures i < |run| && i < |systems| && Loses(p, cfg, systems[i], run[i], id)
  {
    hide Loses;
    i :| 0 <= i < |run| && i < |systems| && Loses(p, cfg, systems[i], run[i], id);
  }

  lemma LossIsSome(p: Platform, cfg: Config, systems: seq<System>, run: seq<Step>, id: string)
    requires ValidConfig(cfg) && |run| <= |systems| && exists i :: 0 <= i < |run| && Loses(p, cfg, systems[i], run[i], id)
    ensures SomeLoses(p, cfg, systems, run, id)
  {
    hide Loses;
  }

  lemma InitialSane(p: Platform, sys: System)
    requires Initial(sys)
    ensures Sane(p, sys.db, sys.mem) && forall id :: !Lost(ViewOf(sys.db, id))
  {
    EmptyDurable(p);
    BlankInStep(p, sys.db, sys.mem);
    hide Durable, InStep;
  }

  /** From an empty store, over any run, a law is anchored by nothing exactly if some step lost it. */
  lemma LostIffSomeLoses(p: Platform, cfg: Config, systems: seq<System>, run: seq<Step>, id: string)
    requires Assumptions(p, cfg) && Execution(p, cfg, systems, run) && Initial(systems[0])
    ensures var end := systems[|run|]; Lost(ViewOf(end.db, id)) <==> SomeLoses(p, cfg, systems, run, id)
  {
    hide *;
    AssumedConfig(p, cfg);
    ExecutionLength(p, cfg, systems, run);
    InitialSane(p, systems[0]);
    RunFate(p, cfg, systems, run, |run|, id);
    if SomeLoses(p, cfg, systems, run, id) {
      var i := SomeLoss(p, cfg, systems, run, id);
      RunSane(p, cfg, systems, run, 0, i);
      RunSane(p, cfg, systems, run, 0, i + 1);
      TakeStep(p, cfg, systems, run, i);
      StepFate(p, cfg, systems[i], run[i], id);
      LostForever(p, cfg, systems, run, i + 1, |run|, id);
    } else if Lost(ViewOf(systems[|run|].db, id)) {
      LossIsSome(p, cfg, systems, run, id);
    }
  }

  lemma PlacesToKnown(db: Db, mem: Mem, id: string)
    requires id in db.laws
    ensures id in Known(db, mem).laws && Places(Known(db, mem), mem, id) == Places(db, mem, id)
    ensures PlacesOfOne(Known(db, mem), id) == PlacesOfOne(db, id)
  {
  }

  /** Between handlers the leader has each law in one place, its copies in the queue counted apart, or in none: if the law is
      lost, or if the leader was not told of the window or the announcement it is in. */
  lemma PlacedUnlessUnknown(p: Platform, db: Db, mem: Mem, id: string)
    requires Sane(p, db, mem) && mem.isLeader && id in db.laws
    ensures Places(db, mem, id) == if Lost(ViewOf(db, id)) || Unknown(db, mem, id) then 0 else PlacesOfOne(db, id)
  {
    hide *;
    SaneIs(p, db, mem);
    KnownAccounted(p, db, mem);
    PlacesToKnown(db, mem, id);
    PlacedOnce(p, System(Known(db, mem), mem), id);
    LostToKnown(p, db, mem, id);
  }

  /** From an empty store, over any run: every law the leader knows is in exactly one place, its copies in the queue counted
      apart, unless some step lost it or the leader was not told of it, and then it is in none. */
  lemma Conservation(p: Platform, cfg: Config, systems: seq<System>, run: seq<Step>, id: string)
    requires Assumptions(p, cfg) && Execution(p, cfg, systems, run) && Initial(systems[0])
    requires var end := systems[|run|]; end.mem.isLeader && id in end.db.laws
    ensures var end := systems[|run|];
      Places(end.db, end.mem, id)
      == if SomeLoses(p, cfg, systems, run, id) || Unknown(end.db, end.mem, id) then 0 else PlacesOfOne(end.db, id)
  {
    hide *;
    AssumedConfig(p, cfg);
    ExecutionLength(p, cfg, systems, run);
    InitialSane(p, systems[0]);
    RunSane(p, cfg, systems, run, 0, |run|);
    LostIffSomeLoses(p, cfg, systems, run, id);
    PlacedUnlessUnknown(p, systems[|run|].db, systems[|run|].mem, id);
  }

  /** And in exactly one place, every copy counted, if the law was never queued a second time. */
  lemma ExactlyOnePlace(p: Platform, cfg: Config, systems: seq<System>, run: seq<Step>, id: string)
    requires Assumptions(p, cfg) && Execution(p, cfg, systems, run) && Initial(systems[0])
    requires NeverQueuedTwice(p, systems, run, id)
    requires var end := systems[|run|]; end.mem.isLeader && id in end.db.laws
    ensures var end := systems[|run|];
      Places(end.db, end.mem, id) == if SomeLoses(p, cfg, systems, run, id) || Unknown(end.db, end.mem, id) then 0 else 1
  {
    hide *;
    AssumedConfig(p, cfg);
    ExecutionLength(p, cfg, systems, run);
    Conservation(p, cfg, systems, run, id);
    RunOneCopy(p, cfg, systems, run, |run|, id);
    OneCopyMeans(systems[|run|].db, id);
  }

  /** At every write of every handler after any run, a law is in at most one place of the store, its copies in the queue
      counted apart: but for the one write of an announcement at which it is announced and still queued. */
  lemma OnePlaceAtEveryWrite(p: Platform, cfg: Config, systems: seq<System>, run: seq<Step>, s: Senses, ev: Event, k: nat,
        id: string)
    requires Assumptions(p, cfg) && Execution(p, cfg, systems, run) && Initial(systems[0])
    requires var end := systems[|run|]; FreshLaw(end.db, ev) && k <= |Handled(p, cfg, end.db, end.mem, s, ev).steps|
    ensures var end := systems[|run|];
      var db := StoreAt(end.db, Handled(p, cfg, end.db, end.mem, s, ev), k);
      var v := ViewOf(db, id);
      && (|| StorePlaces(db, id) <= PlacesOfOne(db, id)
          || (StorePlaces(db, id) == Copies(db, id) + 1 && v.queued && v.announced && v.status == Some(InDeliberation)))
      && (v.status.Some? ==> (Lost(v) <==> StorePlaces(db, id) == 0))
  {
    hide *;
    AssumedConfig(p, cfg);
    ExecutionLength(p, cfg, systems, run);
    var end := systems[|run|];
    InitialSane(p, systems[0]);
    RunSane(p, cfg, systems, run, 0, |run|);
    SaneIs(p, end.db, end.mem);
    var e := Handled(p, cfg, end.db, end.mem, s, ev);
    HandledSound(p, cfg, end.db, end.mem, s, ev);
    DurableAt(p, end.db, e, k);
    ProperAtWrite(p, cfg, end.db, end.mem, s, ev, k);
    PlacesOfView(p, StoreAt(end.db, e, k), id);
    CountedPlaces(StoreAt(end.db, e, k), id);
  }
}
