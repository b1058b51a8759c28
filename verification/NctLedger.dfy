/**
 Conservation of laws: a leader keeps each law in exactly one place, a takeover recovers exactly the laws the store
 still anchors, and a law that lost its anchor never comes back.
 */
module NctLedger {
  import opened Wrappers
  import opened Platform
  import opened Text
  import opened Challenge
  import opened Categories
  import opened Laws
  import opened Chain
  import opened Store
  import opened Nct
  import opened NctInvariant
  import opened NctHandlers
  import opened NctRuns
  import opened NctSafety
  import opened NctRecords
  import opened NctConservation
  import Deliberation

  predicate Lost(v: View) {
    v.status.Some? && !Anchored(v)
  }

  /** From v to w no anchored law is dropped, and a law that becomes known is anchored. */
  predicate Balanced(v: View, w: View) {
    && (v.status.Some? ==> w.status.Some?)
    && (Lost(w) ==> Lost(v))
  }

  /** The law is as lost as it was. */
  predicate StillLost(v: View, w: View) {
    Lost(w) && w.status == v.status
  }

  /** What a handler does to every law: proper at each write, balanced at the end, and nothing lost is touched. */
  ghost predicate Ledger(db: Db, e: Exec) {
    && (forall i :: 0 <= i < |e.steps| ==> Proper(e.steps[i]))
    && (forall id :: Balanced(ViewOf(db, id), LastView(db, e, id)))
    && (forall id, i :: 0 <= i < |e.steps| && Lost(ViewOf(db, id)) ==> StillLost(ViewOf(db, id), ViewOf(e.steps[i], id)))
  }

  /** Memory accounts for what the store holds and announces. */
  ghost predicate Whole(db: Db, mem: Mem) {
    mem.isLeader ==>
      && (mem.active.None? ==> NobodyHeld(db))
      && (mem.deliberation.None? ==> NothingAnnounced(db))
      && (forall id :: ViewOf(db, id).announced ==> !ViewOf(db, id).queued)
  }

  lemma LedgerThen(db: Db, e: Exec, next: Exec)
    requires Ledger(db, e) && Ledger(Final(db, e), next)
    ensures Ledger(db, Then(e, next))
  {
    hide ViewOf, Anchored, Proper;
    var all := Then(e, next);
    FinalOfThen(db, e, next);
    forall id ensures Balanced(ViewOf(db, id), LastView(db, all, id)) {
      assert Balanced(ViewOf(db, id), LastView(db, e, id)) && Balanced(LastView(db, e, id), LastView(Final(db, e), next, id));
    }
    forall id, i | 0 <= i < |all.steps| && Lost(ViewOf(db, id)) ensures StillLost(ViewOf(db, id), ViewOf(all.steps[i], id)) {
      if i >= |e.steps| {
        assert e.steps != [] ==> StillLost(ViewOf(db, id), ViewOf(e.steps[|e.steps| - 1], id));
        assert all.steps[i] == next.steps[i - |e.steps|];
      }
    }
  }

  /** A stretch about one law that ends lost only if it was, and touches no lost law. */
  lemma LedgerOf(db: Db, e: Exec, id: string)
    requires Proper(db) && About(db, e.steps, id) && e.steps != []
    requires forall v :: v in Views(e.steps, id) ==> ProperView(v)
    requires Lost(LastView(db, e, id)) ==> Lost(ViewOf(db, id))
    requires Lost(ViewOf(db, id)) ==> forall v :: v in Views(e.steps, id) ==> StillLost(ViewOf(db, id), v)
    requires LastView(db, e, id).status.Some?
    ensures Ledger(db, e)
  {
    hide ViewOf, Anchored, ProperView, Lost;
    forall i | 0 <= i < |e.steps| ensures Proper(e.steps[i]) {
      assert Views(e.steps, id)[i] == ViewOf(e.steps[i], id);
      forall other ensures ProperView(ViewOf(e.steps[i], other)) {
        assert other != id ==> ViewOf(e.steps[i], other) == ViewOf(db, other);
      }
    }
    FinalKeeps(db, e, id);
    forall other ensures Balanced(ViewOf(db, other), LastView(db, e, other)) {
    }
    forall other, i | 0 <= i < |e.steps| && Lost(ViewOf(db, other)) ensures StillLost(ViewOf(db, other), ViewOf(e.steps[i], other)) {
      assert KeepsOthers(db, e.steps[i], id);
      assert Views(e.steps, id)[i] == ViewOf(e.steps[i], id);
    }
  }

  lemma LedgerNeutral(db: Db, e: Exec)
    requires Proper(db) && Neutral(db, e.steps)
    ensures Ledger(db, e)
    ensures KeepsAll(db, Final(db, e))
  {
    hide ViewOf, Anchored, ProperView;
  }

  lemma ProperAfter(db: Db, e: Exec)
    requires Proper(db) && Ledger(db, e)
    ensures Proper(Final(db, e))
  {
    hide Proper;
  }

  // ---- the boundary ----

  /** Memory after a stretch about one law. */
  lemma WholeAfter(db: Db, d: Db, mem: Mem, id: string)
    requires KeepsOthers(db, d, id)
    requires forall other :: other != id && ViewOf(db, other).announced ==> !ViewOf(db, other).queued
    requires mem.active.None? ==> !ViewOf(d, id).held && forall other :: other != id ==> !ViewOf(db, other).held
    requires mem.deliberation.None? ==> !ViewOf(d, id).announced && forall other :: other != id ==> !ViewOf(db, other).announced
    requires ViewOf(d, id).announced ==> !ViewOf(d, id).queued
    ensures Whole(d, mem)
  {
    hide ViewOf;
  }

  lemma WholeNeutral(db: Db, d: Db, mem: Mem, mem': Mem)
    requires Whole(db, mem) && KeepsAll(db, d)
    requires mem'.isLeader == mem.isLeader && mem'.active == mem.active && mem'.deliberation == mem.deliberation
    ensures Whole(d, mem')
  {
    hide ViewOf;
  }

  /** What memory says about the views, at the boundary of a leader. */
  lemma HeldIsActive(p: Platform, db: Db, mem: Mem)
    requires Durable(p, db) && InStep(p, db, mem) && mem.active.Some?
    ensures var id := mem.active.value.lawId;
      && id in db.laws && ViewOf(db, id).held && !ViewOf(db, id).queued && ViewOf(db, id).status == Some(InWindow)
      && forall other :: other != id ==> !ViewOf(db, other).held
  {
    hide Linked, SafeChain, LawsOk, QueueOk, DeliberationOk, WindowsOk, GetChain, LastIs, FromWid, Ready;
  }

  lemma AnnouncedIsRemembered(p: Platform, db: Db, mem: Mem)
    requires InStep(p, db, mem) && mem.deliberation.Some?
    ensures var id := mem.deliberation.value.lawId;
      && db.deliberation == mem.deliberation
      && id in db.laws && ViewOf(db, id).announced && ViewOf(db, id).status == Some(InDeliberation)
      && forall other :: other != id ==> !ViewOf(db, other).announced
  {
    hide Holds;
  }

  lemma NothingAnnouncedMeans(db: Db)
    requires NothingAnnounced(db)
    ensures db.deliberation.None?
  {
    assert db.deliberation.Some? ==> ViewOf(db, db.deliberation.value.lawId).announced;
  }

  lemma PointerInWindows(p: Platform, db: Db)
    requires Durable(p, db)
    ensures db.active.Some? ==> db.active.value in db.windows
  {
  }

  // ---- openings and announcements ----

  lemma OneNeutral(db: Db, d: Db, mem: Mem)
    requires KeepsAll(db, d)
    ensures Neutral(db, [d]) && Neutral(db, Exec([d], mem, []).steps) && Final(db, Exec([d], mem, [])) == d
  {
    hide KeepsAll;
  }

  lemma CounterNeutral(db: Db)
    ensures KeepsAll(db, NextWindowNumber(db))
  {
    NeutralView(db, NextWindowNumber(db));
  }

  /** The window of a law: it ends held, and every law stays proper on the way. */
  lemma InstalledLedger(p: Platform, db: Db, mem: Mem, law: Law, o: Opening, s: Senses)
    requires Proper(db) && law.lawId in db.laws && o.wid !in db.windows && NobodyHeld(db)
    requires db.active.Some? ==> db.active.value in db.windows
    requires !Lost(ViewOf(db, law.lawId)) && ProperView(ViewOf(db, law.lawId).(status := Some(InWindow)))
    ensures var e := Installed(p, db, mem, law, o, s);
      && Ledger(db, e) && KeepsOthers(db, Final(db, e), law.lawId)
      && LastView(db, e, law.lawId) == ViewOf(db, law.lawId).(status := Some(InWindow), queued := false, held := true)
  {
    hide ViewOf, Installed, About;
    var e := Installed(p, db, mem, law, o, s);
    InstalledViews(p, db, mem, law, o, s);
    InstalledMem(p, db, mem, law, o, s);
    LastOfViews(db, e, law.lawId);
    FinalKeeps(db, e, law.lawId);
    assert ProperView(ViewOf(db, law.lawId));
    LedgerOf(db, e, law.lawId);
  }

  lemma OpenDirectLedger(p: Platform, cfg: Config, db: Db, mem: Mem, s: Senses, law: Law)
    requires Assumptions(p, cfg) && Durable(p, db) && Proper(db) && Whole(db, mem) && mem.isLeader
    requires mem.active.None? && mem.deliberation.None?
    requires law.lawId in db.queue && law.lawId in db.laws && db.laws[law.lawId] == law
    ensures var e := OpenDirect(p, cfg, db, mem, s, law); Ledger(db, e) && Whole(Final(db, e), e.mem)
  {
    AssumedConfig(p, cfg);
    hide *;
    var d := NextWindowNumber(db);
    OpenDirectShape(p, cfg, db, mem, s, law);
    CounterUp(p, db);
    CounterNeutral(db);
    OneNeutral(db, d, mem);
    var m := Measured(cfg, d, mem, s);
    MeasuredNeutral(cfg, d, mem, s);
    MeasuredSound(p, cfg, d, mem, s);
    var e1 := Then(Exec([d], mem, []), m);
    NeutralThen(db, Exec([d], mem, []), m);
    FinalOfThen(db, Exec([d], mem, []), m);
    ThenShape(Exec([d], mem, []), m);
    LedgerNeutral(db, e1);
    var d1 := Final(db, e1);
    FreshWindow(p, db, d.counter, law.lawId);
    QueuedFacts(db, mem, d1, law.lawId);
    ProperAfter(db, e1);
    PointerInWindows(p, db);
    var o := OpeningDirect(cfg, d.counter, law, e1.mem, s);
    var e2 := Then(e1, Installed(p, d1, e1.mem, law, o, s));
    InstalledLedger(p, d1, e1.mem, law, o, s);
    InstalledMem(p, d1, e1.mem, law, o, s);
    LedgerThen(db, e1, Installed(p, d1, e1.mem, law, o, s));
    ThenShape(e1, Installed(p, d1, e1.mem, law, o, s));
    FinalOfThen(db, e1, Installed(p, d1, e1.mem, law, o, s));
    OpenedWhole(db, d1, Final(db, e2), mem, e2.mem, law.lawId);
    EndWithTurn(db, e2, law);
  }

  lemma QueuedFacts(db: Db, mem: Mem, d: Db, id: string)
    requires Proper(db) && Whole(db, mem) && mem.isLeader && mem.active.None? && mem.deliberation.None?
    requires id in db.queue && KeepsAll(db, d)
    ensures NobodyHeld(d) && NothingAnnounced(d) && !Lost(ViewOf(d, id)) && ViewOf(d, id) == ViewOf(db, id)
    ensures ViewOf(d, id).queued && !ViewOf(d, id).announced
    ensures ProperView(ViewOf(d, id).(status := Some(InWindow))) && ProperView(ViewOf(d, id).(status := Some(InDeliberation)))
  {
    hide Holds;
  }

  lemma OpenedWhole(db: Db, d1: Db, d2: Db, mem: Mem, mem': Mem, id: string)
    requires NothingAnnounced(d1) && KeepsOthers(d1, d2, id) && !ViewOf(d2, id).announced
    requires mem'.active.Some?
    ensures Whole(d2, mem')
  {
    hide ViewOf;
    WholeAfter(d1, d2, mem', id);
  }

  /** _consumir_turno at the end of a stretch changes nothing that matters here. */
  lemma EndWithTurn(db: Db, e: Exec, law: Law)
    requires Proper(db) && Ledger(db, e) && Whole(Final(db, e), e.mem)
    ensures var all := Then(e, TurnTaken(Final(db, e), e.mem, law)); Ledger(db, all) && Whole(Final(db, all), all.mem)
  {
    hide *;
    var d := Final(db, e);
    var turn := TurnTaken(d, e.mem, law);
    TurnTakenNeutral(d, e.mem, law);
    TurnTakenShape(d, e.mem, e.mem, law);
    ProperAfter(db, e);
    LedgerNeutral(d, turn);
    LedgerThen(db, e, turn);
    FinalOfThen(db, e, turn);
    ThenShape(e, turn);
    WholeNeutral(d, Final(d, turn), e.mem, turn.mem);
  }

  lemma AnnounceLedger(db: Db, mem: Mem, a: Announced)
    requires Proper(db) && a.lawId in db.laws && NothingAnnounced(db)
    requires ViewOf(db, a.lawId).queued
    ensures var e := Announce(db, mem, a);
      && Ledger(db, e) && KeepsOthers(db, Final(db, e), a.lawId)
      && LastView(db, e, a.lawId) == ViewOf(db, a.lawId).(announced := true, status := Some(InDeliberation), queued := false)
  {
    hide ViewOf, Announce, About;
    var e := Announce(db, mem, a);
    NothingAnnouncedMeans(db);
    AnnounceViews(db, mem, a);
    AnnounceShape(db, mem, a);
    LastOfViews(db, e, a.lawId);
    FinalKeeps(db, e, a.lawId);
    assert ProperView(ViewOf(db, a.lawId));
    LedgerOf(db, e, a.lawId);
  }

  lemma StartDeliberationLedger(p: Platform, cfg: Config, db: Db, mem: Mem, s: Senses, law: Law)
    requires Assumptions(p, cfg) && Durable(p, db) && Proper(db) && Whole(db, mem) && mem.isLeader
    requires mem.active.None? && mem.deliberation.None?
    requires law.lawId in db.queue && law.lawId in db.laws && db.laws[law.lawId] == law
    ensures var e := StartDeliberation(p, cfg, db, mem, s, law); Ledger(db, e) && Whole(Final(db, e), e.mem)
  {
    AssumedConfig(p, cfg);
    hide *;
    var voters := VotersFor(cfg, s, law);
    var e1 := MeasuredFor(cfg, db, mem, law, voters).0;
    var a := AnnouncementOf(p, cfg, mem, s, law, voters, MeasuredFor(cfg, db, mem, law, voters).1);
    AnnouncementConcerns(p, cfg, mem, s, law, voters, MeasuredFor(cfg, db, mem, law, voters).1);
    MeasuredForSound(p, cfg, db, mem, law, voters);
    MeasuredForNeutral(cfg, db, mem, law, voters);
    var d := ClearDeliberationDecisions(Final(db, e1), law.lawId);
    var veto := Exec([d] + VetoSteps(d, law.lawId, voters), mem, []);
    VetoesSound(p, Final(db, e1), mem, law.lawId, voters);
    VetoesNeutral(p, Final(db, e1), mem, law.lawId, voters);
    var e2 := Then(e1, veto);
    NeutralThen(db, e1, veto);
    FinalOfThen(db, e1, veto);
    LedgerNeutral(db, e2);
    ProperAfter(db, e2);
    QueuedFacts(db, mem, Final(db, e2), law.lawId);
    var announce := Announce(Final(db, e2), mem, a);
    AnnounceLedger(Final(db, e2), mem, a);
    var e3 := Then(e2, announce);
    LedgerThen(db, e2, announce);
    FinalOfThen(db, e2, announce);
    StartDeliberationShape(p, cfg, db, mem, s, law, e1, veto, a);
    AnnouncedWhole(Final(db, e2), Final(db, e3), mem.(deliberation := Some(a)), a.lawId);
    EndAnnounced(db, e3, mem, law, a, StartDeliberation(p, cfg, db, mem, s, law));
  }

  lemma AnnouncedWhole(d1: Db, d2: Db, mem': Mem, id: string)
    requires NothingAnnounced(d1) && NobodyHeld(d1) && KeepsOthers(d1, d2, id) && !ViewOf(d2, id).held && !ViewOf(d2, id).queued
    requires mem'.deliberation.Some?
    ensures Whole(d2, mem')
  {
    hide ViewOf;
    WholeAfter(d1, d2, mem', id);
  }

  /** The turn is charged and the announcement remembered. */
  lemma EndAnnounced(db: Db, e: Exec, mem: Mem, law: Law, a: Announced, all: Exec)
    requires Proper(db) && Ledger(db, e) && Whole(Final(db, e), mem.(deliberation := Some(a)))
    requires var t := Then(e, TurnTaken(Final(db, e), mem, law)); all == t.(mem := t.mem.(deliberation := Some(a)))
    ensures Ledger(db, all) && Whole(Final(db, all), all.mem)
  {
    hide *;
    var d := Final(db, e);
    var turn := TurnTaken(d, mem, law);
    TurnTakenNeutral(d, mem, law);
    TurnTakenShape(d, mem, mem, law);
    ProperAfter(db, e);
    LedgerNeutral(d, turn);
    LedgerThen(db, e, turn);
    FinalOfThen(db, e, turn);
    ThenShape(e, turn);
    LedgerSameSteps(db, Then(e, turn), all);
    WholeNeutral(d, Final(d, turn), mem.(deliberation := Some(a)), all.mem);
  }

  lemma LedgerSameSteps(db: Db, e: Exec, f: Exec)
    requires Ledger(db, e) && f.steps == e.steps
    ensures Ledger(db, f) && Final(db, f) == Final(db, e)
  {
    hide ViewOf, Proper;
  }

  lemma LedgerIdle(db: Db, mem: Mem)
    ensures Ledger(db, Idle(mem)) && Final(db, Idle(mem)) == db
  {
  }

  lemma MaybeOpenLedger(p: Platform, cfg: Config, db: Db, mem: Mem, s: Senses)
    requires Assumptions(p, cfg) && Durable(p, db) && Proper(db) && Whole(db, mem)
    ensures var e := MaybeOpen(p, cfg, db, mem, s); Ledger(db, e) && Whole(Final(db, e), e.mem)
  {
    hide NextLaw, StartDeliberation, OpenDirect, Durable, Proper, Whole, Ledger;
    LedgerIdle(db, mem);
    if mem.isLeader && mem.active.None? && mem.deliberation.None? {
      var next := NextLaw(cfg, db, mem, s);
      if next.Some? {
        var id :| id in db.queue && id in db.laws && db.laws[id] == next.value;
        KeyIsId(p, db, id);
        if cfg.deliberationMicros > 0 {
          StartDeliberationLedger(p, cfg, db, mem, s, next.value);
        } else {
          OpenDirectLedger(p, cfg, db, mem, s, next.value);
        }
      }
    }
  }

  lemma AndMaybeOpenLedger(p: Platform, cfg: Config, db: Db, e: Exec, s: Senses)
    requires Assumptions(p, cfg) && Durable(p, Final(db, e)) && Proper(db) && Ledger(db, e) && Whole(Final(db, e), e.mem)
    ensures var all := AndMaybeOpen(p, cfg, db, e, s); Ledger(db, all) && Whole(Final(db, all), all.mem)
  {
    hide Durable, Proper, Whole, Ledger, MaybeOpen;
    ProperAfter(db, e);
    var next := MaybeOpen(p, cfg, Final(db, e), e.mem, s);
    MaybeOpenLedger(p, cfg, Final(db, e), e.mem, s);
    LedgerThen(db, e, next);
    FinalOfThen(db, e, next);
  }

  // ---- the end of a deliberation ----

  /** The writes that end the pause followed by those that place the law again. */
  lemma PlacedAgain(p: Platform, cfg: Config, db: Db, mem: Mem, s: Senses, a: Announced, next: Exec)
    requires Durable(p, db) && Proper(db) && InStep(p, db, mem) && Whole(db, mem) && mem.deliberation == Some(a)
    requires var e := PauseEnded(p, cfg, db, mem, s, a);
      var d := Final(db, e);
      && About(d, next.steps, a.lawId) && next.steps != []
      && (forall v :: v in Views(next.steps, a.lawId) ==> ProperView(v))
      && !Lost(LastView(d, next, a.lawId)) && LastView(d, next, a.lawId).status.Some?
      && !LastView(d, next, a.lawId).announced
      && next.mem.isLeader && (next.mem.active.None? ==> !LastView(d, next, a.lawId).held)
    ensures var e := Then(PauseEnded(p, cfg, db, mem, s, a), next); Ledger(db, e) && Whole(Final(db, e), e.mem)
  {
    hide *;
    var id := a.lawId;
    var e := PauseEnded(p, cfg, db, mem, s, a);
    AnnouncedIsRemembered(p, db, mem);
    AnnouncedBoundary(p, db, mem);
    PauseEndedViews(p, cfg, db, mem, s, a);
    PauseEndedSound(p, cfg, db, mem, s, a) by { RememberedAnnouncement(p, db, mem); }
    var all := Then(e, next);
    AboutThen(db, e, next, id);
    FinalOfThen(db, e, next);
    LastViewOfThen(db, e, next, id);
    ThenShape(e, next);
    assert forall v :: v in Views(all.steps, id) ==> v in Views(e.steps, id) || v in Views(next.steps, id);
    PauseViewsProper(ViewOf(db, id), Views(e.steps, id), Judged(cfg, db, a).2.Some?);
    LedgerOf(db, all, id);
    FinalKeeps(db, all, id);
    WholeAfter(db, Final(db, all), all.mem, id);
  }

  lemma LastViewOfThen(db: Db, e: Exec, next: Exec, id: string)
    ensures LastView(db, Then(e, next), id) == LastView(Final(db, e), next, id) == ViewOf(Final(db, Then(e, next)), id)
  {
    FinalOfThen(db, e, next);
  }

  lemma PauseViewsProper(v: View, views: seq<View>, counted: bool)
    requires !v.queued && v.announced && v.status == Some(InDeliberation)
    requires views == (if counted then [v] else []) + [v, v.(announced := false), v.(announced := false)]
    ensures (forall w :: w in views ==> ProperView(w)) && !Lost(v)
    ensures views[|views| - 1] == v.(announced := false)
  {
  }

  lemma AnnouncedBoundary(p: Platform, db: Db, mem: Mem)
    requires InStep(p, db, mem) && Whole(db, mem) && mem.deliberation.Some?
    ensures mem.isLeader && mem.active.None? && forall id :: !ViewOf(db, id).held
    ensures forall id :: ViewOf(db, id).announced ==> !ViewOf(db, id).queued
  {
    hide ViewOf, ActiveInStep, AnnouncedInStep;
  }

  /** What the pause leaves of its law: known, in no place. */
  lemma PauseLeaves(p: Platform, cfg: Config, db: Db, mem: Mem, s: Senses, a: Announced)
    requires Durable(p, db) && InStep(p, db, mem) && Whole(db, mem) && mem.deliberation == Some(a)
    ensures var e := PauseEnded(p, cfg, db, mem, s, a);
      var d := Final(db, e);
      && Durable(p, d) && e.mem == mem.(deliberation := None) && mem.isLeader && mem.active.None?
      && a.lawId in d.laws && d.laws[a.lawId].lawId == a.lawId && d.laws[a.lawId].status == InDeliberation
      && Ready(Blocks(d), d.laws[a.lawId]) && Blocks(d) == Blocks(db)
      && ViewOf(d, a.lawId) == View(Some(InDeliberation), false, false, false)
      && NobodyHeld(d) && !Holds(d, a.lawId)
  {
    hide *;
    AnnouncedIsRemembered(p, db, mem);
    AnnouncedBoundary(p, db, mem);
    RememberedAnnouncement(p, db, mem);
    PauseEndedSound(p, cfg, db, mem, s, a);
    PauseEndedViews(p, cfg, db, mem, s, a);
    PauseMem(p, cfg, db, mem, s, a);
    var e := PauseEnded(p, cfg, db, mem, s, a);
    LastOfViews(db, e, a.lawId);
    ViewsLength(e.steps, a.lawId);
    LastViewIs(db, e, a.lawId);
    FinalKeeps(db, e, a.lawId);
    StatusOfView(db, a.lawId);
    PauseViewsProper(ViewOf(db, a.lawId), Views(e.steps, a.lawId), Judged(cfg, db, a).2.Some?);
    NobodyAfter(db, Final(db, e), a.lawId);
  }

  lemma PauseMem(p: Platform, cfg: Config, db: Db, mem: Mem, s: Senses, a: Announced)
    ensures PauseEnded(p, cfg, db, mem, s, a).steps != []
  {
    hide Judged, ResultOf;
  }

  lemma LastViewIs(db: Db, e: Exec, id: string)
    ensures LastView(db, e, id) == ViewOf(Final(db, e), id)
  {
  }

  lemma StatusOfView(db: Db, id: string)
    ensures ViewOf(db, id).held == Holds(db, id) && ViewOf(db, id).queued == (id in db.queue)
    ensures id in db.laws ==> ViewOf(db, id).status == Some(db.laws[id].status)
    ensures ViewOf(db, id).status.Some? <==> id in db.laws
    ensures ViewOf(db, id).announced == (db.deliberation.Some? && db.deliberation.value.lawId == id)
  {
  }

  lemma NobodyAfter(db: Db, d: Db, id: string)
    requires KeepsOthers(db, d, id) && !ViewOf(d, id).held && forall other :: !ViewOf(db, other).held
    ensures NobodyHeld(d) && !Holds(d, id)
  {
    assert ViewOf(d, id).held == Holds(d, id);
    hide ViewOf;
  }

  lemma OpenFrozenViews(p: Platform, db: Db, mem: Mem, s: Senses, law: Law, f: Frozen)
    requires Durable(p, db) && law.lawId in db.laws && NobodyHeld(db)
    ensures var e := OpenFrozen(p, db, mem, s, law, f);
      var v := ViewOf(db, law.lawId);
      && About(db, e.steps, law.lawId) && |e.steps| == 5 && e.mem.active.Some? && e.mem.isLeader == mem.isLeader
      && Views(e.steps, law.lawId) == [v, v, v.(status := Some(InWindow)), v.(status := Some(InWindow), queued := false),
                                       v.(status := Some(InWindow), queued := false, held := true)]
  {
    hide *;
    var d := NextWindowNumber(db);
    var id := law.lawId;
    CounterUp(p, db);
    OpenFrozenShape(p, db, mem, s, law, f);
    CounterNeutral(db);
    OneNeutral(db, d, mem);
    KeepsWeaken(db, d, id);
    NobodyAlike(db, d);
    var o := OpeningFrozen(d.counter, law, mem, s, f);
    FreshWindow(p, db, d.counter, id + "-" + s.salt);
    PointerInWindows(p, d);
    var head, next := Exec([d], mem, []), Installed(p, d, mem, law, o, s);
    InstalledViews(p, d, mem, law, o, s);
    InstalledMem(p, d, mem, law, o, s);
    AboutTwo(db, d, d, id) by { KeepsSelf(d, id); }
    AboutThen(db, head, next, id);
    ThenShape(head, next);
  }

  lemma NobodyAlike(db: Db, d: Db)
    requires NobodyHeld(db) && KeepsAll(db, d)
    ensures NobodyHeld(d)
  {
    hide ViewOf;
  }

  lemma ResolvedOpen(p: Platform, cfg: Config, db: Db, mem: Mem, s: Senses, a: Announced, accepted: seq<string>)
    requires Durable(p, db) && Proper(db) && InStep(p, db, mem) && Whole(db, mem) && mem.deliberation == Some(a)
    ensures var e := PauseEnded(p, cfg, db, mem, s, a);
      var d := Final(db, e);
      && a.lawId in d.laws
      && var all := Then(e, OpenFrozen(p, d, e.mem, s, d.laws[a.lawId], Frozen(a, accepted)));
         Ledger(db, all) && Whole(Final(db, all), all.mem)
  {
    hide *;
    PauseLeaves(p, cfg, db, mem, s, a);
    var e := PauseEnded(p, cfg, db, mem, s, a);
    var d := Final(db, e);
    var law, f := d.laws[a.lawId], Frozen(a, accepted);
    var next := OpenFrozen(p, d, e.mem, s, law, f);
    OpenFrozenViews(p, d, e.mem, s, law, f);
    LastOfViews(d, next, a.lawId);
    NotLostCases();
    PlacedAgain(p, cfg, db, mem, s, a, next);
  }

  /** The views laws are left with, and that they are proper. */
  lemma NotLostCases()
    ensures !Lost(View(Some(InWindow), false, true, false)) && !Lost(View(Some(Status.Discarded), false, false, false))
    ensures !Lost(View(Some(PendingQueue), true, false, false))
    ensures forall st, h, n :: ProperView(View(st, false, h, n))
    ensures forall h, n :: ProperView(View(Some(PendingQueue), true, h, n))
  {
  }

  lemma ResolvedOut(p: Platform, cfg: Config, db: Db, mem: Mem, s: Senses, a: Announced, textHash: Option<string>)
    requires Durable(p, db) && Proper(db) && InStep(p, db, mem) && Whole(db, mem) && mem.deliberation == Some(a)
    ensures var e := PauseEnded(p, cfg, db, mem, s, a);
      var all := Then(e, ThrownOut(Final(db, e), e.mem, a.lawId, textHash));
      Ledger(db, all) && Whole(Final(db, all), all.mem) && Durable(p, Final(db, all))
  {
    hide *;
    PauseLeaves(p, cfg, db, mem, s, a);
    var e := PauseEnded(p, cfg, db, mem, s, a);
    var d := Final(db, e);
    var next := ThrownOut(d, e.mem, a.lawId, textHash);
    ThrownOutSound(p, d, e.mem, a.lawId, textHash);
    ThrownOutViews(d, e.mem, a.lawId, textHash);
    LastOfViews(d, next, a.lawId);
    ViewsLength(next.steps, a.lawId);
    NotLostCases();
    FinalOfThen(db, e, next);
    PlacedAgain(p, cfg, db, mem, s, a, next);
  }

  lemma ViewsLength(steps: seq<Db>, id: string)
    ensures |Views(steps, id)| == |steps|
  {
  }

  lemma ResolvedBack(p: Platform, cfg: Config, db: Db, mem: Mem, s: Senses, a: Announced)
    requires Durable(p, db) && Proper(db) && InStep(p, db, mem) && Whole(db, mem) && mem.deliberation == Some(a)
    ensures var e := PauseEnded(p, cfg, db, mem, s, a);
      var all := Then(e, Requeued(Final(db, e), e.mem, a.lawId));
      Ledger(db, all) && Whole(Final(db, all), all.mem) && Durable(p, Final(db, all))
  {
    hide *;
    PauseLeaves(p, cfg, db, mem, s, a);
    var e := PauseEnded(p, cfg, db, mem, s, a);
    var d := Final(db, e);
    var next := Requeued(d, e.mem, a.lawId);
    RequeuedSound(p, d, e.mem, a.lawId);
    RequeuedViews(d, e.mem, a.lawId);
    ViewsLength(next.steps, a.lawId);
    LastOfViews(d, next, a.lawId);
    NotLostCases();
    FinalOfThen(db, e, next);
    PlacedAgain(p, cfg, db, mem, s, a, next);
  }

  lemma ResolveDeliberationLedger(p: Platform, cfg: Config, db: Db, mem: Mem, s: Senses, a: Announced)
    requires Assumptions(p, cfg) && Durable(p, db) && Proper(db) && InStep(p, db, mem) && Whole(db, mem)
    requires mem.deliberation == Some(a)
    ensures var e := ResolveDeliberation(p, cfg, db, mem, s, a); Ledger(db, e) && Whole(Final(db, e), e.mem)
  {
    hide *;
    AssumedConfig(p, cfg);
    PauseLeaves(p, cfg, db, mem, s, a);
    ResolveShape(p, cfg, db, mem, s, a);
    var (outcome, accepted, _) := Judged(cfg, db, a);
    var e := PauseEnded(p, cfg, db, mem, s, a);
    var d := Final(db, e);
    var hash := Some(d.laws[a.lawId].textHash);
    match outcome
    case Open => ResolvedOpen(p, cfg, db, mem, s, a, accepted);
    case Discard =>
      ResolvedOut(p, cfg, db, mem, s, a, hash);
      AndMaybeOpenLedger(p, cfg, db, Then(e, ThrownOut(d, e.mem, a.lawId, hash)), s);
    case Unanswered =>
      ResolvedOut(p, cfg, db, mem, s, a, None);
      AndMaybeOpenLedger(p, cfg, db, Then(e, ThrownOut(d, e.mem, a.lawId, None)), s);
    case Requeue =>
      ResolvedBack(p, cfg, db, mem, s, a);
      AndMaybeOpenLedger(p, cfg, db, Then(e, Requeued(d, e.mem, a.lawId)), s);
  }

  lemma CheckDeliberationLedger(p: Platform, cfg: Config, db: Db, mem: Mem, s: Senses)
    requires Assumptions(p, cfg) && Durable(p, db) && Proper(db) && InStep(p, db, mem) && Whole(db, mem)
    ensures var e := CheckDeliberation(p, cfg, db, mem, s); Ledger(db, e) && Whole(Final(db, e), e.mem)
  {
    hide Durable, ResolveDeliberation, InStep, Proper, Whole, Ledger, Deliberation.AllAnswered;
    LedgerIdle(db, mem);
    if mem.deliberation.Some? {
      ResolveDeliberationLedger(p, cfg, db, mem, s, mem.deliberation.value);
    }
  }

  // ---- proposals ----

  /** set_law_requested_by, enqueue_law, set_cooldown */
  lemma EnqueueTailViews(db: Db, id: string, author: string, until: int, reason: CooldownReason)
    requires id in db.laws
    ensures var d2 := SetLawRequestedBy(db, id, author);
      var d3 := EnqueueLaw(d2, id);
      var d4 := SetCooldown(d3, author, until, reason);
      var v := ViewOf(db, id);
      && KeepsOthers(db, d2, id) && KeepsOthers(d2, d3, id) && KeepsOthers(d3, d4, id)
      && ViewOf(d2, id) == v && ViewOf(d3, id) == v.(queued := true) && ViewOf(d4, id) == v.(queued := true)
  {
    hide KeepsOthers, KeepsAll, ViewOf;
    var d2 := SetLawRequestedBy(db, id, author);
    NeutralView(db, d2);
    KeepsWeaken(db, d2, id);
    var d3 := EnqueueLaw(d2, id);
    EnqueueView(d2, id);
    NeutralView(d3, SetCooldown(d3, author, until, reason));
    KeepsWeaken(d3, SetCooldown(d3, author, until, reason), id);
  }

  lemma SavedLawView(db: Db, d: Db, id: string)
    requires id in d.laws && d == db.(laws := db.laws[id := d.laws[id]]) && d.laws[id].status == PendingQueue
    ensures KeepsOthers(db, d, id) && ViewOf(d, id) == ViewOf(db, id).(status := Some(PendingQueue))
  {
  }

  lemma UnknownView(p: Platform, db: Db, id: string)
    requires Durable(p, db) && Proper(db) && id !in db.laws
    ensures ViewOf(db, id) == View(None, false, false, false)
  {
    UnheldUnknown(p, db, id);
    assert ProperView(ViewOf(db, id));
    hide Linked, SafeChain, LawsOk, WindowsOk, QueueOk, PointerOk, GetChain, Proper, Holds;
  }

  /** A stretch about one law that ends queued, next to an unchanged memory. */
  lemma QueuedAtEnd(p: Platform, db: Db, e: Exec, mem: Mem, id: string)
    requires Durable(p, db) && Proper(db) && InStep(p, db, mem) && Whole(db, mem) && mem.isLeader
    requires About(db, e.steps, id) && e.steps != [] && e.mem == mem
    requires var v := ViewOf(db, id);
      && !Lost(v) && !v.held && !v.announced
      && LastView(db, e, id).queued && !LastView(db, e, id).held && !LastView(db, e, id).announced
    requires forall v :: v in Views(e.steps, id) ==> ProperView(v)
    ensures Ledger(db, e) && Whole(Final(db, e), e.mem)
  {
    hide InStep, Proper, About, ViewOf, Durable, ProperView;
    ViewsLength(e.steps, id);
    LastOfViews(db, e, id);
    assert LastView(db, e, id) in Views(e.steps, id);
    QueuedIsFine(LastView(db, e, id));
    LedgerOf(db, e, id);
    FinalKeeps(db, e, id);
    WholeAfter(db, Final(db, e), mem, id);
  }

  lemma QueuedIsFine(v: View)
    requires v.queued && ProperView(v)
    ensures !Lost(v) && v.status.Some?
  {
  }

  lemma EnqueuePromulgacionLedger(p: Platform, cfg: Config, db: Db, mem: Mem, m: Proposal, category: string)
    requires Durable(p, db) && Proper(db) && InStep(p, db, mem) && Whole(db, mem) && mem.isLeader && m.lawId !in db.laws
    ensures var e := EnqueuePromulgacion(cfg, db, mem, m, category); Ledger(db, e) && Whole(Final(db, e), e.mem)
  {
    hide *;
    var id := m.lawId;
    var reason := if m.textHash in db.discarded then ReproposedIdentical else ProposedNew;
    var d1 := SaveLaw(db, id, m.author, m.textHash, m.createdAt, category, m.textCompressed, m.textOriginalLen);
    SaveLawShape(db, m, category);
    UnknownView(p, db, id);
    SavedLawView(db, d1, id);
    var d2 := SetLawRequestedBy(d1, id, m.author);
    var d3 := EnqueueLaw(d2, id);
    var d4 := SetCooldown(d3, m.author, CooldownUntil(cfg, d3, reason), reason);
    EnqueueTailViews(d1, id, m.author, CooldownUntil(cfg, d3, reason), reason);
    var e := EnqueuePromulgacion(cfg, db, mem, m, category);
    EnqueuePromulgacionShape(cfg, db, mem, m, category);
    AboutFour(db, d1, d2, d3, d4, id);
    LastOfViews(db, e, id);
    NotLostCases();
    UnknownIsNotLost();
    QueuedAtEnd(p, db, e, mem, id);
  }

  lemma UnknownIsNotLost()
    ensures !Lost(View(None, false, false, false))
  {
  }

  lemma SetActionNeutral(db: Db, id: string)
    requires id in db.laws
    ensures KeepsAll(db, SetLawAction(db, id, Derogacion)) && id in SetLawAction(db, id, Derogacion).laws
  {
    NeutralView(db, SetLawAction(db, id, Derogacion));
  }

  /** A promulgated law is neither held nor announced. */
  lemma PromulgatedView(p: Platform, db: Db, mem: Mem, id: string)
    requires Durable(p, db) && InStep(p, db, mem) && Whole(db, mem) && mem.isLeader
    requires id in db.laws && db.laws[id].status == Promulgated
    ensures ViewOf(db, id) == View(Some(Promulgated), id in db.queue, false, false) && !Lost(ViewOf(db, id))
    ensures ProperView(ViewOf(db, id)) && ProperView(ViewOf(db, id).(queued := true))
  {
    hide *;
    QueuedIsNotHeld(p, db, id);
    StatusOfView(db, id);
    if mem.deliberation.Some? {
      AnnouncedIsRemembered(p, db, mem);
    } else {
      NoneAnnounced(db, mem, id);
    }
    PromulgatedCases(ViewOf(db, id), id in db.queue);
  }

  lemma NoneAnnounced(db: Db, mem: Mem, id: string)
    requires Whole(db, mem) && mem.isLeader && mem.deliberation.None?
    ensures !ViewOf(db, id).announced
  {
    hide ViewOf;
  }

  lemma PromulgatedCases(v: View, queued: bool)
    requires v == View(Some(Promulgated), queued, false, false)
    ensures !Lost(v) && ProperView(v) && ProperView(v.(queued := true))
  {
  }

  lemma EnqueueDerogacionLedger(p: Platform, cfg: Config, db: Db, mem: Mem, m: Proposal)
    requires Durable(p, db) && Proper(db) && InStep(p, db, mem) && Whole(db, mem) && mem.isLeader
    ensures var e := EnqueueDerogacion(cfg, db, mem, m); Ledger(db, e) && Whole(Final(db, e), e.mem)
  {
    hide *;
    EnqueueDerogacionShape(cfg, db, mem, m);
    LedgerIdle(db, mem);
    IdleShape(mem);
    var id := m.lawId;
    if id in db.laws && db.laws[id].status == Promulgated {
      PromulgatedView(p, db, mem, id);
      var d1 := SetLawAction(db, id, Derogacion);
      SetActionNeutral(db, id);
      KeepsWeaken(db, d1, id);
      var d2 := SetLawRequestedBy(d1, id, m.author);
      var d3 := EnqueueLaw(d2, id);
      var d4 := SetCooldown(d3, m.author, CooldownUntil(cfg, d3, ProposedNew), ProposedNew);
      EnqueueTailViews(d1, id, m.author, CooldownUntil(cfg, d3, ProposedNew), ProposedNew);
      var e := EnqueueDerogacion(cfg, db, mem, m);
      AboutFour(db, d1, d2, d3, d4, id);
      LastOfViews(db, e, id);
      QueuedAtEnd(p, db, e, mem, id);
    }
  }

  lemma HandleProposalLedger(p: Platform, cfg: Config, db: Db, mem: Mem, s: Senses, m: Proposal)
    requires Assumptions(p, cfg) && Durable(p, db) && Proper(db) && InStep(p, db, mem) && Whole(db, mem)
    requires m.action == Promulgacion ==> m.lawId !in db.laws
    ensures var e := HandleProposal(p, cfg, db, mem, s, m); Ledger(db, e) && Whole(Final(db, e), e.mem)
  {
    hide Durable, InStep, Proper, Whole, Ledger, AndMaybeOpen, EnqueueDerogacion, EnqueuePromulgacion, ValidateCategory;
    LedgerIdle(db, mem);
    var category := ValidateCategory(m.category);
    if mem.isLeader && m.action == Derogacion {
      EnqueueDerogacionSound(p, cfg, db, mem, m);
      EnqueueDerogacionLedger(p, cfg, db, mem, m);
      AndMaybeOpenLedger(p, cfg, db, EnqueueDerogacion(cfg, db, mem, m), s);
    } else if mem.isLeader && category.Success? {
      EnqueuePromulgacionSound(p, cfg, db, mem, m, category.value);
      EnqueuePromulgacionLedger(p, cfg, db, mem, m, category.value);
      AndMaybeOpenLedger(p, cfg, db, EnqueuePromulgacion(cfg, db, mem, m, category.value), s);
    }
  }

  // ---- closing windows ----

  /** The law of the open window is decided by the writes that close it. */
  lemma CloseSealedLedger(p: Platform, db: Db, mem: Mem, wid: string, nonce: int, winner: string)
    requires Durable(p, db) && Proper(db) && db.active == Some(wid) && wid in db.windows && db.windows[wid].result.None?
    ensures var id := db.windows[wid].lawId;
      var e := CloseSealed(db, mem, wid, id, db.windows[wid].action, nonce, winner);
      && Ledger(db, e) && NobodyHeld(Final(db, e)) && KeepsOthers(db, Final(db, e), id)
      && LastView(db, e, id).announced == ViewOf(db, id).announced && !LastView(db, e, id).queued
  {
    hide *;
    var id := db.windows[wid].lawId;
    PointedLawKnown(p, db, wid);
    HeldView(p, db, wid);
    var e := CloseSealed(db, mem, wid, id, db.windows[wid].action, nonce, winner);
    CloseSealedViews(db, mem, wid, nonce, winner);
    CloseSealedShape(db, mem, wid, id, db.windows[wid].action, nonce, winner);
    LastOfViews(db, e, id);
    LastViewIs(db, e, id);
    DecidedCases(ViewOf(db, id), LastView(db, e, id), db.windows[wid].action);
    LedgerOf(db, e, id);
    FinalKeeps(db, e, id);
    NobodyElse(db, Final(db, e), id);
  }

  lemma HeldView(p: Platform, db: Db, wid: string)
    requires Durable(p, db) && db.active == Some(wid) && wid in db.windows && db.windows[wid].result.None?
    ensures var v := ViewOf(db, db.windows[wid].lawId); v.held && !v.queued && v.status == Some(InWindow)
    ensures forall other :: other != db.windows[wid].lawId ==> !ViewOf(db, other).held
  {
    hide Linked, SafeChain, LawsOk, QueueOk, DeliberationOk, WindowsOk, GetChain, LastIs, FromWid, Ready;
  }

  lemma DecidedCases(v: View, w: View, action: Action)
    requires v.held && !v.queued && v.status == Some(InWindow)
    requires w == v.(held := false, status := Some(if action == Derogacion then Repealed else Promulgated))
    ensures !Lost(v) && !Lost(w) && w.status.Some? && ProperView(w) && ProperView(v.(held := false))
  {
  }

  lemma NobodyElse(db: Db, d: Db, id: string)
    requires KeepsOthers(db, d, id) && !ViewOf(d, id).held && forall other :: other != id ==> !ViewOf(db, other).held
    ensures NobodyHeld(d)
  {
    hide ViewOf;
  }

  /** The boundary after the window of memory has been closed. */
  lemma ClosedWhole(p: Platform, db: Db, d: Db, mem: Mem, mem': Mem, id: string)
    requires InStep(p, db, mem) && Whole(db, mem) && mem.active.Some?
    requires KeepsOthers(db, d, id) && NobodyHeld(d) && ViewOf(d, id).announced == ViewOf(db, id).announced
    requires mem' == mem.(active := None)
    ensures Whole(d, mem')
  {
    hide ViewOf, ActiveInStep;
    forall other ensures !ViewOf(d, other).announced {
      assert other != id ==> ViewOf(d, other) == ViewOf(db, other);
    }
  }

  lemma SealLedger(p: Platform, db: Db, mem: Mem, s: Senses, a: Active, nonce: int, winner: string)
    requires CollisionFree(p) && Durable(p, db) && Proper(db) && mem.deliberation.None?
    requires db.active == Some(a.wid) && a.wid in db.windows && db.windows[a.wid].result.None? && !LastIs(Blocks(db), a.wid)
    requires Rebuilt(p, a.wid, db.windows[a.wid], GetLaw(db, db.windows[a.wid].lawId)) == Some(a)
    requires VerifyNonce(p, a.base, nonce, a.nZeros)
    ensures var e := Seal(p, db, mem, s, a, nonce, winner);
      && Ledger(db, e) && NobodyHeld(Final(db, e)) && KeepsOthers(db, Final(db, e), a.lawId)
      && LastView(db, e, a.lawId).announced == ViewOf(db, a.lawId).announced && !LastView(db, e, a.lawId).queued
      && e.mem == mem.(active := None)
  {
    hide *;
    SealSound(p, db, mem, s, a, nonce, winner);
    SealShape(p, db, mem, s, a, nonce, winner);
    RebuiltFrom(p, a.wid, db.windows[a.wid], GetLaw(db, db.windows[a.wid].lawId), a);
    var b := BlockOf(p, db, a, nonce, winner, s);
    var d := AppendBlock(db, b).0;
    AppendDurable(p, db, a, nonce, winner, s);
    AppendNeutral(db, b);
    OneNeutral(db, d, mem);
    var head := Exec([d], mem, []);
    LedgerNeutral(db, head);
    ProperAfter(db, head);
    var close := CloseSealed(d, mem, a.wid, a.lawId, a.action, nonce, winner);
    CloseSealedLedger(p, d, mem, a.wid, nonce, winner);
    CloseSealedShape(d, mem, a.wid, a.lawId, a.action, nonce, winner);
    LedgerThen(db, head, close);
    ThenShape(head, close);
    LastViewOfThen(db, head, close, a.lawId);
    FinalOfThen(db, head, close);
    KeepsWeaken(db, d, a.lawId);
    KeepsTransitive(db, d, Final(d, close), a.lawId);
  }

  /** The append on its own keeps the invariant. */
  lemma AppendDurable(p: Platform, db: Db, a: Active, nonce: int, winner: string, s: Senses)
    requires CollisionFree(p) && Durable(p, db)
    requires db.active == Some(a.wid) && a.wid in db.windows && db.windows[a.wid].result.None? && !LastIs(Blocks(db), a.wid)
    requires Rebuilt(p, a.wid, db.windows[a.wid], GetLaw(db, db.windows[a.wid].lawId)) == Some(a)
    requires VerifyNonce(p, a.base, nonce, a.nZeros)
    ensures Durable(p, AppendBlock(db, BlockOf(p, db, a, nonce, winner, s)).0)
  {
    hide *;
    BlockIsFromWindow(p, db, a, nonce, winner, s);
    RebuiltFrom(p, a.wid, db.windows[a.wid], GetLaw(db, db.windows[a.wid].lawId), a);
    PointedLawHeld(p, db, a.wid);
    AppendWrite(p, db, BlockOf(p, db, a, nonce, winner, s));
  }

  lemma GuardedSealLedger(p: Platform, db: Db, mem: Mem, s: Senses, m: Solution)
    requires CollisionFree(p) && Durable(p, db) && Proper(db) && InStep(p, db, mem) && Whole(db, mem) && mem.active.Some?
    requires VerifyNonce(p, mem.active.value.base, m.nonce, mem.active.value.nZeros)
    ensures var a := mem.active.value;
      var d := TrySealWindow(db, a.wid, WinnerName(m.winner)).0;
      var e := Then(Exec([d], mem, []), Seal(p, d, mem, s, a, m.nonce, m.winner));
      Ledger(db, e) && Whole(Final(db, e), e.mem) && Durable(p, Final(db, e))
  {
    hide *;
    var a := mem.active.value;
    ActiveMemory(p, db, mem);
    GuardTaken(p, db, a, WinnerName(m.winner));
    var d := TrySealWindow(db, a.wid, WinnerName(m.winner)).0;
    var head, next := Exec([d], mem, []), Seal(p, d, mem, s, a, m.nonce, m.winner);
    GuardNeutral(db, a.wid, WinnerName(m.winner));
    OneNeutral(db, d, mem);
    LedgerNeutral(db, head);
    ProperAfter(db, head);
    SealSound(p, d, mem, s, a, m.nonce, m.winner);
    SealLedger(p, d, mem, s, a, m.nonce, m.winner);
    SoundFinal(p, d, next);
    LedgerThen(db, head, next);
    FinalOfThen(db, head, next);
    ThenShape(head, next);
    KeepsWeaken(db, d, a.lawId);
    KeepsTransitive(db, d, Final(d, next), a.lawId);
    LastViewIs(d, next, a.lawId);
    ClosedWhole(p, db, Final(d, next), mem, next.mem, a.lawId);
  }

  lemma HandleNonceLedger(p: Platform, cfg: Config, db: Db, mem: Mem, s: Senses, m: Solution)
    requires Assumptions(p, cfg) && Durable(p, db) && Proper(db) && InStep(p, db, mem) && Whole(db, mem)
    ensures var e := HandleNonce(p, cfg, db, mem, s, m); Ledger(db, e) && Whole(Final(db, e), e.mem)
  {
    hide *;
    AssumedConfig(p, cfg);
    HandleNonceShape(p, cfg, db, mem, s, m);
    LedgerIdle(db, mem);
    IdleShape(mem);
    if mem.active.Some? && VerifyNonce(p, mem.active.value.base, m.nonce, mem.active.value.nZeros) {
      var a := mem.active.value;
      GuardedSealLedger(p, db, mem, s, m);
      var d := TrySealWindow(db, a.wid, WinnerName(m.winner)).0;
      AndMaybeOpenLedger(p, cfg, db, Then(Exec([d], mem, []), Seal(p, d, mem, s, a, m.nonce, m.winner)), s);
    }
  }

  lemma ExpiredLedger(p: Platform, db: Db, mem: Mem, a: Active)
    requires Durable(p, db) && Proper(db) && InStep(p, db, mem) && Whole(db, mem) && mem.active == Some(a)
    ensures var e := Expired(db, mem, a); Ledger(db, e) && Whole(Final(db, e), e.mem) && Durable(p, Final(db, e))
    ensures var e := ExpiredWithoutQuorum(db, mem, a); Ledger(db, e) && Whole(Final(db, e), e.mem) && Durable(p, Final(db, e))
  {
    hide *;
    ActiveMemory(p, db, mem);
    HeldIsActive(p, db, mem);
    ActivePointer(p, db, a);
    ExpiredSound(p, db, mem, a);
    SoundFinal(p, db, Expired(db, mem, a));
    SoundFinal(p, db, ExpiredWithoutQuorum(db, mem, a));
    ExpiredViews(db, mem, a);
    ExpiredWithoutQuorumViews(db, mem, a);
    ExpiredMem(db, mem, a);
    ReleasedLedger(p, db, Expired(db, mem, a), mem, a.lawId);
    ReleasedLedger(p, db, ExpiredWithoutQuorum(db, mem, a), mem, a.lawId);
  }

  lemma ActivePointer(p: Platform, db: Db, a: Active)
    requires ActiveInStep(p, db, a)
    ensures db.active == Some(a.wid) && a.wid in db.windows && db.windows[a.wid].lawId == a.lawId
  {
  }

  lemma ExpiredMem(db: Db, mem: Mem, a: Active)
    ensures Expired(db, mem, a).mem == mem.(active := None) && ExpiredWithoutQuorum(db, mem, a).mem == mem.(active := None)
    ensures Expired(db, mem, a).steps != [] && ExpiredWithoutQuorum(db, mem, a).steps != []
  {
  }

  /** A stretch that ends the window of memory and leaves its law discarded or queued. */
  lemma ReleasedLedger(p: Platform, db: Db, e: Exec, mem: Mem, id: string)
    requires Durable(p, db) && Proper(db) && InStep(p, db, mem) && Whole(db, mem)
    requires mem.active.Some? && mem.active.value.lawId == id && mem.deliberation.None? && mem.isLeader
    requires About(db, e.steps, id) && e.steps != [] && e.mem == mem.(active := None)
    requires var v := ViewOf(db, id).(held := false);
      || Views(e.steps, id) == [v, v.(status := Some(Status.Discarded)), v.(status := Some(Status.Discarded)), v.(status := Some(Status.Discarded))]
      || Views(e.steps, id) == [v, v.(status := Some(PendingQueue)), v.(status := Some(PendingQueue), queued := true), v.(status := Some(PendingQueue), queued := true)]
    ensures Ledger(db, e) && Whole(Final(db, e), e.mem)
  {
    hide *;
    HeldIsActive(p, db, mem);
    NoneAnnounced(db, mem, id);
    ViewsLength(e.steps, id);
    LastOfViews(db, e, id);
    LastViewIs(db, e, id);
    ReleasedCases(ViewOf(db, id));
    LedgerOf(db, e, id);
    FinalKeeps(db, e, id);
    NobodyElse(db, Final(db, e), id);
    ClosedWhole(p, db, Final(db, e), mem, e.mem, id);
  }

  lemma ReleasedCases(v: View)
    requires v == View(Some(InWindow), false, true, false)
    ensures var w := v.(held := false);
      var out, back := w.(status := Some(Status.Discarded)), w.(status := Some(PendingQueue));
      && ProperView(w) && ProperView(out) && ProperView(back) && ProperView(back.(queued := true))
      && !Lost(v) && !Lost(out) && !Lost(back.(queued := true))
  {
  }

  lemma CheckDeadlineLedger(p: Platform, cfg: Config, db: Db, mem: Mem, s: Senses)
    requires Assumptions(p, cfg) && Durable(p, db) && Proper(db) && InStep(p, db, mem) && Whole(db, mem)
    ensures var e := CheckDeadline(p, cfg, db, mem, s); Ledger(db, e) && Whole(Final(db, e), e.mem)
  {
    hide *;
    AssumedConfig(p, cfg);
    CheckDeadlineShape(p, cfg, db, mem, s);
    LedgerIdle(db, mem);
    IdleShape(mem);
    if mem.active.Some? {
      ExpiredLedger(p, db, mem, mem.active.value);
      AndMaybeOpenLedger(p, cfg, db, Expired(db, mem, mem.active.value), s);
      AndMaybeOpenLedger(p, cfg, db, ExpiredWithoutQuorum(db, mem, mem.active.value), s);
    }
  }

  // ---- taking over ----

  lemma ClearedLedger(db: Db, e: Exec, d: Db)
    requires Proper(db) && e.steps == [d] && d == ClearActiveWindow(db) && forall id :: !Holds(db, id)
    ensures Ledger(db, e) && NobodyHeld(Final(db, e))
  {
    PointerClearedView(db);
    hide ViewOf;
    OneNeutral(db, d, e.mem);
    LedgerNeutral(db, e);
    NobodyWithoutPointer(Final(db, e));
  }

  lemma NobodyWithoutPointer(db: Db)
    requires db.active.None?
    ensures NobodyHeld(db)
  {
  }

  lemma ResumeLedger(p: Platform, db: Db, mem: Mem)
    requires Durable(p, db) && Proper(db) && mem.isLeader && mem.deliberation.None?
    ensures var e := Resume(p, db, mem); Ledger(db, e) && (e.mem.active.None? ==> NobodyHeld(Final(db, e)))
  {
    hide *;
    ResumeShape(p, db, mem);
    var e := Resume(p, db, mem);
    LedgerIdle(db, mem.(active := None));
    if db.active.None? {
      NobodyWithoutPointer(db);
    } else {
      var wid := db.active.value;
      PointerKnown(p, db);
      LastBlockShows(p, db, wid);
      if db.windows[wid].result.Some? {
        ResolvedNotHeld(db, wid);
        ClearedLedger(db, e, ClearActiveWindow(db));
      } else if LastIs(Blocks(db), wid) {
        var last := GetBlock(db.blocks, LastBlockHash(db)).value;
        CloseSealedLedger(p, db, mem, wid, last.nonce, last.winningNodeOrPool);
      } else {
        RebuiltInStep(p, db, wid);
        GuardNeutral(db, wid, "");
        OneNeutral(db, ReleaseWindowSeal(db, wid), mem);
        NothingIsNeutral(db);
        LedgerNeutral(db, e);
      }
    }
  }

  lemma NothingIsNeutral(db: Db)
    ensures Neutral(db, [])
  {
  }

  lemma RecoverLedger(p: Platform, db: Db, mem: Mem)
    requires Durable(p, db) && Proper(db) && mem.deliberation.None?
    ensures var e := RecoverDeliberation(db, mem);
      && Ledger(db, e) && NothingAnnounced(Final(db, e)) && (NobodyHeld(db) ==> NobodyHeld(Final(db, e)))
      && e.mem == mem
  {
    hide *;
    var e := RecoverDeliberation(db, mem);
    SameMemory(mem);
    LedgerIdle(db, mem);
    if db.deliberation.None? {
      RecoverNothing(db, mem);
      IdleShape(mem);
      SilentStore(db);
    } else {
      var id := db.deliberation.value.lawId;
      DeliberatedReady(p, db);
      RecoverShape(db, mem);
      StatusOfView(db, id);
      RecoverViews(db, mem);
      ViewsLength(e.steps, id);
      LastOfViews(db, e, id);
      LastViewIs(db, e, id);
      ProperAt(db, id);
      RecoverCases(ViewOf(db, id));
      var views := Views(e.steps, id);
      assert views[|views| - 1].held == ViewOf(db, id).held && !views[|views| - 1].announced by {
        LastOfTwoOrFour(views, ViewOf(db, id).(announced := false), db.laws[id].status == InDeliberation);
      }
      LedgerOf(db, e, id);
      FinalKeeps(db, e, id);
      SilentAfter(db, Final(db, e), id);
    }
  }

  lemma LastOfTwoOrFour(views: seq<View>, v: View, more: bool)
    requires var back := v.(status := Some(PendingQueue)); views == [v, v] + (if more then [back, back.(queued := true)] else [])
    ensures views[|views| - 1] == if more then v.(status := Some(PendingQueue), queued := true) else v
  {
  }

  lemma SilentStore(db: Db)
    requires db.deliberation.None?
    ensures NothingAnnounced(db)
  {
  }

  lemma ProperAt(db: Db, id: string)
    requires Proper(db)
    ensures ProperView(ViewOf(db, id))
  {
  }

  /** What recovery does to the law of the announcement: the writes of coordinator.py:1219-1225. */
  lemma RecoverViews(db: Db, mem: Mem)
    requires db.deliberation.Some? && db.deliberation.value.lawId in db.laws
    ensures var id := db.deliberation.value.lawId;
      var e := RecoverDeliberation(db, mem);
      var v := ViewOf(db, id).(announced := false);
      var back := v.(status := Some(PendingQueue));
      && About(db, e.steps, id)
      && Views(e.steps, id) == [v, v] + (if db.laws[id].status == InDeliberation then [back, back.(queued := true)] else [])
  {
    hide *;
    var id := db.deliberation.value.lawId;
    RecoverShape(db, mem);
    var d1 := ClearDeliberation(db);
    var d2 := ClearDeliberationDecisions(d1, id);
    ForgottenView(db, id);
    AnswersNeutral(d1, id);
    KeepsWeaken(d1, d2, id);
    AboutTwo(db, d1, d2, id);
    var head := Exec([d1, d2], mem, []);
    FinalIsLast(db, head);
    var e := RecoverDeliberation(db, mem);
    if d2.laws[id].status != InDeliberation {
      assert e.steps == [d1, d2];
    } else {
      var back := Requeued(d2, mem, id);
      assert e.steps == [d1, d2] + back.steps;
      RequeuedViews(d2, mem, id);
      AboutThen(db, head, back, id);
      ThenShape(head, back);
    }
  }

  lemma AnswersNeutral(db: Db, id: string)
    ensures KeepsAll(db, ClearDeliberationDecisions(db, id))
  {
    NeutralView(db, ClearDeliberationDecisions(db, id));
  }

  lemma RecoverCases(v: View)
    requires v.announced && v.status.Some? && ProperView(v)
    ensures var w := v.(announced := false);
      var back := w.(status := Some(PendingQueue));
      && ProperView(w) && ProperView(back) && ProperView(back.(queued := true))
      && (v.status == Some(InDeliberation) ==> !Lost(v) && !Lost(back.(queued := true)))
      && (v.status != Some(InDeliberation) ==> (Lost(v) <==> StillLost(v, w)) && (Lost(v) <==> Lost(w)))
  {
  }

  lemma SilentAfter(db: Db, d: Db, id: string)
    requires db.deliberation.Some? && db.deliberation.value.lawId == id
    requires KeepsOthers(db, d, id) && !ViewOf(d, id).announced && ViewOf(d, id).held == ViewOf(db, id).held
    ensures NothingAnnounced(d) && (NobodyHeld(db) ==> NobodyHeld(d))
  {
    assert forall other :: other != id ==> ViewOf(d, other) == ViewOf(db, other);
    hide Holds;
  }

  /** The first two parts of become_leader leave nothing unaccounted for. */
  lemma TakenOver(p: Platform, cfg: Config, db: Db, mem: Mem)
    requires Durable(p, db) && Proper(db) && mem.isLeader && mem.deliberation.None?
    ensures var e1 := Resume(p, db, mem);
      var e2 := Then(e1, RecoverDeliberation(Final(db, e1), e1.mem));
      && Sound(p, db, e2) && Ledger(db, e2) && Whole(Final(db, e2), e2.mem) && e2.mem.isLeader && e2.mem.deliberation.None?
  {
    hide *;
    var e1 := Resume(p, db, mem);
    ResumeSound(p, db, mem);
    ResumeRecoverSound(p, db, mem);
    ResumeLedger(p, db, mem);
    SoundFinal(p, db, e1);
    ProperAfter(db, e1);
    var next := RecoverDeliberation(Final(db, e1), e1.mem);
    RecoverLedger(p, Final(db, e1), e1.mem);
    LedgerThen(db, e1, next);
    FinalOfThen(db, e1, next);
    ThenShape(e1, next);
    QuietWhole(Final(Final(db, e1), next), e1.mem);
  }

  lemma QuietWhole(db: Db, mem: Mem)
    requires NothingAnnounced(db) && (mem.active.None? ==> NobodyHeld(db))
    ensures Whole(db, mem)
  {
    hide ViewOf;
  }

  lemma BecomeLeaderLedger(p: Platform, cfg: Config, db: Db, mem: Mem, s: Senses)
    requires Assumptions(p, cfg) && Durable(p, db) && Proper(db) && InStep(p, db, mem) && Whole(db, mem)
    ensures var e := BecomeLeader(p, cfg, db, mem, s); Ledger(db, e) && Whole(Final(db, e), e.mem)
  {
    hide *;
    AssumedConfig(p, cfg);
    LedgerIdle(db, mem);
    if mem.isLeader {
      AlreadyLeading(p, cfg, db, mem, s);
    } else {
      var leading := mem.(isLeader := true, lastAuthor := db.lastAuthor);
      FollowerIsBlank(p, db, mem);
      var e1 := Resume(p, db, leading);
      var e2 := Then(e1, RecoverDeliberation(Final(db, e1), e1.mem));
      TakenOver(p, cfg, db, leading);
      SoundFinal(p, db, e2);
      ProperAfter(db, e2);
      var next := CheckDeadline(p, cfg, Final(db, e2), e2.mem, s);
      CheckDeadlineSound(p, cfg, Final(db, e2), e2.mem, s);
      CheckDeadlineLedger(p, cfg, Final(db, e2), e2.mem, s);
      SoundFinal(p, Final(db, e2), next);
      LedgerThen(db, e2, next);
      FinalOfThen(db, e2, next);
      ThenShape(e2, next);
      AndMaybeOpenLedger(p, cfg, db, Then(e2, next), s);
      BecomeLeaderShape(p, cfg, db, mem, s);
    }
  }

  lemma AlreadyLeading(p: Platform, cfg: Config, db: Db, mem: Mem, s: Senses)
    requires ValidConfig(cfg) && mem.isLeader
    ensures BecomeLeader(p, cfg, db, mem, s) == Idle(mem) && Idle(mem).mem == mem
  {
  }

}
