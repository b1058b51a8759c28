/**
 The restart that does not resume: main.py builds a primary that gets its lease back as a leader, and never calls
 become_leader. When that is harmless, what it loses, and when the loss is for good.
 */
module NctRestart {
  import opened Wrappers
  import opened Platform
  import opened Text
  import opened Challenge
  import opened Laws
  import opened Chain
  import opened Store
  import opened Nct
  import opened NctInvariant
  import opened NctHandlers
  import opened NctRuns
  import opened NctSafety
  import opened NctRecords
  import opened NctConservation
  import opened NctLedger
  import opened NctPlaces
  import opened NctFailover
  import opened NctVeil
  import opened NctSettled
  import opened NctFates
  import Deliberation

  /** Such a process is deaf to every nonce and deadline, and promoting it changes nothing, whatever the store holds. */
  lemma RestartedPrimaryIsDeaf(p: Platform, cfg: Config, db: Db, mem: Mem, s: Senses, m: Solution)
    requires ValidConfig(cfg) && Blank(mem) && mem.isLeader
    ensures HandleNonce(p, cfg, db, mem, s, m) == Idle(mem)
    ensures BecomeLeader(p, cfg, db, mem, s) == Idle(mem)
    ensures CheckDeadline(p, cfg, db, mem, s) == Idle(mem)
    ensures CheckDeliberation(p, cfg, db, mem, s) == Idle(mem)
  {
  }

  /** The store anchors the law in something only a resuming leader would read. */
  predicate Unread(v: View) {
    v.held || (v.announced && v.status == Some(InDeliberation) && !v.queued)
  }

  /** Where such a process has each law: nowhere if it is lost, in the open window or announced, and in one place
      otherwise. */
  lemma RestartedPlaces(p: Platform, db: Db, mem: Mem, id: string)
    requires Durable(p, db) && Proper(db) && Blank(mem) && mem.isLeader && id in db.laws
    ensures var v := ViewOf(db, id);
      && Places(db, mem, id) == (if Lost(v) || Unread(v) then 0 else PlacesOfOne(db, id))
      && !(Lost(v) && Unread(v))
  {
    PlacesOfView(p, db, id);
    StatusOfView(db, id);
    hide Durable, Proper, ViewOf, Copies;
  }

  /** It forgets no anchored law exactly if no window is open and no law is only announced. */
  lemma RestartForgetsNothingIff(p: Platform, db: Db, mem: Mem)
    requires Durable(p, db) && Proper(db) && Blank(mem) && mem.isLeader
    ensures (forall id :: id in db.laws && Anchored(ViewOf(db, id)) ==> Places(db, mem, id) > 0)
      <==> (forall id :: id in db.laws ==> !Unread(ViewOf(db, id)))
  {
    hide *;
    forall id | id in db.laws ensures Anchored(ViewOf(db, id)) && Places(db, mem, id) == 0 <==> Unread(ViewOf(db, id)) {
      RestartedPlaces(p, db, mem, id);
      StatusOfView(db, id);
      AnchoredOrLost(ViewOf(db, id));
      OnePlaceAtLeast(db, id);
    }
  }

  lemma AnchoredOrLost(v: View)
    ensures v.status.Some? ==> (Lost(v) <==> !Anchored(v))
    ensures Unread(v) ==> Anchored(v)
  {
  }

  lemma OnePlaceAtLeast(db: Db, id: string)
    ensures PlacesOfOne(db, id) > 0
  {
  }

  // ---- what the deaf leader overwrites ----

  lemma BlankIsSane(p: Platform, db: Db, mem: Mem)
    requires Durable(p, db) && Proper(db) && Blank(mem)
    ensures Sane(p, db, mem) && mem.active.None? && mem.deliberation.None?
  {
    BlankInStep(p, db, mem);
    hide Durable, InStep, Proper;
  }

  /** What only a resuming leader would read is unknown to one that never resumed. */
  lemma UnreadIsUnknown(db: Db, mem: Mem, id: string)
    requires Blank(mem) && mem.isLeader && id in db.laws && Unread(ViewOf(db, id))
    ensures ViewOf(db, id).held ==> HeldUnknown(db, mem, id)
    ensures !ViewOf(db, id).held ==> AnnouncedUnknown(db, mem, id)
  {
    StatusOfView(db, id);
    hide ViewOf, Holds;
  }

  lemma OpeningHolds(p: Platform, cfg: Config, db: Db, mem: Mem, s: Senses, law: Law)
    requires ValidConfig(cfg) && mem.deliberation.None?
    ensures OpenDirect(p, cfg, db, mem, s, law).mem.active.Some? && OpenDirect(p, cfg, db, mem, s, law).mem.deliberation.None?
  {
    hide *;
    OpenDirectShape(p, cfg, db, mem, s, law);
    var d := NextWindowNumber(db);
    var e1 := Then(Exec([d], mem, []), Measured(cfg, d, mem, s));
    ThenMem(Exec([d], mem, []), Measured(cfg, d, mem, s));
    MeasuredMem(cfg, d, mem, s);
    var o := OpeningDirect(cfg, d.counter, law, e1.mem, s);
    var open := Installed(p, Final(db, e1), e1.mem, law, o, s);
    InstalledIs(p, Final(db, e1), e1.mem, law, o, s);
    ThenMem(e1, open);
    var e2 := Then(e1, open);
    TurnIs(Final(db, e2), e2.mem, law);
    ThenMem(e2, TurnTaken(Final(db, e2), e2.mem, law));
  }

  lemma MeasuredMem(cfg: Config, db: Db, mem: Mem, s: Senses)
    requires ValidConfig(cfg)
    ensures Measured(cfg, db, mem, s).mem.deliberation == mem.deliberation
  {
    hide RatchetAfter, Difficulty.NonceSpaceFor, Deliberation.EffectiveHashrate;
  }

  /** When a deaf leader looks for the next law, a law it does not know about is lost exactly if there is a next law and what
      follows writes over it: an opening over the window, or, with a pause before each window, an announcement over the
      announcement. With a pause the law of the window outlives the announcement. */
  lemma DeafLeaderLosesIff(p: Platform, cfg: Config, db: Db, mem: Mem, s: Senses, id: string)
    requires Assumptions(p, cfg) && Durable(p, db) && Proper(db) && Blank(mem) && mem.isLeader
    requires id in db.laws && Unread(ViewOf(db, id))
    ensures Anchored(ViewOf(db, id))
    ensures Lost(ViewOf(Final(db, MaybeOpen(p, cfg, db, mem, s)), id))
      <==> NextLaw(cfg, db, mem, s).Some? && (ViewOf(db, id).held <==> cfg.deliberationMicros <= 0)
  {
    hide *;
    AssumedConfig(p, cfg);
    AnchoredOrLost(ViewOf(db, id));
    BlankIsSane(p, db, mem);
    UnreadIsUnknown(db, mem, id);
    HandledIs(p, cfg, db, mem, s, OpenTick);
    FreshTick(db);
    if ViewOf(db, id).held {
      HeldLostByHandler(p, cfg, db, mem, s, OpenTick, id);
    } else {
      AnnouncedLostByHandler(p, cfg, db, mem, s, OpenTick, id);
    }
    MaybeIs(p, cfg, db, mem, s);
    IdleIs(mem);
    if NextLaw(cfg, db, mem, s).Some? {
      OpeningHolds(p, cfg, db, mem, s, NextLaw(cfg, db, mem, s).value);
      StartDeliberationLeads(p, cfg, db, mem, s, NextLaw(cfg, db, mem, s).value);
    }
  }

  lemma FreshTick(db: Db)
    ensures FreshLaw(db, OpenTick)
  {
  }

  /** And for good: no run from there finds the law again. */
  lemma LostByRestart(p: Platform, cfg: Config, db: Db, mem: Mem, s: Senses, systems: seq<System>, run: seq<Step>, j: nat,
        id: string)
    requires Assumptions(p, cfg) && Durable(p, db) && Proper(db) && Blank(mem) && mem.isLeader
    requires id in db.laws && Unread(ViewOf(db, id)) && NextLaw(cfg, db, mem, s).Some?
    requires ViewOf(db, id).held <==> cfg.deliberationMicros <= 0
    requires Execution(p, cfg, systems, run) && j < |systems|
    requires var e := MaybeOpen(p, cfg, db, mem, s); systems[0] == System(Final(db, e), e.mem)
    ensures Lost(ViewOf(systems[j].db, id))
  {
    hide *;
    AssumedConfig(p, cfg);
    BlankIsSane(p, db, mem);
    DeafLeaderLosesIff(p, cfg, db, mem, s, id);
    HandledIs(p, cfg, db, mem, s, OpenTick);
    FreshTick(db);
    HandledSane(p, cfg, db, mem, s, OpenTick);
    LostForever(p, cfg, systems, run, 0, j, id);
  }
}
