/**
 What a handler leaves as it was: the window records of a leader without window, and the laws in deliberation of a leader
 without one.
 */
module NctSettled {
  import opened Wrappers
  import opened Platform
  import opened Text
  import opened Challenge
  import opened Categories
  import opened Laws
  import opened Chain
  import opened Store
  import opened Nct
  import opened NctInvariant
  import opened NctHandlers
  import opened NctRuns
  import opened NctSafety
  import opened NctRecords
  import opened NctConservation
  import opened NctFailover
  import opened NctVeil
  import Deliberation

  /** In deliberation and out of the queue. */
  predicate Undecided(db: Db, id: string) {
    id in db.laws && db.laws[id].status == InDeliberation && id !in db.queue
  }

  /** No record of a numbered window changed. */
  predicate RecordsKept(db: Db, d: Db) {
    forall wid :: wid in db.windows && WindowNumber(wid) <= db.counter ==> wid in d.windows && d.windows[wid] == db.windows[wid]
  }

  /** The pointer is the one there was, or on an open window numbered since. */
  predicate PointerKept(db: Db, d: Db) {
    || d.active == db.active
    || (d.active.Some? && Unresulted(d, d.active.value) && WindowNumber(d.active.value) > db.counter)
  }

  predicate Unresulted(d: Db, wid: string) {
    wid in d.windows && d.windows[wid].result.None?
  }

  /** No announcement was dropped, and without one no law entered deliberation. */
  ghost predicate PausesKept(db: Db, d: Db) {
    && (db.deliberation.Some? ==> d.deliberation.Some?)
    && (d.deliberation.None? ==> forall id :: Undecided(d, id) ==> Undecided(db, id))
  }

  ghost predicate Settled(w: bool, a: bool, db: Db, d: Db) {
    db.counter <= d.counter && (w ==> RecordsKept(db, d) && PointerKept(db, d)) && (a ==> PausesKept(db, d))
  }

  ghost predicate AllSettled(w: bool, a: bool, db: Db, steps: seq<Db>) {
    forall i :: 0 <= i < |steps| ==> Settled(w, a, db, steps[i])
  }

  lemma SettledSelf(w: bool, a: bool, db: Db)
    ensures Settled(w, a, db, db)
  {
    hide WindowNumber;
  }

  lemma LastSettled(w: bool, a: bool, db: Db, d: Db, e: Exec)
    requires Settled(w, a, db, d) && AllSettled(w, a, db, e.steps)
    ensures Settled(w, a, db, Final(d, e))
  {
    hide Settled;
  }

  lemma ThenSettled(w: bool, a: bool, db: Db, e: Exec, next: Exec)
    requires AllSettled(w, a, db, e.steps) && AllSettled(w, a, db, next.steps)
    ensures AllSettled(w, a, db, Then(e, next).steps)
  {
    hide Settled;
  }

  lemma OneSettled(w: bool, a: bool, db: Db, d: Db, mem: Mem)
    requires Settled(w, a, db, d)
    ensures AllSettled(w, a, db, Exec([d], mem, []).steps) && AllSettled(w, a, db, [])
  {
    hide Settled;
  }

  lemma Settle2(w: bool, a: bool, db: Db, d1: Db, d2: Db)
    requires Settled(w, a, db, d1) && Settled(w, a, db, d2)
    ensures AllSettled(w, a, db, [d1, d2])
  {
    hide Settled;
  }

  lemma Settle3(w: bool, a: bool, db: Db, d1: Db, d2: Db, d3: Db)
    requires Settled(w, a, db, d1) && Settled(w, a, db, d2) && Settled(w, a, db, d3)
    ensures AllSettled(w, a, db, [d1, d2, d3])
  {
    hide Settled;
  }

  lemma Settle4(w: bool, a: bool, db: Db, d1: Db, d2: Db, d3: Db, d4: Db)
    requires Settled(w, a, db, d1) && Settled(w, a, db, d2) && Settled(w, a, db, d3) && Settled(w, a, db, d4)
    ensures AllSettled(w, a, db, [d1, d2, d3, d4])
  {
    hide Settled;
  }

  // ---- single writes ----

  /** Writes to anything but windows, laws, queue and announcement. */
  lemma ElsewhereSettled(w: bool, a: bool, db: Db, d: Db, d2: Db)
    requires Settled(w, a, db, d) && d.counter <= d2.counter && (w ==> d2.active == d.active)
    requires d2.windows == d.windows && d2.deliberation == d.deliberation && d2.laws == d.laws && d2.queue == d.queue
    ensures Settled(w, a, db, d2)
  {
    hide WindowNumber;
    assert forall id :: Undecided(d2, id) <==> Undecided(d, id);
  }

  /** Writes to laws and queue that bring no law into deliberation and take none of those off the queue. */
  lemma LawsSettled(w: bool, a: bool, db: Db, d: Db, d2: Db)
    requires Settled(w, a, db, d) && d.counter == d2.counter && d2.windows == d.windows && d2.deliberation == d.deliberation
    requires d2.active == d.active
    requires d.deliberation.None? ==> forall id :: Undecided(d2, id) ==> Undecided(d, id)
    ensures Settled(w, a, db, d2)
  {
    hide WindowNumber, Undecided;
  }

  lemma StatusSettled(w: bool, a: bool, db: Db, d: Db, id: string, status: Status)
    requires Settled(w, a, db, d) && (status != InDeliberation || d.deliberation.Some?)
    ensures var d2 := SetLawStatus(d, id, status); Settled(w, a, db, d2) && d2.deliberation == d.deliberation
    ensures var d2 := SetLawStatus(d, id, status);
      status != InDeliberation ==> !(id in d2.laws && d2.laws[id].status == InDeliberation)
  {
    LawsSettled(w, a, db, d, SetLawStatus(d, id, status));
    hide Settled;
  }

  lemma EnqueueSettled(w: bool, a: bool, db: Db, d: Db, id: string)
    requires Settled(w, a, db, d)
    ensures Settled(w, a, db, EnqueueLaw(d, id))
  {
    LawsSettled(w, a, db, d, EnqueueLaw(d, id));
    hide Settled;
  }

  lemma RemoveSettled(w: bool, a: bool, db: Db, d: Db, id: string)
    requires Settled(w, a, db, d) && (d.deliberation.Some? || !(id in d.laws && d.laws[id].status == InDeliberation))
    ensures Settled(w, a, db, RemoveFromQueue(d, id))
  {
    LawsSettled(w, a, db, d, RemoveFromQueue(d, id));
    hide Settled;
  }

  lemma WindowSettled(w: bool, a: bool, db: Db, d: Db, wid: string, v: Window)
    requires Settled(w, a, db, d) && WindowNumber(wid) > db.counter && v.result.None?
    ensures Settled(w, a, db, SaveWindow(d, wid, v))
  {
    hide WindowNumber;
    assert forall id :: Undecided(SaveWindow(d, wid, v), id) <==> Undecided(d, id);
  }

  lemma ResultSettled(a: bool, db: Db, d: Db, wid: string, result: WindowResult, nonce: Option<int>, winner: Option<string>)
    requires Settled(false, a, db, d)
    ensures Settled(false, a, db, SetWindowResult(d, wid, result, nonce, winner))
  {
    assert forall id :: Undecided(SetWindowResult(d, wid, result, nonce, winner), id) <==> Undecided(d, id);
  }

  lemma AnnouncementSettled(w: bool, a: bool, db: Db, d: Db, x: Announced)
    requires Settled(w, a, db, d)
    ensures Settled(w, a, db, SaveDeliberation(d, x)) && SaveDeliberation(d, x).deliberation.Some?
  {
    hide WindowNumber;
  }

  // ---- stretches ----

  lemma InstalledSettled(p: Platform, w: bool, a: bool, db: Db, d: Db, mem: Mem, law: Law, o: Opening, s: Senses)
    requires Settled(w, a, db, d) && WindowNumber(o.wid) > db.counter
    ensures AllSettled(w, a, db, Installed(p, d, mem, law, o, s).steps)
  {
    hide *;
    InstalledIs(p, d, mem, law, o, s);
    RecordedNow(p, d, law, o, s);
    WindowSettled(w, a, db, d, o.wid, WindowOf(p, law, o, s));
    var d1 := SaveWindow(d, o.wid, WindowOf(p, law, o, s));
    StatusSettled(w, a, db, d1, law.lawId, InWindow);
    var d2 := SetLawStatus(d1, law.lawId, InWindow);
    RemoveSettled(w, a, db, d2, law.lawId);
    var d3 := RemoveFromQueue(d2, law.lawId);
    PointerSettled(w, a, db, d3, o.wid);
    Settle4(w, a, db, d1, d2, d3, SetActiveWindow(d3, o.wid));
  }

  lemma RecordedNow(p: Platform, d: Db, law: Law, o: Opening, s: Senses)
    ensures WindowOf(p, law, o, s).result.None?
    ensures Unresulted(RemoveFromQueue(SetLawStatus(SaveWindow(d, o.wid, WindowOf(p, law, o, s)), law.lawId, InWindow),
        law.lawId), o.wid)
  {
    hide Remove;
  }

  lemma PointerSettled(w: bool, a: bool, db: Db, d: Db, wid: string)
    requires Settled(w, a, db, d) && Unresulted(d, wid) && WindowNumber(wid) > db.counter
    ensures Settled(w, a, db, SetActiveWindow(d, wid))
  {
    hide WindowNumber;
    assert forall id :: Undecided(SetActiveWindow(d, wid), id) <==> Undecided(d, id);
  }

  lemma PointerElsewhere(d: Db, wid: string)
    ensures SetActiveWindow(d, wid) == d.(active := Some(wid)) && ClearActiveWindow(d) == d.(active := None)
  {
  }

  lemma TurnSettled(w: bool, a: bool, db: Db, d: Db, mem: Mem, law: Law)
    requires Settled(w, a, db, d)
    ensures AllSettled(w, a, db, TurnTaken(d, mem, law).steps)
  {
    hide *;
    TurnIs(d, mem, law);
    var d1 := SetLastAuthor(d, TurnHolder(law));
    AuthorElsewhere(d, TurnHolder(law));
    AuthorElsewhere(d1, TurnHolder(law));
    ElsewhereSettled(w, a, db, d, d1);
    ElsewhereSettled(w, a, db, d1, PushWindowAuthor(d1, TurnHolder(law)));
    Settle2(w, a, db, d1, PushWindowAuthor(d1, TurnHolder(law)));
  }

  lemma AuthorElsewhere(d: Db, author: string)
    ensures var d1, d2 := SetLastAuthor(d, author), PushWindowAuthor(d, author);
      d1 == d.(lastAuthor := d1.lastAuthor) && d2 == d.(turns := d2.turns)
  {
    hide Turns.Push;
  }

  lemma MeasuredSettled(cfg: Config, w: bool, a: bool, db: Db, d: Db, mem: Mem, s: Senses)
    requires ValidConfig(cfg) && Settled(w, a, db, d)
    ensures AllSettled(w, a, db, Measured(cfg, d, mem, s).steps) && Final(d, Measured(cfg, d, mem, s)).counter == d.counter
  {
    MeasuredElsewhere(cfg, d, mem, s);
    hide *;
    OneSettled(w, a, db, d, mem);
    var e := Measured(cfg, d, mem, s);
    if e.steps != [] {
      ElsewhereSettled(w, a, db, d, e.steps[0]);
      StretchOf(w, a, db, e.steps[0], mem, []);
    }
  }

  lemma MeasuredElsewhere(cfg: Config, d: Db, mem: Mem, s: Senses)
    requires ValidConfig(cfg)
    ensures var e := Measured(cfg, d, mem, s);
      && Final(d, e).counter == d.counter
      && (e.steps == [] || (e.steps == Exec([e.steps[0]], mem, []).steps && e.steps[0] == d.(difficulty := e.steps[0].difficulty)))
  {
    hide RatchetAfter, Difficulty.NonceSpaceFor, Deliberation.EffectiveHashrate;
  }

  lemma NumberSettled(w: bool, a: bool, db: Db, d: Db)
    requires Settled(w, a, db, d)
    ensures Settled(w, a, db, NextWindowNumber(d)) && NextWindowNumber(d).counter > db.counter
  {
    ElsewhereSettled(w, a, db, d, NextWindowNumber(d));
    hide RecordsKept, PausesKept;
  }

  lemma OpenDirectSettled(p: Platform, cfg: Config, w: bool, a: bool, db: Db, d: Db, mem: Mem, s: Senses, law: Law)
    requires ValidConfig(cfg) && Settled(w, a, db, d)
    ensures AllSettled(w, a, db, OpenDirect(p, cfg, d, mem, s, law).steps)
  {
    hide *;
    OpenDirectShape(p, cfg, d, mem, s, law);
    var d0 := NextWindowNumber(d);
    var num := Exec([d0], mem, []);
    NumberSettled(w, a, db, d);
    OneSettled(w, a, db, d0, mem);
    var m := Measured(cfg, d0, mem, s);
    MeasuredSettled(cfg, w, a, db, d0, mem, s);
    ThenSettled(w, a, db, num, m);
    var e1 := Then(num, m);
    LastSettled(w, a, db, d, e1);
    var o := OpeningDirect(cfg, d0.counter, law, e1.mem, s);
    WindowNumberOfId(d0.counter, law.lawId);
    var i := Installed(p, Final(d, e1), e1.mem, law, o, s);
    InstalledSettled(p, w, a, db, Final(d, e1), e1.mem, law, o, s);
    ThenSettled(w, a, db, e1, i);
    var e2 := Then(e1, i);
    LastSettled(w, a, db, d, e2);
    TurnSettled(w, a, db, Final(d, e2), e2.mem, law);
    ThenSettled(w, a, db, e2, TurnTaken(Final(d, e2), e2.mem, law));
  }

  lemma OpenFrozenSettled(p: Platform, w: bool, a: bool, db: Db, d: Db, mem: Mem, s: Senses, law: Law, z: Frozen)
    requires Settled(w, a, db, d)
    ensures AllSettled(w, a, db, OpenFrozen(p, d, mem, s, law, z).steps)
  {
    hide *;
    OpenFrozenShape(p, d, mem, s, law, z);
    var d0 := NextWindowNumber(d);
    NumberSettled(w, a, db, d);
    OneSettled(w, a, db, d0, mem);
    var o := OpeningFrozen(d0.counter, law, mem, s, z);
    WindowNumberOfId(d0.counter, law.lawId + "-" + s.salt);
    InstalledSettled(p, w, a, db, d0, mem, law, o, s);
    ThenSettled(w, a, db, Exec([d0], mem, []), Installed(p, d0, mem, law, o, s));
  }

  lemma MeasuredForSettled(cfg: Config, w: bool, a: bool, db: Db, d: Db, mem: Mem, law: Law, voters: seq<Deliberation.Convocado>)
    requires Settled(w, a, db, d)
    ensures AllSettled(w, a, db, MeasuredFor(cfg, d, mem, law, voters).0.steps)
  {
    if cfg.dynamic {
      ElsewhereSettled(w, a, db, d, MeasuredFor(cfg, d, mem, law, voters).0.steps[0]);
    }
    hide Settled, RatchetAfter, Deliberation.Biggest, NormalizeCategory;
  }

  lemma {:induction false} VetoSettled(w: bool, a: bool, db: Db, d: Db, id: string, voters: seq<Deliberation.Convocado>)
    requires Settled(w, a, db, d)
    ensures AllSettled(w, a, db, VetoSteps(d, id, voters))
    decreases |voters|
  {
    if voters != [] {
      if voters[0].prevetoed {
        var d1 := SetDeliberationDecision(d, id, voters[0].voterId, Deliberation.REJECT);
        ElsewhereSettled(w, a, db, d, d1);
        VetoSettled(w, a, db, d1, id, voters[1..]);
        hide Settled, SetDeliberationDecision;
        assert VetoSteps(d, id, voters) == [d1] + VetoSteps(d1, id, voters[1..]);
      } else {
        VetoSettled(w, a, db, d, id, voters[1..]);
      }
    }
    hide Settled, SetDeliberationDecision;
  }

  lemma AnnounceSettled(w: bool, a: bool, db: Db, d: Db, mem: Mem, x: Announced)
    requires Settled(w, a, db, d)
    ensures AllSettled(w, a, db, Announce(d, mem, x).steps)
  {
    AnnounceIs(d, mem, x);
    hide *;
    AnnouncementSettled(w, a, db, d, x);
    var d1 := SaveDeliberation(d, x);
    StatusSettled(w, a, db, d1, x.lawId, InDeliberation);
    var d2 := SetLawStatus(d1, x.lawId, InDeliberation);
    RemoveSettled(w, a, db, d2, x.lawId);
    Settle3(w, a, db, d1, d2, RemoveFromQueue(d2, x.lawId));
  }

  lemma AnswersElsewhere(d: Db, id: string, r: DeliberationResult)
    ensures var d1, d2 := ClearDeliberationDecisions(d, id), SaveDeliberationResult(d, id, r);
      d1 == d.(decisions := d1.decisions) && d2 == d.(results := d2.results)
  {
  }

  lemma StartDeliberationSettled(p: Platform, cfg: Config, w: bool, a: bool, db: Db, d: Db, mem: Mem, s: Senses, law: Law)
    requires ValidConfig(cfg) && Settled(w, a, db, d)
    ensures AllSettled(w, a, db, StartDeliberation(p, cfg, d, mem, s, law).steps)
  {
    var r := DeliberationResult(Deliberation.Open, [], [], [], [], "");
    hide *;
    var voters := VotersFor(cfg, s, law);
    MeasuredForSettled(cfg, w, a, db, d, mem, law, voters);
    var e1 := MeasuredFor(cfg, d, mem, law, voters).0;
    var x := AnnouncementOf(p, cfg, mem, s, law, voters, MeasuredFor(cfg, d, mem, law, voters).1);
    LastSettled(w, a, db, d, e1);
    var d1 := ClearDeliberationDecisions(Final(d, e1), law.lawId);
    AnswersElsewhere(Final(d, e1), law.lawId, r);
    ElsewhereSettled(w, a, db, Final(d, e1), d1);
    OneSettled(w, a, db, d1, mem);
    VetoSettled(w, a, db, d1, law.lawId, voters);
    var veto := Exec([d1] + VetoSteps(d1, law.lawId, voters), mem, []);
    StretchSettled(w, a, db, d1, VetoSteps(d1, law.lawId, voters));
    ThenSettled(w, a, db, e1, veto);
    var e2 := Then(e1, veto);
    LastSettled(w, a, db, d, e2);
    AnnounceSettled(w, a, db, Final(d, e2), mem, x);
    ThenSettled(w, a, db, e2, Announce(Final(d, e2), mem, x));
    var e3 := Then(e2, Announce(Final(d, e2), mem, x));
    LastSettled(w, a, db, d, e3);
    TurnSettled(w, a, db, Final(d, e3), mem, law);
    ThenSettled(w, a, db, e3, TurnTaken(Final(d, e3), mem, law));
    StartIs(p, cfg, d, mem, s, law);
  }

  lemma StretchSettled(w: bool, a: bool, db: Db, d: Db, steps: seq<Db>)
    requires Settled(w, a, db, d) && AllSettled(w, a, db, steps)
    ensures AllSettled(w, a, db, [d] + steps)
  {
    hide Settled;
  }

  lemma MaybeOpenSettled(p: Platform, cfg: Config, w: bool, a: bool, db: Db, d: Db, mem: Mem, s: Senses)
    requires ValidConfig(cfg) && Settled(w, a, db, d)
    ensures AllSettled(w, a, db, MaybeOpen(p, cfg, d, mem, s).steps)
  {
    hide *;
    OneSettled(w, a, db, d, mem);
    IdleIs(mem);
    MaybeIs(p, cfg, d, mem, s);
    var next := NextLaw(cfg, d, mem, s);
    if next.Some? {
      StartDeliberationSettled(p, cfg, w, a, db, d, mem, s, next.value);
      OpenDirectSettled(p, cfg, w, a, db, d, mem, s, next.value);
    }
  }

  lemma IdleIs(mem: Mem)
    ensures Idle(mem).steps == [] && Idle(mem).mem == mem
  {
  }

  lemma AndMaybeOpenSettled(p: Platform, cfg: Config, w: bool, a: bool, db: Db, d: Db, e: Exec, s: Senses)
    requires ValidConfig(cfg) && Settled(w, a, db, d) && AllSettled(w, a, db, e.steps)
    ensures AllSettled(w, a, db, AndMaybeOpen(p, cfg, d, e, s).steps)
  {
    hide *;
    LastSettled(w, a, db, d, e);
    MaybeOpenSettled(p, cfg, w, a, db, Final(d, e), e.mem, s);
    ThenSettled(w, a, db, e, MaybeOpen(p, cfg, Final(d, e), e.mem, s));
    AndMaybeIs(p, cfg, d, e, s);
  }

  lemma ThrownSettled(w: bool, a: bool, db: Db, d: Db, mem: Mem, id: string, hash: Option<string>)
    requires Settled(w, a, db, d)
    ensures AllSettled(w, a, db, ThrownOut(d, mem, id, hash).steps)
  {
    StatusSettled(w, a, db, d, id, Status.Discarded);
    var d1 := SetLawStatus(d, id, Status.Discarded);
    OneSettled(w, a, db, d1, mem);
    if hash.Some? {
      ElsewhereSettled(w, a, db, d1, MarkTextHashDiscarded(d1, hash.value));
      Settle2(w, a, db, d1, MarkTextHashDiscarded(d1, hash.value));
    }
    hide AllSettled, SetLawStatus, MarkTextHashDiscarded, Settled;
  }

  lemma RequeuedSettled(w: bool, a: bool, db: Db, d: Db, mem: Mem, id: string)
    requires Settled(w, a, db, d)
    ensures AllSettled(w, a, db, Requeued(d, mem, id).steps)
  {
    StatusSettled(w, a, db, d, id, PendingQueue);
    var d1 := SetLawStatus(d, id, PendingQueue);
    EnqueueSettled(w, a, db, d1, id);
    Settle2(w, a, db, d1, EnqueueLaw(d1, id));
    hide AllSettled, SetLawStatus, EnqueueLaw, Settled;
  }

  /** The end of a pause drops its announcement: what it leaves alone are the window records. */
  lemma PauseSettled(p: Platform, cfg: Config, w: bool, db: Db, d: Db, mem: Mem, s: Senses, x: Announced)
    requires Settled(w, false, db, d)
    ensures AllSettled(w, false, db, PauseEnded(p, cfg, d, mem, s, x).steps)
  {
    hide *;
    var (outcome, accepted, silences) := Judged(cfg, d, x);
    var r := ResultOf(p, x, outcome, DeliberationDecisions(d, x.lawId), s);
    var n := if silences.Some? then silences.value else 0;
    SilentSettled(w, db, d, x.lawId, n);
    var d0 := if silences.Some? then SetSilentDeliberations(d, x.lawId, n) else d;
    AnswersElsewhere(d0, x.lawId, r);
    var d1 := SaveDeliberationResult(d0, x.lawId, r);
    ElsewhereSettled(w, false, db, d0, d1);
    var d2 := ClearDeliberation(d1);
    DroppedSettled(w, db, d1);
    var d3 := ClearDeliberationDecisions(d2, x.lawId);
    AnswersElsewhere(d2, x.lawId, r);
    ElsewhereSettled(w, false, db, d2, d3);
    Settle3(w, false, db, d1, d2, d3);
    OneSettled(w, false, db, d0, mem);
    ThenSettled(w, false, db, Exec([d0], mem, []), Exec([d1, d2, d3], mem.(deliberation := None), []));
    PauseIs(p, cfg, d, mem, s, x);
  }

  lemma SilentSettled(w: bool, db: Db, d: Db, id: string, n: int)
    requires Settled(w, false, db, d)
    ensures Settled(w, false, db, SetSilentDeliberations(d, id, n))
  {
    hide WindowNumber;
  }

  lemma DroppedSettled(w: bool, db: Db, d: Db)
    requires Settled(w, false, db, d)
    ensures Settled(w, false, db, ClearDeliberation(d))
  {
    hide WindowNumber;
  }

  lemma ResolveSettled(p: Platform, cfg: Config, w: bool, db: Db, mem: Mem, s: Senses, x: Announced)
    requires ValidConfig(cfg)
    ensures AllSettled(w, false, db, ResolveDeliberation(p, cfg, db, mem, s, x).steps)
  {
    hide *;
    SettledSelf(w, false, db);
    var (outcome, accepted, _) := Judged(cfg, db, x);
    PauseSettled(p, cfg, w, db, db, mem, s, x);
    var e := PauseEnded(p, cfg, db, mem, s, x);
    LastSettled(w, false, db, db, e);
    var d := Final(db, e);
    var law := GetLaw(d, x.lawId);
    ResolveIs(p, cfg, db, mem, s, x);
    if law.None? {
      AndMaybeOpenSettled(p, cfg, w, false, db, db, e, s);
    } else {
      OpenFrozenSettled(p, w, false, db, d, e.mem, s, law.value, Frozen(x, accepted));
      ThenSettled(w, false, db, e, OpenFrozen(p, d, e.mem, s, law.value, Frozen(x, accepted)));
      var thrown, silenced, back := ThrownOut(d, e.mem, x.lawId, Some(law.value.textHash)), ThrownOut(d, e.mem, x.lawId,
          None), Requeued(d, e.mem, x.lawId);
      ThrownSettled(w, false, db, d, e.mem, x.lawId, Some(law.value.textHash));
      ThenSettled(w, false, db, e, thrown);
      ThrownSettled(w, false, db, d, e.mem, x.lawId, None);
      ThenSettled(w, false, db, e, silenced);
      RequeuedSettled(w, false, db, d, e.mem, x.lawId);
      ThenSettled(w, false, db, e, back);
      AndMaybeOpenSettled(p, cfg, w, false, db, db, Then(e, thrown), s);
      AndMaybeOpenSettled(p, cfg, w, false, db, db, Then(e, silenced), s);
      AndMaybeOpenSettled(p, cfg, w, false, db, db, Then(e, back), s);
    }
  }

  lemma CheckDeliberationSettled(p: Platform, cfg: Config, db: Db, mem: Mem, s: Senses)
    requires ValidConfig(cfg)
    ensures AllSettled(mem.active.None?, mem.deliberation.None?, db, CheckDeliberation(p, cfg, db, mem, s).steps)
  {
    if mem.deliberation.Some? {
      ResolveSettled(p, cfg, mem.active.None?, db, mem, s, mem.deliberation.value);
    }
    hide Settled, ResolveDeliberation, VotersOf, DeliberationDecisions, Deliberation.AllAnswered;
  }

  // ---- proposals ----

  lemma EnqueuePromulgacionSettled(cfg: Config, w: bool, a: bool, db: Db, mem: Mem, m: Proposal, category: string)
    ensures AllSettled(w, a, db, EnqueuePromulgacion(cfg, db, mem, m, category).steps)
  {
    EnqueueIs(cfg, db, mem, m, category);
    hide *;
    SettledSelf(w, a, db);
    var reason := if m.textHash in db.discarded then ReproposedIdentical else ProposedNew;
    var d1 := SaveLaw(db, m.lawId, m.author, m.textHash, m.createdAt, category, m.textCompressed, m.textOriginalLen);
    SaveLawSettled(w, a, db, m, category);
    var d2 := SetLawRequestedBy(d1, m.lawId, m.author);
    AskSettled(w, a, db, d1, m.lawId, m.author);
    var d3 := EnqueueLaw(d2, m.lawId);
    EnqueueSettled(w, a, db, d2, m.lawId);
    var until := CooldownUntil(cfg, d3, reason);
    CooldownElsewhere(d3, m.author, until, reason);
    ElsewhereSettled(w, a, db, d3, SetCooldown(d3, m.author, until, reason));
    Settle4(w, a, db, d1, d2, d3, SetCooldown(d3, m.author, until, reason));
  }

  lemma SaveLawSettled(w: bool, a: bool, db: Db, m: Proposal, category: string)
    ensures Settled(w, a, db, SaveLaw(db, m.lawId, m.author, m.textHash, m.createdAt, category, m.textCompressed,
        m.textOriginalLen))
  {
    hide WindowNumber, NormalizeCategory;
  }

  lemma AskSettled(w: bool, a: bool, db: Db, d: Db, id: string, author: string)
    requires Settled(w, a, db, d)
    ensures Settled(w, a, db, SetLawRequestedBy(d, id, author)) && Settled(w, a, db, SetLawAction(d, id, Derogacion))
  {
    AskedBy(d, id, author);
    AskedTo(d, id);
    hide *;
    LawsSettled(w, a, db, d, SetLawRequestedBy(d, id, author));
    LawsSettled(w, a, db, d, SetLawAction(d, id, Derogacion));
  }

  lemma AskedBy(d: Db, id: string, author: string)
    ensures var d2 := SetLawRequestedBy(d, id, author);
      d2 == d.(laws := d2.laws) && forall x :: Undecided(d2, x) ==> Undecided(d, x)
  {
  }

  lemma AskedTo(d: Db, id: string)
    ensures var d2 := SetLawAction(d, id, Derogacion);
      d2 == d.(laws := d2.laws) && forall x :: Undecided(d2, x) ==> Undecided(d, x)
  {
  }

  lemma CooldownElsewhere(d: Db, author: string, until: int, reason: CooldownReason)
    ensures var d2 := SetCooldown(d, author, until, reason); d2 == d.(cooldowns := d2.cooldowns)
  {
  }

  lemma EnqueueDerogacionSettled(cfg: Config, w: bool, a: bool, db: Db, mem: Mem, m: Proposal)
    ensures AllSettled(w, a, db, EnqueueDerogacion(cfg, db, mem, m).steps)
  {
    RepealIs(cfg, db, mem, m);
    hide *;
    SettledSelf(w, a, db);
    OneSettled(w, a, db, db, mem);
    IdleIs(mem);
    var d1 := SetLawAction(db, m.lawId, Derogacion);
    AskSettled(w, a, db, db, m.lawId, m.author);
    var d2 := SetLawRequestedBy(d1, m.lawId, m.author);
    AskSettled(w, a, db, d1, m.lawId, m.author);
    var d3 := EnqueueLaw(d2, m.lawId);
    EnqueueSettled(w, a, db, d2, m.lawId);
    var until := CooldownUntil(cfg, d3, ProposedNew);
    CooldownElsewhere(d3, m.author, until, ProposedNew);
    ElsewhereSettled(w, a, db, d3, SetCooldown(d3, m.author, until, ProposedNew));
    Settle4(w, a, db, d1, d2, d3, SetCooldown(d3, m.author, until, ProposedNew));
  }

  lemma ProposalSettled(p: Platform, cfg: Config, w: bool, a: bool, db: Db, mem: Mem, s: Senses, m: Proposal)
    requires ValidConfig(cfg)
    ensures AllSettled(w, a, db, HandleProposal(p, cfg, db, mem, s, m).steps)
  {
    hide *;
    SettledSelf(w, a, db);
    OneSettled(w, a, db, db, mem);
    IdleIs(mem);
    ProposalIs(p, cfg, db, mem, s, m);
    EnqueueDerogacionSettled(cfg, w, a, db, mem, m);
    AndMaybeOpenSettled(p, cfg, w, a, db, db, EnqueueDerogacion(cfg, db, mem, m), s);
    var category := ValidateCategory(m.category);
    if category.Success? {
      EnqueuePromulgacionSettled(cfg, w, a, db, mem, m, category.value);
      AndMaybeOpenSettled(p, cfg, w, a, db, db, EnqueuePromulgacion(cfg, db, mem, m, category.value), s);
    }
  }

  // ---- nonces and deadlines ----

  lemma CloseSettled(a: bool, db: Db, d: Db, mem: Mem, x: Active, nonce: int, winner: string)
    requires Settled(false, a, db, d)
    ensures AllSettled(false, a, db, CloseSealed(d, mem, x.wid, x.lawId, x.action, nonce, winner).steps)
  {
    CloseIs(d, mem, x, nonce, winner);
    hide *;
    var d1 := SetWindowResult(d, x.wid, Sealed, Some(nonce), Some(winner));
    ResultSettled(a, db, d, x.wid, Sealed, Some(nonce), Some(winner));
    var status := if x.action == Derogacion then Repealed else Promulgated;
    StatusSettled(false, a, db, d1, x.lawId, status);
    var d2 := SetLawStatus(d1, x.lawId, status);
    PointerElsewhere(d2, "");
    ElsewhereSettled(false, a, db, d2, ClearActiveWindow(d2));
    Settle3(false, a, db, d1, d2, ClearActiveWindow(d2));
  }

  lemma LostSettled(a: bool, db: Db, d: Db, mem: Mem, x: Active)
    requires Settled(false, a, db, d)
    ensures AllSettled(false, a, db, SealLost(d, mem, x).steps)
  {
    var d1 := SetLawStatus(d, x.lawId, PendingQueue);
    StatusSettled(false, a, db, d, x.lawId, PendingQueue);
    var d2 := EnqueueLaw(d1, x.lawId);
    EnqueueSettled(false, a, db, d1, x.lawId);
    PointerElsewhere(d2, "");
    ElsewhereSettled(false, a, db, d2, ClearActiveWindow(d2));
    Settle3(false, a, db, d1, d2, ClearActiveWindow(d2));
    hide AllSettled, Settled, SetLawStatus, EnqueueLaw, ClearActiveWindow;
  }

  lemma SealSettled(p: Platform, a: bool, db: Db, d: Db, mem: Mem, s: Senses, x: Active, nonce: int, winner: string)
    requires Settled(false, a, db, d)
    ensures AllSettled(false, a, db, Seal(p, d, mem, s, x, nonce, winner).steps)
  {
    var b := BlockOf(p, d, x, nonce, winner, s);
    var d1 := AppendBlock(d, b).0;
    ElsewhereSettled(false, a, db, d, d1);
    OneSettled(false, a, db, d1, mem);
    CloseSettled(a, db, d1, mem, x, nonce, winner);
    ThenSettled(false, a, db, Exec([d1], mem, []), CloseSealed(d1, mem, x.wid, x.lawId, x.action, nonce, winner));
    LostSettled(a, db, d, mem, x);
    hide AllSettled, Settled, BlockOf, AppendBlock, CloseSealed, SealLost, Then;
  }

  lemma NonceSettled(p: Platform, cfg: Config, a: bool, db: Db, mem: Mem, s: Senses, m: Solution)
    requires ValidConfig(cfg)
    ensures AllSettled(mem.active.None?, a, db, HandleNonce(p, cfg, db, mem, s, m).steps)
  {
    if mem.active.Some? {
      var x := mem.active.value;
      var d := TrySealWindow(db, x.wid, WinnerName(m.winner)).0;
      SettledSelf(false, a, db);
      ElsewhereSettled(false, a, db, db, d);
      OneSettled(false, a, db, d, mem);
      SealSettled(p, a, db, d, mem, s, x, m.nonce, m.winner);
      ThenSettled(false, a, db, Exec([d], mem, []), Seal(p, d, mem, s, x, m.nonce, m.winner));
      AndMaybeOpenSettled(p, cfg, false, a, db, db, Then(Exec([d], mem, []), Seal(p, d, mem, s, x, m.nonce, m.winner)), s);
    }
    OneSettled(true, a, db, db, mem) by {
      SettledSelf(true, a, db);
    }
    hide AllSettled, Settled, Seal, Then, TrySealWindow, Acceptable, AndMaybeOpen, WinnerName;
  }

  lemma ExpiredSettled(a: bool, db: Db, mem: Mem, x: Active)
    ensures AllSettled(false, a, db, Expired(db, mem, x).steps)
  {
    ExpiryIs(db, mem, x);
    hide *;
    SettledSelf(false, a, db);
    var law := GetLaw(db, x.lawId);
    var hash := if law.Some? then Some(law.value.textHash) else None;
    var d1 := SetWindowResult(db, x.wid, ExpiredPending, None, None);
    ResultSettled(a, db, db, x.wid, ExpiredPending, None, None);
    OneSettled(false, a, db, d1, mem);
    var e := ThrownOut(d1, mem, x.lawId, hash);
    ThrownSettled(false, a, db, d1, mem, x.lawId, hash);
    ThenSettled(false, a, db, Exec([d1], mem, []), e);
    ClearSettled(a, db, d1, Exec([d1], mem, []), e, mem, [WindowClosed(x.wid, Finished(ExpiredPending))]);
  }

  lemma ClearSettled(a: bool, db: Db, d1: Db, head: Exec, e: Exec, mem: Mem, out: seq<Message>)
    requires AllSettled(false, a, db, Then(head, e).steps) && AllSettled(false, a, db, e.steps) && Settled(false, a, db, d1)
    ensures AllSettled(false, a, db, Then(Then(head, e), Exec([ClearActiveWindow(Final(d1, e))], mem.(active := None), out)).steps)
  {
    hide *;
    LastSettled(false, a, db, d1, e);
    var d := Final(d1, e);
    PointerElsewhere(d, "");
    ElsewhereSettled(false, a, db, d, ClearActiveWindow(d));
    StretchOf(false, a, db, ClearActiveWindow(d), mem.(active := None), out);
    ThenSettled(false, a, db, Then(head, e), Exec([ClearActiveWindow(d)], mem.(active := None), out));
  }

  lemma StretchOf(w: bool, a: bool, db: Db, d: Db, mem: Mem, out: seq<Message>)
    requires Settled(w, a, db, d)
    ensures AllSettled(w, a, db, Exec([d], mem, out).steps)
  {
    hide Settled;
  }

  lemma UnheardSettled(a: bool, db: Db, mem: Mem, x: Active)
    ensures AllSettled(false, a, db, ExpiredWithoutQuorum(db, mem, x).steps)
  {
    UnheardIs(db, mem, x);
    hide *;
    SettledSelf(false, a, db);
    var d1 := SetWindowResult(db, x.wid, ExpiredNoQuorum, None, None);
    ResultSettled(a, db, db, x.wid, ExpiredNoQuorum, None, None);
    OneSettled(false, a, db, d1, mem);
    var e := Requeued(d1, mem, x.lawId);
    RequeuedSettled(false, a, db, d1, mem, x.lawId);
    ThenSettled(false, a, db, Exec([d1], mem, []), e);
    ClearSettled(a, db, d1, Exec([d1], mem, []), e, mem, [WindowClosed(x.wid, Finished(ExpiredNoQuorum))]);
  }

  lemma DeadlineSettled(p: Platform, cfg: Config, a: bool, db: Db, mem: Mem, s: Senses)
    requires ValidConfig(cfg)
    ensures AllSettled(mem.active.None?, a, db, CheckDeadline(p, cfg, db, mem, s).steps)
  {
    SettledSelf(false, a, db);
    if mem.active.Some? {
      var x := mem.active.value;
      ExpiredSettled(a, db, mem, x);
      UnheardSettled(a, db, mem, x);
      AndMaybeOpenSettled(p, cfg, false, a, db, db, Expired(db, mem, x), s);
      AndMaybeOpenSettled(p, cfg, false, a, db, db, ExpiredWithoutQuorum(db, mem, x), s);
    }
    OneSettled(true, a, db, db, mem) by {
      SettledSelf(true, a, db);
    }
    hide AllSettled, Settled, Expired, ExpiredWithoutQuorum, AndMaybeOpen, QuorumOf, ComoActiva;
  }

  /** A leader without window changes no record of a window there was, and one without deliberation drops no announcement and
      brings no law into deliberation without one; at every write of every handler. */
  lemma HandledSettled(p: Platform, cfg: Config, db: Db, mem: Mem, s: Senses, ev: Event)
    requires ValidConfig(cfg) && mem.isLeader
    ensures AllSettled(mem.active.None?, mem.deliberation.None?, db, Handled(p, cfg, db, mem, s, ev).steps)
  {
    hide *;
    var w, a := mem.active.None?, mem.deliberation.None?;
    HandledIs(p, cfg, db, mem, s, ev);
    SettledSelf(w, a, db);
    OneSettled(w, a, db, db, mem);
    IdleIs(mem);
    match ev
    case Proposed(m) => ProposalSettled(p, cfg, w, a, db, mem, s, m);
    case Answered(m) => NonceSettled(p, cfg, a, db, mem, s, m);
    case DeliberationTick => CheckDeliberationSettled(p, cfg, db, mem, s);
    case DeadlineTick => DeadlineSettled(p, cfg, a, db, mem, s);
    case OpenTick => MaybeOpenSettled(p, cfg, w, a, db, db, mem, s);
    case Promoted => LeaderIdles(p, cfg, db, mem, s);
  }
}
