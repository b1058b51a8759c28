/**
 Where each law is. The store anchors a law when a leader that takes over can find it: queued, decided, in the
 window of the pointer, or announced. The module follows one law through every write.
 */
module NctConservation {
  import opened Wrappers
  import opened Platform
  import opened Text
  import opened Challenge
  import opened Categories
  import opened Laws
  import opened Chain
  import opened Store
  import opened Nct
  import opened NctInvariant
  import opened NctHandlers
  import opened NctRuns
  import Deliberation

  // ---- one law seen in the store ----

  datatype View = View(status: Option<Status>, queued: bool, held: bool, announced: bool)

  function ViewOf(db: Db, id: string): View {
    View(if id in db.laws then Some(db.laws[id].status) else None,
         id in db.queue, Holds(db, id), db.deliberation.Some? && db.deliberation.value.lawId == id)
  }

  predicate Decided(status: Option<Status>) {
    status.Some? && (status.value == Promulgated || status.value == Status.Discarded || status.value == Repealed)
  }

  predicate Anchored(v: View) {
    v.queued || Decided(v.status) || v.held || (v.announced && v.status == Some(InDeliberation))
  }

  /** A queued law is known and has not been thrown out or repealed. */
  predicate ProperView(v: View) {
    v.queued ==> v.status.Some? && v.status.value != Status.Discarded && v.status.value != Repealed
  }

  ghost predicate Proper(db: Db) {
    forall id :: ProperView(ViewOf(db, id))
  }

  ghost predicate KeepsOthers(db: Db, d: Db, id: string) {
    forall other :: other != id ==> ViewOf(d, other) == ViewOf(db, other)
  }

  ghost predicate KeepsAll(db: Db, d: Db) {
    forall other :: ViewOf(d, other) == ViewOf(db, other)
  }

  // ---- what each write does to the view ----

  lemma NeutralView(db: Db, d: Db)
    requires d.queue == db.queue && d.windows == db.windows && d.active == db.active && d.deliberation == db.deliberation
    requires d.laws.Keys == db.laws.Keys && forall id :: id in db.laws ==> d.laws[id].status == db.laws[id].status
    ensures KeepsAll(db, d)
  {
  }

  lemma StatusView(db: Db, id: string, status: Status)
    requires id in db.laws
    ensures var d := SetLawStatus(db, id, status);
      KeepsOthers(db, d, id) && ViewOf(d, id) == ViewOf(db, id).(status := Some(status))
  {
  }

  lemma EnqueueView(db: Db, id: string)
    ensures var d := EnqueueLaw(db, id); KeepsOthers(db, d, id) && ViewOf(d, id) == ViewOf(db, id).(queued := true)
  {
  }

  lemma RemoveView(db: Db, id: string)
    ensures var d := RemoveFromQueue(db, id); KeepsOthers(db, d, id) && ViewOf(d, id) == ViewOf(db, id).(queued := false)
  {
  }

  lemma NewWindowView(db: Db, wid: string, w: Window)
    requires db.active != Some(wid)
    ensures KeepsAll(db, SaveWindow(db, wid, w))
  {
  }

  lemma PointerView(db: Db, wid: string)
    requires wid in db.windows && db.windows[wid].result.None? && forall id :: !Holds(db, id)
    ensures var d, id := SetActiveWindow(db, wid), db.windows[wid].lawId;
      KeepsOthers(db, d, id) && ViewOf(d, id) == ViewOf(db, id).(held := true)
  {
  }

  /** A recorded result ends the window: its law is no longer held. */
  lemma ResultView(db: Db, wid: string, result: WindowResult, nonce: Option<int>, winner: Option<string>)
    requires db.active == Some(wid) && wid in db.windows
    ensures var d, id := SetWindowResult(db, wid, result, nonce, winner), db.windows[wid].lawId;
      && KeepsOthers(db, d, id) && ViewOf(d, id) == ViewOf(db, id).(held := false)
      && d.laws == db.laws && d.active == Some(wid) && wid in d.windows && d.windows[wid].result.Some?
  {
  }

  lemma PointerClearedView(db: Db)
    requires forall id :: !Holds(db, id)
    ensures KeepsAll(db, ClearActiveWindow(db))
  {
  }

  lemma AnnouncedView(db: Db, a: Announced)
    requires db.deliberation.None?
    ensures var d := SaveDeliberation(db, a);
      KeepsOthers(db, d, a.lawId) && ViewOf(d, a.lawId) == ViewOf(db, a.lawId).(announced := true)
  {
  }

  lemma ForgottenView(db: Db, id: string)
    requires db.deliberation.Some? && db.deliberation.value.lawId == id
    ensures var d := ClearDeliberation(db); KeepsOthers(db, d, id) && ViewOf(d, id) == ViewOf(db, id).(announced := false)
  {
  }

  // ---- stretches of writes ----

  ghost predicate About(db: Db, steps: seq<Db>, id: string) {
    forall i :: 0 <= i < |steps| ==> KeepsOthers(db, steps[i], id)
  }

  /** The views of one law along a stretch. */
  function Views(steps: seq<Db>, id: string): seq<View> {
    seq(|steps|, i requires 0 <= i < |steps| => ViewOf(steps[i], id))
  }

  lemma AboutThen(db: Db, e: Exec, next: Exec, id: string)
    requires About(db, e.steps, id) && About(Final(db, e), next.steps, id)
    ensures About(db, Then(e, next).steps, id)
    ensures Views(Then(e, next).steps, id) == Views(e.steps, id) + Views(next.steps, id)
  {
    hide ViewOf;
    var steps := Then(e, next).steps;
    forall i | 0 <= i < |steps| ensures KeepsOthers(db, steps[i], id) {
      if i >= |e.steps| {
        assert steps[i] == next.steps[i - |e.steps|];
        FinalKeeps(db, e, id);
        KeepsTransitive(db, Final(db, e), steps[i], id);
      }
    }
  }

  lemma FinalKeeps(db: Db, e: Exec, id: string)
    requires About(db, e.steps, id)
    ensures KeepsOthers(db, Final(db, e), id)
  {
    hide ViewOf;
  }

  lemma KeepsTransitive(a: Db, b: Db, c: Db, id: string)
    requires KeepsOthers(a, b, id) && KeepsOthers(b, c, id)
    ensures KeepsOthers(a, c, id)
  {
    hide ViewOf;
  }

  lemma KeepsWeaken(a: Db, b: Db, id: string)
    requires KeepsAll(a, b)
    ensures KeepsOthers(a, b, id) && ViewOf(b, id) == ViewOf(a, id)
  {
    hide ViewOf;
  }

  /** The law as the last write leaves it. */
  function LastView(db: Db, e: Exec, id: string): View {
    ViewOf(Final(db, e), id)
  }

  lemma AboutMore(db: Db, steps: seq<Db>, d: Db, id: string)
    requires About(db, steps, id)
    requires KeepsOthers(if steps == [] then db else steps[|steps| - 1], d, id)
    ensures About(db, steps + [d], id) && Views(steps + [d], id) == Views(steps, id) + [ViewOf(d, id)]
  {
    hide ViewOf;
    if steps != [] {
      KeepsTransitive(db, steps[|steps| - 1], d, id);
    }
  }

  lemma AboutTwo(db: Db, d1: Db, d2: Db, id: string)
    requires KeepsOthers(db, d1, id) && KeepsOthers(d1, d2, id)
    ensures About(db, [d1], id) && Views([d1], id) == [ViewOf(d1, id)]
    ensures About(db, [d1, d2], id) && Views([d1, d2], id) == [ViewOf(d1, id), ViewOf(d2, id)]
  {
    hide ViewOf;
    KeepsTransitive(db, d1, d2, id);
  }

  lemma AboutThree(db: Db, d1: Db, d2: Db, d3: Db, id: string)
    requires KeepsOthers(db, d1, id) && KeepsOthers(d1, d2, id) && KeepsOthers(d2, d3, id)
    ensures About(db, [d1, d2, d3], id) && Views([d1, d2, d3], id) == [ViewOf(d1, id), ViewOf(d2, id), ViewOf(d3, id)]
  {
    hide ViewOf;
    KeepsTransitive(db, d1, d2, id);
    KeepsTransitive(db, d2, d3, id);
  }

  lemma AboutFour(db: Db, d1: Db, d2: Db, d3: Db, d4: Db, id: string)
    requires KeepsOthers(db, d1, id) && KeepsOthers(d1, d2, id) && KeepsOthers(d2, d3, id) && KeepsOthers(d3, d4, id)
    ensures About(db, [d1, d2, d3, d4], id)
    ensures Views([d1, d2, d3, d4], id) == [ViewOf(d1, id), ViewOf(d2, id), ViewOf(d3, id), ViewOf(d4, id)]
  {
    AboutThree(db, d1, d2, d3, id);
    AboutMore(db, [d1, d2, d3], d4, id);
    assert [d1, d2, d3] + [d4] == [d1, d2, d3, d4];
  }

  /** Writes that concern no law. */
  ghost predicate Neutral(db: Db, steps: seq<Db>) {
    forall i :: 0 <= i < |steps| ==> KeepsAll(db, steps[i])
  }

  // ---- the stretches the handlers are made of ----

  /** Opening a window: between taking the law off the queue and setting the pointer nothing anchors it. */
  lemma InstalledViews(p: Platform, db: Db, mem: Mem, law: Law, o: Opening, s: Senses)
    requires law.lawId in db.laws && o.wid !in db.windows && NobodyHeld(db)
    requires db.active.Some? ==> db.active.value in db.windows
    ensures var e := Installed(p, db, mem, law, o, s);
      var v := ViewOf(db, law.lawId);
      && About(db, e.steps, law.lawId)
      && Views(e.steps, law.lawId) == [v, v.(status := Some(InWindow)), v.(status := Some(InWindow), queued := false),
                                       v.(status := Some(InWindow), queued := false, held := true)]
  {
    var w := WindowOf(p, law, o, s);
    hide KeepsOthers, KeepsAll, ViewOf;
    WindowConcerns(p, law, o, s);
    var d1 := SaveWindow(db, o.wid, w);
    NewWindowView(db, o.wid, w);
    KeepsWeaken(db, d1, law.lawId);
    var d2 := SetLawStatus(d1, law.lawId, InWindow);
    StatusView(d1, law.lawId, InWindow);
    var d3 := RemoveFromQueue(d2, law.lawId);
    RemoveView(d2, law.lawId);
    var d4 := SetActiveWindow(d3, o.wid);
    AboutThree(db, d1, d2, d3, law.lawId);
    FinalKeeps(db, Exec([d1, d2, d3], mem, []), law.lawId);
    FinalIsLast(db, Exec([d1, d2, d3], mem, []));
    StillNobody(db, d3, law.lawId);
    PointerView(d3, o.wid);
    AboutFour(db, d1, d2, d3, d4, law.lawId);
  }

  ghost predicate NobodyHeld(db: Db) {
    forall id :: !ViewOf(db, id).held
  }

  ghost predicate NothingAnnounced(db: Db) {
    forall id :: !ViewOf(db, id).announced
  }

  lemma StillNobody(db: Db, d: Db, id: string)
    requires NobodyHeld(db) && !ViewOf(d, id).held && KeepsOthers(db, d, id)
    ensures NobodyHeld(d) && forall other :: !Holds(d, other)
  {
    assert forall other :: ViewOf(d, other).held == Holds(d, other);
    assert forall other :: other != id ==> ViewOf(d, other).held == ViewOf(db, other).held;
  }

  lemma WindowConcerns(p: Platform, law: Law, o: Opening, s: Senses)
    ensures WindowOf(p, law, o, s).lawId == law.lawId && WindowOf(p, law, o, s).result.None?
  {
  }

  /** Announcing a law leaves no gap: it is announced before it leaves the queue. */
  lemma AnnounceViews(db: Db, mem: Mem, a: Announced)
    requires a.lawId in db.laws && db.deliberation.None?
    ensures var e := Announce(db, mem, a);
      var v := ViewOf(db, a.lawId).(announced := true);
      && About(db, e.steps, a.lawId)
      && Views(e.steps, a.lawId) == [v, v.(status := Some(InDeliberation)), v.(status := Some(InDeliberation), queued := false)]
  {
    hide KeepsOthers, ViewOf;
    var d1 := SaveDeliberation(db, a);
    AnnouncedView(db, a);
    var d2 := SetLawStatus(d1, a.lawId, InDeliberation);
    StatusView(d1, a.lawId, InDeliberation);
    RemoveView(d2, a.lawId);
    AboutThree(db, d1, d2, RemoveFromQueue(d2, a.lawId), a.lawId);
  }

  lemma ThrownOutViews(db: Db, mem: Mem, id: string, textHash: Option<string>)
    requires id in db.laws
    ensures var e := ThrownOut(db, mem, id, textHash);
      var v := ViewOf(db, id).(status := Some(Status.Discarded));
      About(db, e.steps, id) && Views(e.steps, id) == if textHash.Some? then [v, v] else [v]
  {
    hide KeepsOthers, KeepsAll, ViewOf;
    var d := SetLawStatus(db, id, Status.Discarded);
    StatusView(db, id, Status.Discarded);
    var d2 := MarkTextHashDiscarded(d, textHash.GetOr(""));
    NeutralView(d, d2);
    KeepsWeaken(d, d2, id);
    AboutTwo(db, d, d2, id);
  }

  lemma RequeuedViews(db: Db, mem: Mem, id: string)
    requires id in db.laws
    ensures var e := Requeued(db, mem, id);
      var v := ViewOf(db, id).(status := Some(PendingQueue));
      About(db, e.steps, id) && Views(e.steps, id) == [v, v.(queued := true)]
  {
    hide KeepsOthers, ViewOf;
    var d := SetLawStatus(db, id, PendingQueue);
    StatusView(db, id, PendingQueue);
    EnqueueView(d, id);
    AboutTwo(db, d, EnqueueLaw(d, id), id);
  }

  /** Ending a deliberation: from the moment it is forgotten its law has no anchor. */
  lemma PauseEndedViews(p: Platform, cfg: Config, db: Db, mem: Mem, s: Senses, a: Announced)
    requires db.deliberation == Some(a) && a.lawId in db.laws
    ensures var e := PauseEnded(p, cfg, db, mem, s, a);
      var v := ViewOf(db, a.lawId);
      && About(db, e.steps, a.lawId)
      && Views(e.steps, a.lawId) == (if Judged(cfg, db, a).2.Some? then [v] else [])
                                    + [v, v.(announced := false), v.(announced := false)]
  {
    hide KeepsOthers, KeepsAll, ViewOf, Judged, ResultOf, Keep, VotersOf, DefaultsOf, PauseEnded, Holds;
    var id, silences := a.lawId, Judged(cfg, db, a).2;
    var r := ResultOf(p, a, Judged(cfg, db, a).0, DeliberationDecisions(db, id), s);
    var d0 := if silences.Some? then SetSilentDeliberations(db, id, silences.value) else db;
    NeutralView(db, d0);
    KeepsWeaken(db, d0, id);
    var d1 := SaveDeliberationResult(d0, id, r);
    NeutralView(d0, d1);
    KeepsWeaken(d0, d1, id);
    var d2 := ClearDeliberation(d1);
    ForgottenView(d1, id);
    var d3 := ClearDeliberationDecisions(d2, id);
    NeutralView(d2, d3);
    KeepsWeaken(d2, d3, id);
    PauseEndedShape(p, cfg, db, mem, s, a, d0, r);
    AboutFour(db, d0, d1, d2, d3, id);
    if silences.None? {
      AboutThree(db, d1, d2, d3, id);
    }
    assert [d0] + [d1, d2, d3] == [d0, d1, d2, d3];
  }

  lemma TurnTakenNeutral(db: Db, mem: Mem, law: Law)
    ensures Neutral(db, TurnTaken(db, mem, law).steps)
  {
    var steps := TurnTaken(db, mem, law).steps;
    NeutralView(db, steps[0]);
    NeutralView(db, steps[1]);
  }

  lemma MeasuredNeutral(cfg: Config, db: Db, mem: Mem, s: Senses)
    requires ValidConfig(cfg)
    ensures Neutral(db, Measured(cfg, db, mem, s).steps)
  {
    if cfg.dynamic {
      NeutralView(db, Measured(cfg, db, mem, s).steps[0]);
    }
  }

  lemma MeasuredForNeutral(cfg: Config, db: Db, mem: Mem, law: Law, voters: seq<Deliberation.Convocado>)
    ensures Neutral(db, MeasuredFor(cfg, db, mem, law, voters).0.steps)
  {
    if cfg.dynamic {
      NeutralView(db, MeasuredFor(cfg, db, mem, law, voters).0.steps[0]);
    }
  }

  lemma NeutralThen(db: Db, e: Exec, next: Exec)
    requires Neutral(db, e.steps) && Neutral(Final(db, e), next.steps)
    ensures Neutral(db, Then(e, next).steps)
  {
    hide ViewOf;
    var steps := Then(e, next).steps;
    forall i | 0 <= i < |steps| ensures KeepsAll(db, steps[i]) {
      if i >= |e.steps| {
        assert steps[i] == next.steps[i - |e.steps|];
        assert e.steps != [] ==> KeepsAll(db, e.steps[|e.steps| - 1]);
      }
    }
  }

  lemma VetoesNeutral(p: Platform, db: Db, mem: Mem, id: string, voters: seq<Deliberation.Convocado>)
    requires Durable(p, db)
    ensures var d := ClearDeliberationDecisions(db, id); Neutral(db, [d] + VetoSteps(d, id, voters))
  {
    var d := ClearDeliberationDecisions(db, id);
    DecisionsCleared(p, db, id);
    VetoStepsSound(p, d, id, voters);
    hide Durable, VetoSteps, KeepsAll;
    var steps := [d] + VetoSteps(d, id, voters);
    forall i | 0 <= i < |steps| ensures KeepsAll(db, steps[i]) {
      assert i > 0 ==> steps[i] == VetoSteps(d, id, voters)[i - 1];
      NeutralView(db, steps[i]);
    }
  }

  /** Expiry: the recorded result releases the law, and until its status is written nothing anchors it. */
  lemma ExpiredViews(db: Db, mem: Mem, a: Active)
    requires db.active == Some(a.wid) && a.wid in db.windows && db.windows[a.wid].lawId == a.lawId && a.lawId in db.laws
    ensures var e := Expired(db, mem, a);
      var v := ViewOf(db, a.lawId).(held := false);
      var out := v.(status := Some(Status.Discarded));
      About(db, e.steps, a.lawId) && Views(e.steps, a.lawId) == [v, out, out, out]
  {
    hide KeepsOthers, KeepsAll, ViewOf;
    var d1 := SetWindowResult(db, a.wid, ExpiredPending, None, None);
    ResultView(db, a.wid, ExpiredPending, None, None);
    var textHash := Some(db.laws[a.lawId].textHash);
    var middle := ThrownOut(d1, mem, a.lawId, textHash);
    ThrownOutViews(d1, mem, a.lawId, textHash);
    ExpiredShape(db, mem, a, d1, textHash);
    ClearedViews(db, d1, middle, a.wid, a.lawId);
    LastOfViews(d1, middle, a.lawId);
  }

  /** From the recorded result until the law is queued again nothing anchors it. */
  lemma ExpiredWithoutQuorumViews(db: Db, mem: Mem, a: Active)
    requires db.active == Some(a.wid) && a.wid in db.windows && db.windows[a.wid].lawId == a.lawId && a.lawId in db.laws
    ensures var e := ExpiredWithoutQuorum(db, mem, a);
      var v := ViewOf(db, a.lawId).(held := false);
      var back := v.(status := Some(PendingQueue));
      && About(db, e.steps, a.lawId)
      && Views(e.steps, a.lawId) == [v, back, back.(queued := true), back.(queued := true)]
  {
    hide KeepsOthers, KeepsAll, ViewOf;
    var d1 := SetWindowResult(db, a.wid, ExpiredNoQuorum, None, None);
    ResultView(db, a.wid, ExpiredNoQuorum, None, None);
    var middle := Requeued(d1, mem, a.lawId);
    RequeuedViews(d1, mem, a.lawId);
    ExpiredWithoutQuorumShape(db, mem, a, d1);
    ClearedViews(db, d1, middle, a.wid, a.lawId);
    LastOfViews(d1, middle, a.lawId);
  }

  /** Between the two: a middle that leaves windows and pointer alone, and the pointer cleared at the end. */
  lemma ClearedViews(db: Db, d1: Db, middle: Exec, wid: string, id: string)
    requires KeepsOthers(db, d1, id) && About(d1, middle.steps, id)
    requires var d := Final(d1, middle); d.windows == d1.windows && d.active == d1.active == Some(wid)
    requires wid in d1.windows && d1.windows[wid].result.Some?
    ensures var last := ClearActiveWindow(Final(d1, middle));
      var steps := [d1] + middle.steps + [last];
      && About(db, steps, id)
      && Views(steps, id) == [ViewOf(d1, id)] + Views(middle.steps, id) + [ViewOf(Final(d1, middle), id)]
  {
    var d := Final(d1, middle);
    var last := ClearActiveWindow(d);
    PointerClearedView(d);
    hide ViewOf, KeepsOthers, KeepsAll;
    KeepsWeaken(d, last, id);
    AboutTwo(db, d1, d1, id) by { KeepsSelf(d1, id); }
    var head := Exec([d1], middle.mem, []);
    AboutThen(db, head, middle, id);
    AboutMore(db, [d1] + middle.steps, last, id);
  }

  lemma LastOfViews(db: Db, e: Exec, id: string)
    requires e.steps != []
    ensures LastView(db, e, id) == Views(e.steps, id)[|e.steps| - 1]
  {
    hide ViewOf;
  }

  lemma KeepsSelf(db: Db, id: string)
    ensures KeepsOthers(db, db, id)
  {
  }

  /** Closing a sealed window: between its result and the status of its law nothing in the store anchors the law. */
  lemma CloseSealedViews(db: Db, mem: Mem, wid: string, nonce: int, winner: string)
    requires db.active == Some(wid) && wid in db.windows && db.windows[wid].lawId in db.laws
    ensures var id := db.windows[wid].lawId;
      var e := CloseSealed(db, mem, wid, id, db.windows[wid].action, nonce, winner);
      var v := ViewOf(db, id).(held := false);
      var done := v.(status := Some(if db.windows[wid].action == Derogacion then Repealed else Promulgated));
      About(db, e.steps, id) && Views(e.steps, id) == [v, done, done]
  {
    hide *;
    var id := db.windows[wid].lawId;
    var d1 := SetWindowResult(db, wid, Sealed, Some(nonce), Some(winner));
    ResultView(db, wid, Sealed, Some(nonce), Some(winner));
    CloseSealedShape(db, mem, wid, id, db.windows[wid].action, nonce, winner);
    var status := if db.windows[wid].action == Derogacion then Repealed else Promulgated;
    var d2 := SetLawStatus(d1, id, status);
    StatusView(d1, id, status);
    StatusShape(d1, id, status);
    var d3 := ClearActiveWindow(d2);
    ResolvedNotHeld(d2, wid);
    PointerClearedView(d2);
    KeepsWeaken(d2, d3, id);
    AboutThree(db, d1, d2, d3, id);
  }

  lemma ResolvedNotHeld(db: Db, wid: string)
    requires db.active == Some(wid) && wid in db.windows && db.windows[wid].result.Some?
    ensures forall id :: !Holds(db, id)
  {
  }

  lemma GuardNeutral(db: Db, wid: string, winner: string)
    ensures KeepsAll(db, TrySealWindow(db, wid, winner).0) && KeepsAll(db, ReleaseWindowSeal(db, wid))
  {
    hide KeepsAll;
    var taken := TrySealWindow(db, wid, winner).0;
    GuardsNeutral(db, taken.guards);
    GuardsNeutral(db, db.guards - {wid});
    assert taken == db.(guards := taken.guards);
  }

  lemma GuardsNeutral(db: Db, guards: map<string, string>)
    ensures KeepsAll(db, db.(guards := guards))
  {
    NeutralView(db, db.(guards := guards));
  }

  lemma AppendNeutral(db: Db, b: Block)
    ensures KeepsAll(db, AppendBlock(db, b).0)
  {
    hide *;
    AppendShape(db, b);
    NeutralView(db, AppendBlock(db, b).0);
  }

  lemma AppendShape(db: Db, b: Block)
    ensures var d := AppendBlock(db, b).0; d == db.(chain := d.chain, blocks := d.blocks)
  {
    hide ToFields;
  }
}
