/** Exactly where a crash leaves a law behind, handler by handler. */
module NctGaps {
  import opened Wrappers
  import opened Platform
  import opened Text
  import opened Challenge
  import opened Laws
  import opened Chain
  import opened Store
  import opened Nct
  import opened NctInvariant
  import opened NctHandlers
  import opened NctRuns
  import opened NctConservation
  import opened NctLedger
  import opened NctPlaces
  import Deliberation

  /** A crash after k writes of e finds the law unanchored. */
  predicate LosesAt(db: Db, e: Exec, k: nat, id: string)
    requires k <= |e.steps|
  {
    Lost(ViewOf(StoreAt(db, e, k), id))
  }

  /** The writes at which the law is unanchored are those from the lo-th to the hi-th, no others. */
  predicate GapIs(db: Db, e: Exec, id: string, lo: int, hi: int) {
    forall k :: 0 <= k <= |e.steps| ==> (LosesAt(db, e, k, id) <==> lo <= k <= hi)
  }

  lemma GapFromViews(db: Db, e: Exec, id: string, lo: int, hi: int)
    requires Lost(ViewOf(db, id)) <==> lo <= 0 <= hi
    requires |Views(e.steps, id)| == |e.steps|
    requires forall k :: 0 <= k < |e.steps| ==> (Lost(Views(e.steps, id)[k]) <==> lo <= k + 1 <= hi)
    ensures GapIs(db, e, id, lo, hi)
  {
    hide ViewOf, Lost;
    forall k | 0 <= k <= |e.steps| ensures LosesAt(db, e, k, id) <==> lo <= k <= hi {
      assert k > 0 ==> Views(e.steps, id)[k - 1] == ViewOf(StoreAt(db, e, k), id);
    }
  }

  /** Announcing never leaves a law behind. */
  lemma AnnouncingHasNoGap(db: Db, mem: Mem, a: Announced)
    requires a.lawId in db.laws && a.lawId in db.queue && db.deliberation.None?
    ensures GapIs(db, Announce(db, mem, a), a.lawId, 1, 0)
  {
    hide *;
    StatusOfView(db, a.lawId);
    AnnounceViews(db, mem, a);
    AnnounceShape(db, mem, a);
    ViewsLength(Announce(db, mem, a).steps, a.lawId);
    AnnouncingCases(ViewOf(db, a.lawId), Views(Announce(db, mem, a).steps, a.lawId));
    GapFromViews(db, Announce(db, mem, a), a.lawId, 1, 0);
  }

  lemma AnnouncingCases(v: View, views: seq<View>)
    requires v.queued
    requires var w := v.(announced := true);
      views == [w, w.(status := Some(InDeliberation)), w.(status := Some(InDeliberation), queued := false)]
    ensures !Lost(v) && forall k :: 0 <= k < |views| ==> !Lost(views[k])
  {
  }

  /** Opening a queued law: only between remove_from_queue and set_active_window. */
  lemma OpeningGap(p: Platform, db: Db, mem: Mem, law: Law, o: Opening, s: Senses)
    requires Durable(p, db) && NobodyHeld(db) && NothingAnnounced(db)
    requires law.lawId in db.queue && law.lawId in db.laws && o.wid !in db.windows
    ensures GapIs(db, Installed(p, db, mem, law, o, s), law.lawId, 3, 3)
  {
    hide *;
    var id, e := law.lawId, Installed(p, db, mem, law, o, s);
    PointerInWindows(p, db);
    StatusOfView(db, id);
    Unheld(db, id);
    InstalledViews(p, db, mem, law, o, s);
    InstalledMem(p, db, mem, law, o, s);
    ViewsLength(e.steps, id);
    OpeningCases(ViewOf(db, id), Views(e.steps, id));
    GapFromViews(db, e, id, 3, 3);
  }

  lemma Unheld(db: Db, id: string)
    requires NobodyHeld(db) && NothingAnnounced(db)
    ensures !ViewOf(db, id).held && !ViewOf(db, id).announced
  {
    hide ViewOf;
  }

  lemma OpeningCases(v: View, views: seq<View>)
    requires v.queued && !v.held && !v.announced
    requires views == [v, v.(status := Some(InWindow)), v.(status := Some(InWindow), queued := false),
                       v.(status := Some(InWindow), queued := false, held := true)]
    ensures !Lost(v) && forall k :: 0 <= k < |views| ==> (Lost(views[k]) <==> k == 2)
  {
  }

  /** Sealing: only between the result of the window and the status of the law; the block is already there. */
  lemma ClosingGap(p: Platform, db: Db, mem: Mem, wid: string, nonce: int, winner: string)
    requires Durable(p, db) && db.active == Some(wid) && wid in db.windows && db.windows[wid].result.None?
    ensures GapIs(db, CloseSealed(db, mem, wid, db.windows[wid].lawId, db.windows[wid].action, nonce, winner), db.windows[wid].lawId, 1, 1)
  {
    hide *;
    var id := db.windows[wid].lawId;
    var e := CloseSealed(db, mem, wid, id, db.windows[wid].action, nonce, winner);
    PointedLawKnown(p, db, wid);
    HeldView(p, db, wid);
    CloseSealedViews(db, mem, wid, nonce, winner);
    CloseSealedShape(db, mem, wid, id, db.windows[wid].action, nonce, winner);
    ViewsLength(e.steps, id);
    ClosingCases(ViewOf(db, id), Views(e.steps, id), db.windows[wid].action);
    GapFromViews(db, e, id, 1, 1);
  }

  lemma ClosingCases(v: View, views: seq<View>, action: Action)
    requires v.held && !v.queued && v.status == Some(InWindow)
    requires var w := v.(held := false);
      var done := w.(status := Some(if action == Derogacion then Repealed else Promulgated));
      views == [w, done, done]
    ensures !Lost(v) && forall k :: 0 <= k < |views| ==> (Lost(views[k]) <==> k == 0)
  {
  }

  /** Expiring: until the law is marked discarded, or until it is queued again. */
  lemma ExpiryGaps(p: Platform, db: Db, mem: Mem, a: Active)
    requires Durable(p, db) && ActiveInStep(p, db, a) && a.lawId in db.laws
    ensures GapIs(db, Expired(db, mem, a), a.lawId, 1, 1)
    ensures GapIs(db, ExpiredWithoutQuorum(db, mem, a), a.lawId, 1, 2)
  {
    hide *;
    ActivePointer(p, db, a);
    OpenPointer(p, db, a);
    HeldView(p, db, a.wid);
    ExpiredViews(db, mem, a);
    ExpiredWithoutQuorumViews(db, mem, a);
    ViewsLength(Expired(db, mem, a).steps, a.lawId);
    ViewsLength(ExpiredWithoutQuorum(db, mem, a).steps, a.lawId);
    ExpiryCases(ViewOf(db, a.lawId), Views(Expired(db, mem, a).steps, a.lawId), Views(ExpiredWithoutQuorum(db, mem, a).steps, a.lawId));
    GapFromViews(db, Expired(db, mem, a), a.lawId, 1, 1);
    GapFromViews(db, ExpiredWithoutQuorum(db, mem, a), a.lawId, 1, 2);
  }

  lemma OpenPointer(p: Platform, db: Db, a: Active)
    requires ActiveInStep(p, db, a)
    ensures a.wid in db.windows && db.windows[a.wid].result.None?
  {
  }

  lemma ExpiryCases(v: View, out: seq<View>, back: seq<View>)
    requires v.held && !v.queued && v.status == Some(InWindow)
    requires var w := v.(held := false);
      var gone, again := w.(status := Some(Status.Discarded)), w.(status := Some(PendingQueue));
      out == [w, gone, gone, gone] && back == [w, again, again.(queued := true), again.(queued := true)]
    ensures !Lost(v)
    ensures forall k :: 0 <= k < |out| ==> (Lost(out[k]) <==> k == 0)
    ensures forall k :: 0 <= k < |back| ==> (Lost(back[k]) <==> k < 2)
  {
  }

  /** Resolving a deliberation: from clear_deliberation until the law is in its window, discarded or queued. */
  lemma ResolutionGaps(p: Platform, cfg: Config, db: Db, mem: Mem, s: Senses, a: Announced, accepted: seq<string>, hash: Option<string>)
    requires Durable(p, db) && InStep(p, db, mem) && Whole(db, mem) && mem.deliberation == Some(a)
    ensures var e := PauseEnded(p, cfg, db, mem, s, a);
      var d := Final(db, e);
      var n := |e.steps|;
      && a.lawId in d.laws
      && GapIs(db, Then(e, OpenFrozen(p, d, e.mem, s, d.laws[a.lawId], Frozen(a, accepted))), a.lawId, n - 1, n + 4)
      && GapIs(db, Then(e, ThrownOut(d, e.mem, a.lawId, hash)), a.lawId, n - 1, n)
      && GapIs(db, Then(e, Requeued(d, e.mem, a.lawId)), a.lawId, n - 1, n + 1)
  {
    hide *;
    PauseLeaves(p, cfg, db, mem, s, a);
    var id, e := a.lawId, PauseEnded(p, cfg, db, mem, s, a);
    var d := Final(db, e);
    var law, f := d.laws[id], Frozen(a, accepted);
    OpenFrozenViews(p, d, e.mem, s, law, f);
    OpenedWindowCases(Views(OpenFrozen(p, d, e.mem, s, law, f).steps, id));
    AfterPause(p, cfg, db, mem, s, a, OpenFrozen(p, d, e.mem, s, law, f), 5);
    ThrownOutViews(d, e.mem, id, hash);
    OutCases(Views(ThrownOut(d, e.mem, id, hash).steps, id));
    AfterPause(p, cfg, db, mem, s, a, ThrownOut(d, e.mem, id, hash), 1);
    RequeuedViews(d, e.mem, id);
    BackCases(Views(Requeued(d, e.mem, id).steps, id));
    AfterPause(p, cfg, db, mem, s, a, Requeued(d, e.mem, id), 2);
  }

  lemma OpenedWindowCases(views: seq<View>)
    requires var v := View(Some(InDeliberation), false, false, false);
      views == [v, v, v.(status := Some(InWindow)), v.(status := Some(InWindow), queued := false),
                v.(status := Some(InWindow), queued := false, held := true)]
    ensures forall k :: 0 <= k < |views| ==> (Lost(views[k]) <==> k < 4)
  {
  }

  lemma OutCases(views: seq<View>)
    requires var v := View(Some(Status.Discarded), false, false, false); views == [v] || views == [v, v]
    ensures forall k :: 0 <= k < |views| ==> !Lost(views[k])
  {
  }

  lemma BackCases(views: seq<View>)
    requires var v := View(Some(PendingQueue), false, false, false); views == [v, v.(queued := true)]
    ensures forall k :: 0 <= k < |views| ==> (Lost(views[k]) <==> k < 1)
  {
  }

  /** The pause loses its law at its last two writes; next loses it until its m-th. */
  lemma AfterPause(p: Platform, cfg: Config, db: Db, mem: Mem, s: Senses, a: Announced, next: Exec, m: int)
    requires Durable(p, db) && InStep(p, db, mem) && Whole(db, mem) && mem.deliberation == Some(a)
    requires var d := Final(db, PauseEnded(p, cfg, db, mem, s, a)); About(d, next.steps, a.lawId) && m >= 1
    requires forall k :: 0 <= k < |Views(next.steps, a.lawId)| ==> (Lost(Views(next.steps, a.lawId)[k]) <==> k < m - 1)
    ensures var e := PauseEnded(p, cfg, db, mem, s, a);
      GapIs(db, Then(e, next), a.lawId, |e.steps| - 1, |e.steps| + m - 1)
  {
    hide *;
    var id, e := a.lawId, PauseEnded(p, cfg, db, mem, s, a);
    var n := |e.steps|;
    AnnouncedIsRemembered(p, db, mem);
    AnnouncedBoundary(p, db, mem);
    PauseEndedViews(p, cfg, db, mem, s, a);
    AboutThen(db, e, next, id);
    ThenShape(e, next);
    ViewsLength(e.steps, id);
    ViewsLength(next.steps, id);
    ViewsLength(Then(e, next).steps, id);
    var views := Views(e.steps, id);
    PauseCases(ViewOf(db, id), views, Judged(cfg, db, a).2.Some?);
    assert forall k :: 0 <= k < n ==> Views(Then(e, next).steps, id)[k] == views[k];
    assert forall k :: n <= k < |Then(e, next).steps| ==> Views(Then(e, next).steps, id)[k] == Views(next.steps, id)[k - n];
    GapFromViews(db, Then(e, next), id, n - 1, n + m - 1);
  }

  lemma PauseCases(v: View, views: seq<View>, counted: bool)
    requires !v.queued && !v.held && v.announced && v.status == Some(InDeliberation)
    requires views == (if counted then [v] else []) + [v, v.(announced := false), v.(announced := false)]
    ensures !Lost(v) && |views| >= 3 && forall k :: 0 <= k < |views| ==> (Lost(views[k]) <==> k >= |views| - 2)
  {
  }

  /** Recovering an announced law: from clear_deliberation until it is queued again, unless it still is queued. */
  lemma RecoveryGap(p: Platform, db: Db, mem: Mem)
    requires Durable(p, db) && db.deliberation.Some?
    requires var id := db.deliberation.value.lawId;
      id in db.laws && db.laws[id].status == InDeliberation
    ensures var id := db.deliberation.value.lawId;
      GapIs(db, RecoverDeliberation(db, mem), id, 1, if id in db.queue then 0 else 3)
  {
    hide *;
    var id, e := db.deliberation.value.lawId, RecoverDeliberation(db, mem);
    QueuedIsNotHeld(p, db, id);
    StatusOfView(db, id);
    RecoverViews(db, mem);
    ViewsLength(e.steps, id);
    var v := ViewOf(db, id);
    var w := v.(announced := false);
    RecoveryCases(v, [w, w, w.(status := Some(PendingQueue)), w.(status := Some(PendingQueue), queued := true)]);
    assert Views(e.steps, id) == [w, w, w.(status := Some(PendingQueue)), w.(status := Some(PendingQueue), queued := true)];
    GapFromViews(db, e, id, 1, if id in db.queue then 0 else 3);
  }

  lemma RecoveryCases(v: View, views: seq<View>)
    requires !v.held && v.announced && v.status == Some(InDeliberation)
    requires var w := v.(announced := false);
      views == [w, w, w.(status := Some(PendingQueue)), w.(status := Some(PendingQueue), queued := true)]
    ensures !Lost(v) && forall k :: 0 <= k < |views| ==> (Lost(views[k]) <==> !v.queued && k < 3)
  {
  }
}
