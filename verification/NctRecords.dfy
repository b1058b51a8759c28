/**
 What no handler ever undoes, at any write: blocks stay in the chain in their order, a window record changes only by
 being resolved, a resolved window stays resolved, and a law keeps its author.
 */
module NctRecords {
  import opened Wrappers
  import opened Platform
  import opened Text
  import opened Challenge
  import opened Categories
  import opened Laws
  import opened Chain
  import opened Store
  import opened Nct
  import opened NctInvariant
  import opened NctHandlers
  import opened NctRuns
  import opened NctSafety
  import Deliberation

  predicate WindowsKept(a: map<string, Window>, b: map<string, Window>) {
    forall wid :: wid in a ==> wid in b && (b[wid] == a[wid] || b[wid].result.Some?)
  }

  predicate AuthorsKept(a: map<string, Law>, b: map<string, Law>) {
    forall id :: id in a ==> id in b && b[id].author == a[id].author
  }

  ghost predicate Kept(db: Db, d: Db) {
    WindowsKept(db.windows, d.windows) && AuthorsKept(db.laws, d.laws) && Blocks(db) <= Blocks(d)
  }

  ghost predicate AllKept(db: Db, steps: seq<Db>) {
    forall i :: 0 <= i < |steps| ==> Kept(db, steps[i])
  }

  lemma KeptSelf(db: Db)
    ensures Kept(db, db)
  {
    hide Blocks;
  }

  lemma KeptTransitive(a: Db, b: Db, c: Db)
    requires Kept(a, b) && Kept(b, c)
    ensures Kept(a, c)
  {
    hide Blocks;
    assert forall wid :: wid in a.windows ==> wid in b.windows && wid in c.windows;
  }

  lemma KeptLast(db: Db, e: Exec)
    requires AllKept(db, e.steps)
    ensures Kept(db, Final(db, e))
  {
    KeptSelf(db);
    hide Kept;
  }

  lemma KeptThen(db: Db, e: Exec, next: Exec)
    requires AllKept(db, e.steps) && AllKept(Final(db, e), next.steps)
    ensures AllKept(db, Then(e, next).steps)
  {
    KeptLast(db, e);
    hide Kept;
    var steps := Then(e, next).steps;
    forall i | 0 <= i < |steps| ensures Kept(db, steps[i]) {
      if i >= |e.steps| {
        assert steps[i] == next.steps[i - |e.steps|];
        KeptTransitive(db, Final(db, e), steps[i]);
      }
    }
  }

  function Before(db: Db, steps: seq<Db>, i: nat): Db
    requires i < |steps|
  {
    if i == 0 then db else steps[i - 1]
  }

  /** Each write keeps what the one before it left. */
  ghost predicate Chained(db: Db, steps: seq<Db>) {
    forall i :: 0 <= i < |steps| ==> Kept(Before(db, steps, i), steps[i])
  }

  lemma {:induction false} ChainedKept(db: Db, steps: seq<Db>)
    requires Chained(db, steps)
    ensures AllKept(db, steps)
    decreases |steps|
  {
    hide Kept;
    if steps != [] {
      var n := |steps| - 1;
      forall i | 0 <= i < n ensures Kept(Before(db, steps[..n], i), steps[..n][i]) {
        assert Kept(Before(db, steps, i), steps[i]);
      }
      ChainedKept(db, steps[..n]);
      assert Kept(Before(db, steps, n), steps[n]);
      if n > 0 {
        assert Kept(db, steps[..n][n - 1]);
        KeptTransitive(db, steps[n - 1], steps[n]);
      }
    }
  }

  // ---- single writes ----

  /** Windows and chain untouched, authors kept. */
  lemma SideKept(db: Db, d: Db)
    requires d.windows == db.windows && d.chain == db.chain && d.blocks == db.blocks && AuthorsKept(db.laws, d.laws)
    ensures Kept(db, d)
  {
    hide GetChain;
  }

  lemma SameLaws(db: Db)
    ensures AuthorsKept(db.laws, db.laws)
  {
  }

  lemma LawKept(db: Db, id: string, law: Law)
    requires id in db.laws ==> law.author == db.laws[id].author
    ensures Kept(db, db.(laws := db.laws[id := law]))
  {
    SideKept(db, db.(laws := db.laws[id := law]));
  }

  lemma StatusKept(db: Db, id: string, status: Status)
    ensures Kept(db, SetLawStatus(db, id, status))
  {
    SideKept(db, SetLawStatus(db, id, status));
  }

  lemma WindowKept(db: Db, wid: string, w: Window)
    requires wid in db.windows ==> w.result.Some?
    ensures Kept(db, SaveWindow(db, wid, w))
  {
    hide GetChain;
  }

  lemma ResultKept(db: Db, wid: string, result: WindowResult, nonce: Option<int>, winner: Option<string>)
    ensures Kept(db, SetWindowResult(db, wid, result, nonce, winner))
  {
    hide Kept;
    KeptSelf(db);
    if wid in db.windows {
      WindowKept(db, wid, SetWindowResult(db, wid, result, nonce, winner).windows[wid]);
    }
  }

  lemma AppendKept(p: Platform, db: Db, b: Block)
    requires CollisionFree(p) && Linked(p, db.chain, db.blocks, db.windows) && IsHashValid(p, b)
    ensures Kept(db, AppendBlock(db, b).0)
  {
    if AppendBlock(db, b).1 {
      AppendExtends(p, db, b);
    }
    hide Blocks, Linked, ToFields, IsHashValid, CollisionFree;
  }

  // ---- stretches ----

  lemma InstalledKept(p: Platform, db: Db, mem: Mem, law: Law, o: Opening, s: Senses)
    requires o.wid !in db.windows
    ensures AllKept(db, Installed(p, db, mem, law, o, s).steps)
  {
    hide Kept, WindowOf, ActiveOf, ChallengeOf;
    var e := Installed(p, db, mem, law, o, s);
    var d1 := SaveWindow(db, o.wid, WindowOf(p, law, o, s));
    WindowKept(db, o.wid, WindowOf(p, law, o, s));
    var d2 := SetLawStatus(d1, law.lawId, InWindow);
    StatusKept(d1, law.lawId, InWindow);
    var d3 := RemoveFromQueue(d2, law.lawId);
    SideKept(d2, d3);
    SideKept(d3, SetActiveWindow(d3, o.wid));
    ChainedKept(db, e.steps);
  }

  lemma TurnTakenKept(db: Db, mem: Mem, law: Law)
    ensures AllKept(db, TurnTaken(db, mem, law).steps)
  {
    var steps := TurnTaken(db, mem, law).steps;
    SideKept(db, steps[0]);
    SideKept(db, steps[1]);
    hide Kept;
  }

  lemma MeasuredKept(p: Platform, cfg: Config, db: Db, mem: Mem, s: Senses, law: Law, voters: seq<Deliberation.Convocado>)
    requires ValidConfig(cfg)
    ensures AllKept(db, Measured(cfg, db, mem, s).steps)
    ensures AllKept(db, MeasuredFor(cfg, db, mem, law, voters).0.steps)
  {
    hide Kept;
    if cfg.dynamic {
      SideKept(db, Measured(cfg, db, mem, s).steps[0]);
      SideKept(db, MeasuredFor(cfg, db, mem, law, voters).0.steps[0]);
    }
  }

  lemma OneKept(db: Db, d: Db, mem: Mem)
    requires Kept(db, d)
    ensures AllKept(db, [d]) && AllKept(db, Exec([d], mem, []).steps) && Final(db, Exec([d], mem, [])) == d
  {
    hide Kept;
  }

  lemma CounterKept(db: Db)
    ensures Kept(db, NextWindowNumber(db))
  {
    SideKept(db, NextWindowNumber(db));
  }

  lemma AnnounceKept(db: Db, mem: Mem, a: Announced)
    ensures AllKept(db, Announce(db, mem, a).steps)
  {
    hide Kept;
    var d1 := SaveDeliberation(db, a);
    SideKept(db, d1);
    var d2 := SetLawStatus(d1, a.lawId, InDeliberation);
    StatusKept(d1, a.lawId, InDeliberation);
    SideKept(d2, RemoveFromQueue(d2, a.lawId));
    ChainedKept(db, Announce(db, mem, a).steps);
  }

  lemma VetoesKept(p: Platform, db: Db, mem: Mem, id: string, voters: seq<Deliberation.Convocado>)
    requires Durable(p, db)
    ensures var d := ClearDeliberationDecisions(db, id); AllKept(db, [d] + VetoSteps(d, id, voters))
  {
    var d := ClearDeliberationDecisions(db, id);
    DecisionsCleared(p, db, id);
    VetoStepsSound(p, d, id, voters);
    hide Durable, VetoSteps, Kept;
    var steps := [d] + VetoSteps(d, id, voters);
    forall i | 0 <= i < |steps| ensures Kept(db, steps[i]) {
      assert i > 0 ==> steps[i] == VetoSteps(d, id, voters)[i - 1];
      SideKept(db, steps[i]);
    }
  }

  lemma ThrownOutKept(db: Db, mem: Mem, id: string, textHash: Option<string>)
    ensures AllKept(db, ThrownOut(db, mem, id, textHash).steps)
  {
    hide Kept;
    var d := SetLawStatus(db, id, Status.Discarded);
    StatusKept(db, id, Status.Discarded);
    SideKept(d, MarkTextHashDiscarded(d, textHash.GetOr("")));
    ChainedKept(db, ThrownOut(db, mem, id, textHash).steps);
  }

  lemma RequeuedKept(db: Db, mem: Mem, id: string)
    ensures AllKept(db, Requeued(db, mem, id).steps)
  {
    hide Kept;
    var d := SetLawStatus(db, id, PendingQueue);
    StatusKept(db, id, PendingQueue);
    SideKept(d, EnqueueLaw(d, id));
    ChainedKept(db, Requeued(db, mem, id).steps);
  }

  lemma PauseWritesKept(db: Db, id: string, silences: int, r: DeliberationResult)
    ensures Kept(db, SetSilentDeliberations(db, id, silences)) && Kept(db, SaveDeliberationResult(db, id, r))
    ensures Kept(db, ClearDeliberation(db)) && Kept(db, ClearDeliberationDecisions(db, id))
  {
    SilenceKept(db, id, silences);
    SameLaws(db);
    hide Kept, Blocks, AuthorsKept, SetSilentDeliberations;
    SideKept(db, SaveDeliberationResult(db, id, r));
    SideKept(db, ClearDeliberation(db));
    SideKept(db, ClearDeliberationDecisions(db, id));
  }

  lemma SilenceKept(db: Db, id: string, silences: int)
    ensures Kept(db, SetSilentDeliberations(db, id, silences))
  {
    hide Kept, Blocks;
    SideKept(db, SetSilentDeliberations(db, id, silences));
  }

  lemma ChainOfThree(db: Db, d1: Db, d2: Db, d3: Db)
    requires Kept(db, d1) && Kept(d1, d2) && Kept(d2, d3)
    ensures AllKept(db, [d1, d2, d3])
  {
    hide Kept;
    KeptTransitive(db, d1, d2);
    KeptTransitive(db, d2, d3);
  }

  lemma PauseEndedKept(p: Platform, cfg: Config, db: Db, mem: Mem, s: Senses, a: Announced)
    ensures AllKept(db, PauseEnded(p, cfg, db, mem, s, a).steps)
  {
    hide *;
    var silences := Judged(cfg, db, a).2;
    var r := ResultOf(p, a, Judged(cfg, db, a).0, DeliberationDecisions(db, a.lawId), s);
    var d0 := if silences.Some? then SetSilentDeliberations(db, a.lawId, silences.value) else db;
    PauseWritesKept(db, a.lawId, silences.GetOr(0), r);
    var d1 := SaveDeliberationResult(d0, a.lawId, r);
    PauseWritesKept(d0, a.lawId, 0, r);
    var d2 := ClearDeliberation(d1);
    PauseWritesKept(d1, a.lawId, 0, r);
    var d3 := ClearDeliberationDecisions(d2, a.lawId);
    PauseWritesKept(d2, a.lawId, 0, r);
    PauseEndedShape(p, cfg, db, mem, s, a, d0, r);
    ChainOfThree(d0, d1, d2, d3);
    if silences.Some? {
      SomeValue(silences, 0);
      OneKept(db, d0, mem);
      KeptThen(db, Exec([d0], mem, []), Exec([d1, d2, d3], mem, []));
      ThenShape(Exec([d0], mem, []), Exec([d1, d2, d3], mem, []));
    }
    assert [] + [d1, d2, d3] == [d1, d2, d3];
  }

  lemma SomeValue(o: Option<int>, default: int)
    requires o.Some?
    ensures o.GetOr(default) == o.value
  {
  }

  lemma CloseSealedKept(db: Db, mem: Mem, wid: string, id: string, action: Action, nonce: int, winner: string)
    ensures AllKept(db, CloseSealed(db, mem, wid, id, action, nonce, winner).steps)
  {
    hide Kept;
    var d1 := SetWindowResult(db, wid, Sealed, Some(nonce), Some(winner));
    ResultKept(db, wid, Sealed, Some(nonce), Some(winner));
    var status := if action == Derogacion then Repealed else Promulgated;
    StatusKept(d1, id, status);
    var d2 := SetLawStatus(d1, id, status);
    SideKept(d2, ClearActiveWindow(d2));
    ChainedKept(db, CloseSealed(db, mem, wid, id, action, nonce, winner).steps);
  }

  lemma ExpiredKept(db: Db, mem: Mem, a: Active)
    ensures AllKept(db, Expired(db, mem, a).steps) && AllKept(db, ExpiredWithoutQuorum(db, mem, a).steps)
  {
    hide *;
    var law := GetLaw(db, a.lawId);
    var textHash := if law.Some? then Some(law.value.textHash) else None;
    var d1 := SetWindowResult(db, a.wid, ExpiredPending, None, None);
    ResultKept(db, a.wid, ExpiredPending, None, None);
    ThrownOutKept(d1, mem, a.lawId, textHash);
    ExpiredShape(db, mem, a, d1, textHash);
    ClearedKept(db, d1, ThrownOut(d1, mem, a.lawId, textHash));
    var d2 := SetWindowResult(db, a.wid, ExpiredNoQuorum, None, None);
    ResultKept(db, a.wid, ExpiredNoQuorum, None, None);
    RequeuedKept(d2, mem, a.lawId);
    ExpiredWithoutQuorumShape(db, mem, a, d2);
    ClearedKept(db, d2, Requeued(d2, mem, a.lawId));
  }

  lemma ClearedKept(db: Db, first: Db, middle: Exec)
    requires Kept(db, first) && AllKept(first, middle.steps)
    ensures AllKept(db, [first] + middle.steps + [ClearActiveWindow(Final(first, middle))])
  {
    var d := Final(first, middle);
    SideKept(d, ClearActiveWindow(d));
    hide Kept;
    var head := Exec([first], middle.mem, []);
    OneKept(db, first, middle.mem);
    KeptThen(db, head, middle);
    var last := Exec([ClearActiveWindow(d)], middle.mem, []);
    OneKept(d, ClearActiveWindow(d), middle.mem);
    FinalOfThen(db, head, middle);
    KeptThen(db, Then(head, middle), last);
    assert Then(Then(head, middle), last).steps == [first] + middle.steps + [ClearActiveWindow(d)];
  }

  // ---- handlers ----

  lemma OpenFrozenKept(p: Platform, db: Db, mem: Mem, s: Senses, law: Law, f: Frozen)
    requires Durable(p, db)
    ensures AllKept(db, OpenFrozen(p, db, mem, s, law, f).steps)
  {
    hide *;
    var d := NextWindowNumber(db);
    CounterKept(db);
    OneKept(db, d, mem);
    OpenFrozenShape(p, db, mem, s, law, f);
    FreshWindow(p, db, d.counter, law.lawId + "-" + s.salt);
    var o := OpeningFrozen(d.counter, law, mem, s, f);
    InstalledKept(p, d, mem, law, o, s);
    KeptThen(db, Exec([d], mem, []), Installed(p, d, mem, law, o, s));
  }

  lemma OpenDirectKept(p: Platform, cfg: Config, db: Db, mem: Mem, s: Senses, law: Law)
    requires Assumptions(p, cfg) && Durable(p, db)
    ensures AllKept(db, OpenDirect(p, cfg, db, mem, s, law).steps)
  {
    hide *;
    AssumedConfig(p, cfg);
    var d := NextWindowNumber(db);
    OpenDirectShape(p, cfg, db, mem, s, law);
    CounterUp(p, db);
    CounterKept(db);
    OneKept(db, d, mem);
    var m := Measured(cfg, d, mem, s);
    MeasuredKept(p, cfg, d, mem, s, law, []);
    MeasuredSound(p, cfg, d, mem, s);
    var e1 := Then(Exec([d], mem, []), m);
    KeptThen(db, Exec([d], mem, []), m);
    FinalOfThen(db, Exec([d], mem, []), m);
    var d1 := Final(db, e1);
    FreshWindow(p, db, d.counter, law.lawId);
    var o := OpeningDirect(cfg, d.counter, law, e1.mem, s);
    var i := Installed(p, d1, e1.mem, law, o, s);
    InstalledKept(p, d1, e1.mem, law, o, s);
    var e2 := Then(e1, i);
    KeptThen(db, e1, i);
    TurnTakenKept(Final(db, e2), e2.mem, law);
    KeptThen(db, e2, TurnTaken(Final(db, e2), e2.mem, law));
  }

  lemma OpenDirectShape(p: Platform, cfg: Config, db: Db, mem: Mem, s: Senses, law: Law)
    requires ValidConfig(cfg)
    ensures var d := NextWindowNumber(db);
      var m := Measured(cfg, d, mem, s);
      var e1 := Then(Exec([d], mem, []), m);
      var o := OpeningDirect(cfg, d.counter, law, e1.mem, s);
      var e2 := Then(e1, Installed(p, Final(db, e1), e1.mem, law, o, s));
      && OpenDirect(p, cfg, db, mem, s, law) == Then(e2, TurnTaken(Final(db, e2), e2.mem, law))
      && o.wid == WindowId(d.counter, law.lawId) && d == db.(counter := db.counter + 1)
  {
    hide Measured, Installed, TurnTaken, WindowId, Final, Then;
  }

  lemma StartDeliberationKept(p: Platform, cfg: Config, db: Db, mem: Mem, s: Senses, law: Law)
    requires Assumptions(p, cfg) && Durable(p, db)
    ensures AllKept(db, StartDeliberation(p, cfg, db, mem, s, law).steps)
  {
    hide *;
    AssumedConfig(p, cfg);
    var voters := VotersFor(cfg, s, law);
    var e1 := MeasuredFor(cfg, db, mem, law, voters).0;
    var a := AnnouncementOf(p, cfg, mem, s, law, voters, MeasuredFor(cfg, db, mem, law, voters).1);
    MeasuredForSound(p, cfg, db, mem, law, voters);
    MeasuredKept(p, cfg, db, mem, s, law, voters);
    var d := ClearDeliberationDecisions(Final(db, e1), law.lawId);
    var veto := Exec([d] + VetoSteps(d, law.lawId, voters), mem, []);
    VetoesKept(p, Final(db, e1), mem, law.lawId, voters);
    var e2 := Then(e1, veto);
    KeptThen(db, e1, veto);
    var announce := Announce(Final(db, e2), mem, a);
    AnnounceKept(Final(db, e2), mem, a);
    var e3 := Then(e2, announce);
    KeptThen(db, e2, announce);
    TurnTakenKept(Final(db, e3), mem, law);
    KeptThen(db, e3, TurnTaken(Final(db, e3), mem, law));
    StartDeliberationShape(p, cfg, db, mem, s, law, e1, veto, a);
  }

  lemma NothingKept(db: Db, mem: Mem)
    ensures AllKept(db, Idle(mem).steps) && AllKept(db, [])
  {
  }

  lemma MaybeOpenKept(p: Platform, cfg: Config, db: Db, mem: Mem, s: Senses)
    requires Assumptions(p, cfg) && Durable(p, db)
    ensures AllKept(db, MaybeOpen(p, cfg, db, mem, s).steps)
  {
    hide NextLaw, StartDeliberation, OpenDirect, Durable, AllKept;
    NothingKept(db, mem);
    if mem.isLeader && mem.active.None? && mem.deliberation.None? {
      var next := NextLaw(cfg, db, mem, s);
      if next.Some? {
        StartDeliberationKept(p, cfg, db, mem, s, next.value);
        OpenDirectKept(p, cfg, db, mem, s, next.value);
      }
    }
  }

  lemma AndMaybeOpenKept(p: Platform, cfg: Config, db: Db, e: Exec, s: Senses)
    requires Assumptions(p, cfg) && Durable(p, Final(db, e)) && AllKept(db, e.steps)
    ensures AllKept(db, AndMaybeOpen(p, cfg, db, e, s).steps)
  {
    hide Durable, AllKept, MaybeOpen;
    MaybeOpenKept(p, cfg, Final(db, e), e.mem, s);
    KeptThen(db, e, MaybeOpen(p, cfg, Final(db, e), e.mem, s));
  }

  lemma ResolveDeliberationKept(p: Platform, cfg: Config, db: Db, mem: Mem, s: Senses, a: Announced)
    requires Assumptions(p, cfg) && Durable(p, db) && InStep(p, db, mem) && mem.deliberation == Some(a)
    ensures AllKept(db, ResolveDeliberation(p, cfg, db, mem, s, a).steps)
  {
    hide *;
    AssumedConfig(p, cfg);
    RememberedAnnouncement(p, db, mem);
    PauseEndedSound(p, cfg, db, mem, s, a);
    PauseEndedKept(p, cfg, db, mem, s, a);
    ResolveShape(p, cfg, db, mem, s, a);
    var (outcome, accepted, _) := Judged(cfg, db, a);
    var e := PauseEnded(p, cfg, db, mem, s, a);
    var d := Final(db, e);
    var law := d.laws[a.lawId];
    QueuedIsNotHeld(p, d, a.lawId);
    match outcome
    case Open =>
      OpenFrozenKept(p, d, e.mem, s, law, Frozen(a, accepted));
      KeptThen(db, e, OpenFrozen(p, d, e.mem, s, law, Frozen(a, accepted)));
    case Discard =>
      ThrownOutStretch(p, cfg, db, e, s, a.lawId, Some(law.textHash));
    case Unanswered =>
      ThrownOutStretch(p, cfg, db, e, s, a.lawId, None);
    case Requeue =>
      RequeuedSound(p, d, e.mem, a.lawId);
      RequeuedKept(d, e.mem, a.lawId);
      KeptThen(db, e, Requeued(d, e.mem, a.lawId));
      FinalOfThen(db, e, Requeued(d, e.mem, a.lawId));
      AndMaybeOpenKept(p, cfg, db, Then(e, Requeued(d, e.mem, a.lawId)), s);
  }

  lemma RememberedAnnouncement(p: Platform, db: Db, mem: Mem)
    requires InStep(p, db, mem) && mem.deliberation.Some?
    ensures AnnouncedInStep(db, mem.deliberation.value)
  {
  }

  /** The four ways a deliberation ends. */
  lemma ResolveShape(p: Platform, cfg: Config, db: Db, mem: Mem, s: Senses, a: Announced)
    requires ValidConfig(cfg) && a.lawId in Final(db, PauseEnded(p, cfg, db, mem, s, a)).laws
    ensures var (outcome, accepted, _) := Judged(cfg, db, a);
      var e := PauseEnded(p, cfg, db, mem, s, a);
      var d := Final(db, e);
      var law := d.laws[a.lawId];
      ResolveDeliberation(p, cfg, db, mem, s, a) ==
        match outcome
        case Open => Then(e, OpenFrozen(p, d, e.mem, s, law, Frozen(a, accepted)))
        case Discard => AndMaybeOpen(p, cfg, db, Then(e, ThrownOut(d, e.mem, a.lawId, Some(law.textHash))), s)
        case Unanswered => AndMaybeOpen(p, cfg, db, Then(e, ThrownOut(d, e.mem, a.lawId, None)), s)
        case Requeue => AndMaybeOpen(p, cfg, db, Then(e, Requeued(d, e.mem, a.lawId)), s)
  {
    hide Judged, PauseEnded, AndMaybeOpen, OpenFrozen, ThrownOut, Requeued, Then, Final;
  }

  lemma ThrownOutStretch(p: Platform, cfg: Config, db: Db, e: Exec, s: Senses, id: string, textHash: Option<string>)
    requires Assumptions(p, cfg) && AllKept(db, e.steps)
    requires Durable(p, Final(db, e)) && id in Final(db, e).laws && !Holds(Final(db, e), id)
    ensures AllKept(db, AndMaybeOpen(p, cfg, db, Then(e, ThrownOut(Final(db, e), e.mem, id, textHash)), s).steps)
  {
    hide *;
    AssumedConfig(p, cfg);
    var next := ThrownOut(Final(db, e), e.mem, id, textHash);
    ThrownOutSound(p, Final(db, e), e.mem, id, textHash);
    ThrownOutKept(Final(db, e), e.mem, id, textHash);
    KeptThen(db, e, next);
    FinalOfThen(db, e, next);
    AndMaybeOpenKept(p, cfg, db, Then(e, next), s);
  }

  lemma CheckDeliberationKept(p: Platform, cfg: Config, db: Db, mem: Mem, s: Senses)
    requires Assumptions(p, cfg) && Durable(p, db) && InStep(p, db, mem)
    ensures AllKept(db, CheckDeliberation(p, cfg, db, mem, s).steps)
  {
    hide Durable, ResolveDeliberation, InStep, AllKept, Deliberation.AllAnswered;
    NothingKept(db, mem);
    if mem.deliberation.Some? {
      ResolveDeliberationKept(p, cfg, db, mem, s, mem.deliberation.value);
    }
  }

  lemma EnqueuedKept(db: Db, d1: Db, id: string, author: string, until: int, reason: CooldownReason)
    requires Kept(db, d1) && id in d1.laws
    ensures var d2 := SetLawRequestedBy(d1, id, author);
      var d3 := EnqueueLaw(d2, id);
      AllKept(db, [d1, d2, d3, SetCooldown(d3, author, until, reason)])
  {
    hide Kept, Blocks;
    var d2 := SetLawRequestedBy(d1, id, author);
    SideKept(d1, d2);
    var d3 := EnqueueLaw(d2, id);
    SideKept(d2, d3);
    SideKept(d3, SetCooldown(d3, author, until, reason));
    ChainedKept(db, [d1, d2, d3, SetCooldown(d3, author, until, reason)]);
  }

  lemma EnqueueKept(cfg: Config, db: Db, mem: Mem, m: Proposal, category: string)
    ensures m.lawId !in db.laws ==> AllKept(db, EnqueuePromulgacion(cfg, db, mem, m, category).steps)
    ensures AllKept(db, EnqueueDerogacion(cfg, db, mem, m).steps)
  {
    hide *;
    var id := m.lawId;
    EnqueueDerogacionShape(cfg, db, mem, m);
    NothingKept(db, mem);
    if id in db.laws {
      var d1 := SetLawAction(db, id, Derogacion);
      SetActionShape(db, id);
      LawKept(db, id, d1.laws[id]);
      var d3 := EnqueueLaw(SetLawRequestedBy(d1, id, m.author), id);
      EnqueuedKept(db, d1, id, m.author, CooldownUntil(cfg, d3, ProposedNew), ProposedNew);
    } else {
      var reason := if m.textHash in db.discarded then ReproposedIdentical else ProposedNew;
      var d1 := SaveLaw(db, id, m.author, m.textHash, m.createdAt, category, m.textCompressed, m.textOriginalLen);
      SaveLawShape(db, m, category);
      LawKept(db, id, d1.laws[id]);
      var d3 := EnqueueLaw(SetLawRequestedBy(d1, id, m.author), id);
      EnqueuedKept(db, d1, id, m.author, CooldownUntil(cfg, d3, reason), reason);
      EnqueuePromulgacionShape(cfg, db, mem, m, category);
    }
  }

  lemma HandleProposalKept(p: Platform, cfg: Config, db: Db, mem: Mem, s: Senses, m: Proposal)
    requires Assumptions(p, cfg) && Durable(p, db) && InStep(p, db, mem)
    requires m.action == Promulgacion ==> m.lawId !in db.laws
    ensures AllKept(db, HandleProposal(p, cfg, db, mem, s, m).steps)
  {
    hide Durable, InStep, AllKept, AndMaybeOpen, EnqueueDerogacion, EnqueuePromulgacion, ValidateCategory;
    NothingKept(db, mem);
    var category := ValidateCategory(m.category);
    if m.action == Derogacion {
      EnqueueDerogacionSound(p, cfg, db, mem, m);
      EnqueueKept(cfg, db, mem, m, "");
      AndMaybeOpenKept(p, cfg, db, EnqueueDerogacion(cfg, db, mem, m), s);
    } else if category.Success? {
      EnqueuePromulgacionSound(p, cfg, db, mem, m, category.value);
      EnqueueKept(cfg, db, mem, m, category.value);
      AndMaybeOpenKept(p, cfg, db, EnqueuePromulgacion(cfg, db, mem, m, category.value), s);
    }
  }

  lemma GuardKept(db: Db, wid: string, winner: string)
    ensures Kept(db, TrySealWindow(db, wid, winner).0) && Kept(db, ReleaseWindowSeal(db, wid))
  {
    hide Kept, Blocks;
    SideKept(db, TrySealWindow(db, wid, winner).0);
    SideKept(db, ReleaseWindowSeal(db, wid));
  }

  lemma DurableLinked(p: Platform, db: Db)
    requires Durable(p, db)
    ensures Linked(p, db.chain, db.blocks, db.windows)
  {
  }

  lemma SealKept(p: Platform, db: Db, mem: Mem, s: Senses, a: Active, nonce: int, winner: string)
    requires CollisionFree(p) && Durable(p, db) && mem.deliberation.None?
    requires db.active == Some(a.wid) && a.wid in db.windows && db.windows[a.wid].result.None? && !LastIs(Blocks(db), a.wid)
    requires Rebuilt(p, a.wid, db.windows[a.wid], GetLaw(db, db.windows[a.wid].lawId)) == Some(a)
    requires VerifyNonce(p, a.base, nonce, a.nZeros)
    ensures AllKept(db, Seal(p, db, mem, s, a, nonce, winner).steps)
  {
    hide *;
    var b := BlockOf(p, db, a, nonce, winner, s);
    SealSound(p, db, mem, s, a, nonce, winner);
    SealShape(p, db, mem, s, a, nonce, winner);
    BlockIsFromWindow(p, db, a, nonce, winner, s);
    DurableLinked(p, db);
    AppendKept(p, db, b);
    var d := AppendBlock(db, b).0;
    OneKept(db, d, mem);
    CloseSealedKept(d, mem, a.wid, a.lawId, a.action, nonce, winner);
    KeptThen(db, Exec([d], mem, []), CloseSealed(d, mem, a.wid, a.lawId, a.action, nonce, winner));
  }

  lemma HandleNonceKept(p: Platform, cfg: Config, db: Db, mem: Mem, s: Senses, m: Solution)
    requires Assumptions(p, cfg) && Durable(p, db) && InStep(p, db, mem)
    ensures AllKept(db, HandleNonce(p, cfg, db, mem, s, m).steps)
  {
    hide *;
    AssumedConfig(p, cfg);
    HandleNonceShape(p, cfg, db, mem, s, m);
    NothingKept(db, mem);
    if mem.active.Some? && VerifyNonce(p, mem.active.value.base, m.nonce, mem.active.value.nZeros) {
      var a := mem.active.value;
      ActiveMemory(p, db, mem);
      GuardTaken(p, db, a, WinnerName(m.winner));
      GuardKept(db, a.wid, WinnerName(m.winner));
      var d := TrySealWindow(db, a.wid, WinnerName(m.winner)).0;
      OneKept(db, d, mem);
      var next := Seal(p, d, mem, s, a, m.nonce, m.winner);
      SealSound(p, d, mem, s, a, m.nonce, m.winner);
      SealKept(p, d, mem, s, a, m.nonce, m.winner);
      KeptThen(db, Exec([d], mem, []), next);
      FinalOfThen(db, Exec([d], mem, []), next);
      SoundFinal(p, d, next);
      AndMaybeOpenKept(p, cfg, db, Then(Exec([d], mem, []), next), s);
    }
  }

  lemma SoundFinal(p: Platform, db: Db, e: Exec)
    requires Sound(p, db, e)
    ensures Durable(p, Final(db, e)) && InStep(p, Final(db, e), e.mem)
  {
  }

  lemma CheckDeadlineKept(p: Platform, cfg: Config, db: Db, mem: Mem, s: Senses)
    requires Assumptions(p, cfg) && Durable(p, db) && InStep(p, db, mem)
    ensures AllKept(db, CheckDeadline(p, cfg, db, mem, s).steps)
  {
    hide *;
    AssumedConfig(p, cfg);
    CheckDeadlineShape(p, cfg, db, mem, s);
    NothingKept(db, mem);
    if mem.active.Some? {
      var a := mem.active.value;
      ActiveMemory(p, db, mem);
      ExpiredSound(p, db, mem, a);
      ExpiredKept(db, mem, a);
      SoundFinal(p, db, Expired(db, mem, a));
      SoundFinal(p, db, ExpiredWithoutQuorum(db, mem, a));
      AndMaybeOpenKept(p, cfg, db, Expired(db, mem, a), s);
      AndMaybeOpenKept(p, cfg, db, ExpiredWithoutQuorum(db, mem, a), s);
    }
  }

  lemma PointerClearedKept(db: Db)
    ensures Kept(db, ClearActiveWindow(db))
  {
    hide Kept, Blocks;
    SideKept(db, ClearActiveWindow(db));
  }

  lemma ResumeKept(p: Platform, db: Db, mem: Mem)
    requires Durable(p, db)
    ensures AllKept(db, Resume(p, db, mem).steps)
  {
    hide *;
    ResumeShape(p, db, mem);
    NothingKept(db, mem.(active := None));
    if db.active.Some? {
      var wid := db.active.value;
      PointerKnown(p, db);
      LastBlockShows(p, db, wid);
      PointerClearedKept(db);
      OneKept(db, ClearActiveWindow(db), mem);
      GuardKept(db, wid, "");
      OneKept(db, ReleaseWindowSeal(db, wid), mem);
      if db.windows[wid].result.None? {
        if LastIs(Blocks(db), wid) {
          var w, last := db.windows[wid], GetBlock(db.blocks, LastBlockHash(db)).value;
          CloseSealedKept(db, mem, wid, w.lawId, w.action, last.nonce, last.winningNodeOrPool);
        } else {
          RebuiltInStep(p, db, wid);
        }
      }
    }
  }

  lemma ResumeRecoverSound(p: Platform, db: Db, mem: Mem)
    requires Durable(p, db) && mem.isLeader && mem.deliberation.None?
    ensures var e1 := Resume(p, db, mem); Sound(p, db, Then(e1, RecoverDeliberation(Final(db, e1), e1.mem)))
  {
    hide *;
    var e1 := Resume(p, db, mem);
    ResumeSound(p, db, mem);
    SoundFinal(p, db, e1);
    RecoverDeliberationSound(p, Final(db, e1), e1.mem);
    SoundPart(p, db, e1);
    SoundThen(p, db, e1, RecoverDeliberation(Final(db, e1), e1.mem));
  }

  lemma SoundPart(p: Platform, db: Db, e: Exec)
    requires Sound(p, db, e)
    ensures AllDurable(p, e.steps)
  {
  }

  lemma RecoverKept(p: Platform, db: Db, mem: Mem)
    requires Durable(p, db)
    ensures AllKept(db, RecoverDeliberation(db, mem).steps)
  {
    hide *;
    var e := RecoverDeliberation(db, mem);
    if db.deliberation.None? {
      RecoverNothing(db, mem);
      NothingKept(db, mem.(deliberation := None));
    } else {
      var id := db.deliberation.value.lawId;
      RecoverShape(db, mem);
      var d1 := ClearDeliberation(db);
      var d2 := ClearDeliberationDecisions(d1, id);
      AnswersKept(db, id);
      var head, back := Exec([d1, d2], mem, []), Requeued(d2, mem, id);
      FinalIsLast(db, head);
      RequeuedKept(d2, mem, id);
      KeptThen(db, head, back);
      ThenShape(head, back);
      assert [d1, d2] + [] == [d1, d2];
    }
  }

  lemma AnswersKept(db: Db, id: string)
    ensures var d1 := ClearDeliberation(db); AllKept(db, [d1, ClearDeliberationDecisions(d1, id)])
  {
    hide Kept, Blocks;
    var d1 := ClearDeliberation(db);
    SideKept(db, d1);
    SideKept(d1, ClearDeliberationDecisions(d1, id));
    ChainedKept(db, [d1, ClearDeliberationDecisions(d1, id)]);
  }

  lemma BecomeLeaderKept(p: Platform, cfg: Config, db: Db, mem: Mem, s: Senses)
    requires Assumptions(p, cfg) && Durable(p, db) && InStep(p, db, mem)
    ensures AllKept(db, BecomeLeader(p, cfg, db, mem, s).steps)
  {
    hide *;
    AssumedConfig(p, cfg);
    NothingKept(db, mem);
    BecomeLeaderShape(p, cfg, db, mem, s);
    if !mem.isLeader {
      FollowerIsBlank(p, db, mem);
      var leading := mem.(isLeader := true, lastAuthor := db.lastAuthor);
      var e1 := Resume(p, db, leading);
      ResumeSound(p, db, leading);
      ResumeKept(p, db, leading);
      SoundFinal(p, db, e1);
      var d1 := Final(db, e1);
      var r := RecoverDeliberation(d1, e1.mem);
      RecoverDeliberationSound(p, d1, e1.mem);
      RecoverKept(p, d1, e1.mem);
      SoundFinal(p, d1, r);
      var e2 := Then(e1, r);
      KeptThen(db, e1, r);
      FinalOfThen(db, e1, r);
      ThenShape(e1, r);
      var c := CheckDeadline(p, cfg, Final(db, e2), e2.mem, s);
      CheckDeadlineSound(p, cfg, Final(db, e2), e2.mem, s);
      CheckDeadlineKept(p, cfg, Final(db, e2), e2.mem, s);
      SoundFinal(p, Final(db, e2), c);
      KeptThen(db, e2, c);
      FinalOfThen(db, e2, c);
      AndMaybeOpenKept(p, cfg, db, Then(e2, c), s);
    }
  }

  lemma FollowerIsBlank(p: Platform, db: Db, mem: Mem)
    requires InStep(p, db, mem) && !mem.isLeader
    ensures mem.active.None? && mem.deliberation.None?
  {
  }

  lemma BecomeLeaderShape(p: Platform, cfg: Config, db: Db, mem: Mem, s: Senses)
    requires ValidConfig(cfg)
    ensures var e1 := Resume(p, db, mem.(isLeader := true, lastAuthor := db.lastAuthor));
      var e2 := Then(e1, RecoverDeliberation(Final(db, e1), e1.mem));
      var e3 := Then(e2, CheckDeadline(p, cfg, Final(db, e2), e2.mem, s));
      BecomeLeader(p, cfg, db, mem, s) == if mem.isLeader then Idle(mem) else AndMaybeOpen(p, cfg, db, e3, s)
  {
    hide Resume, RecoverDeliberation, CheckDeadline, AndMaybeOpen, Then, Final;
  }

  // ---- runs ----

  lemma HandledKept(p: Platform, cfg: Config, db: Db, mem: Mem, s: Senses, ev: Event)
    requires Assumptions(p, cfg) && Durable(p, db) && InStep(p, db, mem) && FreshLaw(db, ev)
    ensures AllKept(db, Handled(p, cfg, db, mem, s, ev).steps)
  {
    hide Durable, InStep, AllKept, Assumptions, HandleProposal, HandleNonce, CheckDeliberation, CheckDeadline, MaybeOpen, BecomeLeader;
    match ev
    case Proposed(m) => HandleProposalKept(p, cfg, db, mem, s, m);
    case Answered(m) => HandleNonceKept(p, cfg, db, mem, s, m);
    case DeliberationTick => CheckDeliberationKept(p, cfg, db, mem, s);
    case DeadlineTick => CheckDeadlineKept(p, cfg, db, mem, s);
    case OpenTick => MaybeOpenKept(p, cfg, db, mem, s);
    case Promoted => BecomeLeaderKept(p, cfg, db, mem, s);
  }

  lemma KeptAt(db: Db, e: Exec, k: nat)
    requires AllKept(db, e.steps) && k <= |e.steps|
    ensures Kept(db, StoreAt(db, e, k))
  {
    KeptSelf(db);
    hide Kept;
  }

  lemma StepKept(p: Platform, cfg: Config, sys: System, step: Step)
    requires Assumptions(p, cfg) && Durable(p, sys.db) && InStep(p, sys.db, sys.mem) && Legal(p, cfg, sys, step)
    ensures Kept(sys.db, After(p, cfg, sys, step).db)
  {
    AssumedConfig(p, cfg);
    hide Durable, InStep, Handled, Kept, AllKept, SteppedDown, ReleaseWindowSeal, SetDeliberationDecision, Assumptions;
    KeptSelf(sys.db);
    match step
    case Handle(ev, s) =>
      HandledKept(p, cfg, sys.db, sys.mem, s, ev);
      KeptLast(sys.db, Handled(p, cfg, sys.db, sys.mem, s, ev));
    case Crash(ev, s, k, next) =>
      HandledKept(p, cfg, sys.db, sys.mem, s, ev);
      KeptAt(sys.db, Handled(p, cfg, sys.db, sys.mem, s, ev), k);
    case Replace(next) =>
    case StepDown =>
    case GuardLapses(wid) => GuardKept(sys.db, wid, "");
    case Vote(id, voter, decision) => VoteKept(sys.db, id, voter, decision);
  }

  lemma VoteKept(db: Db, id: string, voter: string, decision: string)
    ensures Kept(db, SetDeliberationDecision(db, id, voter, decision))
  {
    hide Kept, Blocks;
    SideKept(db, SetDeliberationDecision(db, id, voter, decision));
  }

  /** Over any run, with any crashes and takeovers, the chain is only ever extended, resolved windows stay resolved,
      and open windows keep their record. */
  lemma {:induction false} HistoryIsKept(p: Platform, cfg: Config, systems: seq<System>, run: seq<Step>, i: nat, j: nat)
    requires Assumptions(p, cfg) && Execution(p, cfg, systems, run) && i <= j < |systems|
    requires Durable(p, systems[i].db) && InStep(p, systems[i].db, systems[i].mem)
    ensures Blocks(systems[i].db) <= Blocks(systems[j].db)
    ensures WindowsKept(systems[i].db.windows, systems[j].db.windows) && AuthorsKept(systems[i].db.laws, systems[j].db.laws)
    decreases j
  {
    hide *;
    AssumedConfig(p, cfg);
    ExecutionLength(p, cfg, systems, run);
    KeptSelf(systems[i].db);
    if i < j {
      var before := systems[j - 1];
      HistoryIsKept(p, cfg, systems, run, i, j - 1);
      RunKeeps(p, cfg, systems, run, i, j - 1);
      TakeStep(p, cfg, systems, run, j - 1);
      StepKept(p, cfg, before, run[j - 1]);
      KeptIs(systems[i].db, before.db);
      KeptTransitive(systems[i].db, before.db, systems[j].db);
    }
    KeptIs(systems[i].db, systems[j].db);
  }

  lemma KeptIs(db: Db, d: Db)
    ensures Kept(db, d) <==> Blocks(db) <= Blocks(d) && WindowsKept(db.windows, d.windows) && AuthorsKept(db.laws, d.laws)
  {
  }
}
