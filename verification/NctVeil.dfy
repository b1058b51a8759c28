/**
 A leader that was never told of the open window or of the announced law does the same whether they are there or not, write by
 write: what it does not know of stays behind a veil until it writes over it.
 */
module NctVeil {
  import opened Wrappers
  import opened Platform
  import opened Text
  import opened Challenge
  import opened Categories
  import opened Laws
  import opened Chain
  import opened Store
  import opened Nct
  import opened NctInvariant
  import opened NctHandlers
  import opened NctRuns
  import opened NctSafety
  import opened NctRecords
  import opened NctConservation
  import opened NctFailover
  import opened NctLedger
  import Deliberation

  /** The store as far as this memory knows it. */
  function Known(db: Db, mem: Mem): Db {
    if !mem.isLeader then db
    else db.(active := if mem.active.None? then None else db.active,
             deliberation := if mem.deliberation.None? then None else db.deliberation)
  }

  /** v is d, but for a pointer h or an announcement g that it may lack. */
  predicate Veils(h: Option<string>, g: Option<Announced>, d: Db, v: Db) {
    && v == d.(active := v.active, deliberation := v.deliberation)
    && (v.active == d.active || (v.active == None && d.active == h))
    && (v.deliberation == d.deliberation || (v.deliberation == None && d.deliberation == g))
  }

  /** The same writes, with and without the veil, and the same memory after them. */
  ghost predicate Lockstep(h: Option<string>, g: Option<Announced>, e: Exec, f: Exec) {
    && |e.steps| == |f.steps| && e.mem == f.mem
    && forall i :: 0 <= i < |e.steps| ==> Veils(h, g, e.steps[i], f.steps[i])
  }

  /** The pointer and the announcement a leader was never told of. */
  function MissedPointer(db: Db, mem: Mem): Option<string> {
    if mem.active.None? then db.active else None
  }

  function MissedPause(db: Db, mem: Mem): Option<Announced> {
    if mem.deliberation.None? then db.deliberation else None
  }

  lemma KnownVeils(db: Db, mem: Mem)
    ensures Veils(MissedPointer(db, mem), MissedPause(db, mem), db, Known(db, mem))
  {
  }

  lemma LastVeils(h: Option<string>, g: Option<Announced>, d: Db, v: Db, e: Exec, f: Exec)
    requires Veils(h, g, d, v) && Lockstep(h, g, e, f)
    ensures Veils(h, g, Final(d, e), Final(v, f))
  {
    hide Veils;
  }

  lemma ThenLocks(h: Option<string>, g: Option<Announced>, e: Exec, f: Exec, next: Exec, more: Exec)
    requires Lockstep(h, g, e, f) && Lockstep(h, g, next, more)
    ensures Lockstep(h, g, Then(e, next), Then(f, more))
  {
    hide Veils;
  }

  lemma IdleLocks(h: Option<string>, g: Option<Announced>, mem: Mem)
    ensures Lockstep(h, g, Idle(mem), Idle(mem))
  {
  }

  // ---- single writes ----

  lemma OneLocks(h: Option<string>, g: Option<Announced>, d: Db, v: Db, mem: Mem)
    requires Veils(h, g, d, v)
    ensures Lockstep(h, g, Exec([d], mem, []), Exec([v], mem, []))
  {
    hide Veils;
  }

  /** Two stretches of three writes, and of four. */
  lemma ThreeLock(h: Option<string>, g: Option<Announced>, d: seq<Db>, v: seq<Db>, mem: Mem, out: seq<Message>)
    requires |d| == |v| == 3 && Veils(h, g, d[0], v[0]) && Veils(h, g, d[1], v[1]) && Veils(h, g, d[2], v[2])
    ensures Lockstep(h, g, Exec(d, mem, out), Exec(v, mem, out))
  {
    hide Veils;
  }

  lemma TwoLock(h: Option<string>, g: Option<Announced>, d: seq<Db>, v: seq<Db>, mem: Mem, out: seq<Message>)
    requires |d| == |v| == 2 && Veils(h, g, d[0], v[0]) && Veils(h, g, d[1], v[1])
    ensures Lockstep(h, g, Exec(d, mem, out), Exec(v, mem, out))
  {
    hide Veils;
  }

  lemma FourLock(h: Option<string>, g: Option<Announced>, d: seq<Db>, v: seq<Db>, mem: Mem, out: seq<Message>)
    requires |d| == |v| == 4 && Veils(h, g, d[0], v[0]) && Veils(h, g, d[1], v[1]) && Veils(h, g, d[2], v[2]) && Veils(h,
        g, d[3], v[3])
    ensures Lockstep(h, g, Exec(d, mem, out), Exec(v, mem, out))
  {
    hide Veils;
  }

  lemma WindowVeils(h: Option<string>, g: Option<Announced>, d: Db, v: Db, wid: string, w: Window)
    requires Veils(h, g, d, v)
    ensures Veils(h, g, SaveWindow(d, wid, w), SaveWindow(v, wid, w))
  {
    RecordsVeil(h, g, d, v, d.windows[wid := w]);
    hide Veils;
  }

  lemma PointerVeils(h: Option<string>, g: Option<Announced>, d: Db, v: Db, wid: string)
    requires Veils(h, g, d, v)
    ensures Veils(h, g, SetActiveWindow(d, wid), SetActiveWindow(v, wid))
    ensures Veils(h, g, ClearActiveWindow(d), ClearActiveWindow(v))
  {
  }

  lemma RecordsVeil(h: Option<string>, g: Option<Announced>, d: Db, v: Db, windows: map<string, Window>)
    requires Veils(h, g, d, v)
    ensures Veils(h, g, d.(windows := windows), v.(windows := windows)) && v.windows == d.windows
  {
  }

  lemma ResultVeils(h: Option<string>, g: Option<Announced>, d: Db, v: Db, wid: string, result: WindowResult,
        nonce: Option<int>, winner: Option<string>)
    requires Veils(h, g, d, v)
    ensures Veils(h, g, SetWindowResult(d, wid, result, nonce, winner), SetWindowResult(v, wid, result, nonce, winner))
  {
    RecordsVeil(h, g, d, v, SetWindowResult(d, wid, result, nonce, winner).windows);
    hide Veils;
  }

  lemma StatusVeils(h: Option<string>, g: Option<Announced>, d: Db, v: Db, id: string, status: Status)
    requires Veils(h, g, d, v)
    ensures Veils(h, g, SetLawStatus(d, id, status), SetLawStatus(v, id, status))
  {
  }

  lemma QueueVeils(h: Option<string>, g: Option<Announced>, d: Db, v: Db, id: string)
    requires Veils(h, g, d, v)
    ensures Veils(h, g, RemoveFromQueue(d, id), RemoveFromQueue(v, id))
    ensures Veils(h, g, EnqueueLaw(d, id), EnqueueLaw(v, id))
  {
    hide Remove;
  }

  lemma AuthorVeils(h: Option<string>, g: Option<Announced>, d: Db, v: Db, author: string)
    requires Veils(h, g, d, v)
    ensures Veils(h, g, SetLastAuthor(d, author), SetLastAuthor(v, author))
    ensures Veils(h, g, PushWindowAuthor(d, author), PushWindowAuthor(v, author))
  {
    hide Turns.Push;
  }

  lemma PauseVeils(h: Option<string>, g: Option<Announced>, d: Db, v: Db, a: Announced, id: string, r: DeliberationResult)
    requires Veils(h, g, d, v)
    ensures Veils(h, g, SaveDeliberation(d, a), SaveDeliberation(v, a)) && Veils(h, g, ClearDeliberation(d), ClearDeliberation(v))
    ensures Veils(h, g, SaveDeliberationResult(d, id, r), SaveDeliberationResult(v, id, r))
  {
  }

  lemma SilentVeils(h: Option<string>, g: Option<Announced>, d: Db, v: Db, id: string, n: int)
    requires Veils(h, g, d, v)
    ensures Veils(h, g, SetSilentDeliberations(d, id, n), SetSilentDeliberations(v, id, n))
  {
  }

  lemma HashVeils(h: Option<string>, g: Option<Announced>, d: Db, v: Db, hash: string)
    requires Veils(h, g, d, v)
    ensures Veils(h, g, MarkTextHashDiscarded(d, hash), MarkTextHashDiscarded(v, hash))
  {
  }

  lemma LawVeils(h: Option<string>, g: Option<Announced>, d: Db, v: Db, m: Proposal, category: string)
    requires Veils(h, g, d, v)
    ensures Veils(h, g, SaveLaw(d, m.lawId, m.author, m.textHash, m.createdAt, category, m.textCompressed, m.textOriginalLen),
                        SaveLaw(v, m.lawId, m.author, m.textHash, m.createdAt, category, m.textCompressed, m.textOriginalLen))
  {
    hide NormalizeCategory;
  }

  lemma LawsVeil(h: Option<string>, g: Option<Announced>, d: Db, v: Db, laws: map<string, Law>)
    requires Veils(h, g, d, v)
    ensures Veils(h, g, d.(laws := laws), v.(laws := laws)) && v.laws == d.laws
  {
  }

  lemma AskVeils(h: Option<string>, g: Option<Announced>, d: Db, v: Db, id: string, author: string)
    requires Veils(h, g, d, v)
    ensures Veils(h, g, SetLawRequestedBy(d, id, author), SetLawRequestedBy(v, id, author))
    ensures Veils(h, g, SetLawAction(d, id, Derogacion), SetLawAction(v, id, Derogacion))
  {
    LawsVeil(h, g, d, v, SetLawRequestedBy(d, id, author).laws);
    LawsVeil(h, g, d, v, SetLawAction(d, id, Derogacion).laws);
    hide Veils;
  }

  lemma CooldownVeils(h: Option<string>, g: Option<Announced>, d: Db, v: Db, author: string, until: int, reason: CooldownReason)
    requires Veils(h, g, d, v)
    ensures Veils(h, g, SetCooldown(d, author, until, reason), SetCooldown(v, author, until, reason))
  {
  }

  // ---- opening ----

  lemma NumberLocks(h: Option<string>, g: Option<Announced>, d: Db, v: Db, mem: Mem)
    requires Veils(h, g, d, v)
    ensures Lockstep(h, g, Exec([NextWindowNumber(d)], mem, []), Exec([NextWindowNumber(v)], mem, []))
    ensures NextWindowNumber(v).counter == NextWindowNumber(d).counter
    ensures Final(d, Exec([NextWindowNumber(d)], mem, [])) == NextWindowNumber(d)
    ensures Final(v, Exec([NextWindowNumber(v)], mem, [])) == NextWindowNumber(v)
  {
  }

  lemma MeasuredLocks(cfg: Config, h: Option<string>, g: Option<Announced>, d: Db, v: Db, mem: Mem, s: Senses)
    requires ValidConfig(cfg) && Veils(h, g, d, v)
    ensures Lockstep(h, g, Measured(cfg, d, mem, s), Measured(cfg, v, mem, s))
  {
    hide Difficulty.NonceSpaceFor, Deliberation.EffectiveHashrate, RatchetAfter;
    assert RatchetAfter(cfg, d, "", Deliberation.EffectiveHashrate(s.workers, s.teams, cfg.hps))
        == RatchetAfter(cfg, v, "", Deliberation.EffectiveHashrate(s.workers, s.teams, cfg.hps)) by {
      SameRatchet(cfg, d, v, "", Deliberation.EffectiveHashrate(s.workers, s.teams, cfg.hps));
    }
  }

  lemma SameRatchet(cfg: Config, d: Db, v: Db, scope: string, hashrate: real)
    requires v.difficulty == d.difficulty
    ensures RatchetAfter(cfg, v, scope, hashrate) == RatchetAfter(cfg, d, scope, hashrate)
  {
  }

  lemma InstalledLocks(p: Platform, h: Option<string>, g: Option<Announced>, d: Db, v: Db, mem: Mem, law: Law, o: Opening,
        s: Senses)
    requires Veils(h, g, d, v)
    ensures Lockstep(h, g, Installed(p, d, mem, law, o, s), Installed(p, v, mem, law, o, s))
  {
    hide *;
    var w := WindowOf(p, law, o, s);
    WindowVeils(h, g, d, v, o.wid, w);
    var d1, v1 := SaveWindow(d, o.wid, w), SaveWindow(v, o.wid, w);
    StatusVeils(h, g, d1, v1, law.lawId, InWindow);
    var d2, v2 := SetLawStatus(d1, law.lawId, InWindow), SetLawStatus(v1, law.lawId, InWindow);
    QueueVeils(h, g, d2, v2, law.lawId);
    var d3, v3 := RemoveFromQueue(d2, law.lawId), RemoveFromQueue(v2, law.lawId);
    PointerVeils(h, g, d3, v3, o.wid);
    var d4, v4 := SetActiveWindow(d3, o.wid), SetActiveWindow(v3, o.wid);
    FourLock(h, g, [d1, d2, d3, d4], [v1, v2, v3, v4], mem.(active := Some(ActiveOf(law, o))), [ChallengeOf(p, law, o, s)]);
    InstalledIs(p, d, mem, law, o, s);
    InstalledIs(p, v, mem, law, o, s);
  }

  lemma InstalledIs(p: Platform, db: Db, mem: Mem, law: Law, o: Opening, s: Senses)
    ensures var d1 := SaveWindow(db, o.wid, WindowOf(p, law, o, s));
      var d2 := SetLawStatus(d1, law.lawId, InWindow);
      var d3 := RemoveFromQueue(d2, law.lawId);
      Installed(p, db, mem, law, o, s)
      == Exec([d1, d2, d3, SetActiveWindow(d3, o.wid)], mem.(active := Some(ActiveOf(law, o))), [ChallengeOf(p, law, o, s)])
  {
    hide SaveWindow, SetLawStatus, RemoveFromQueue, SetActiveWindow, WindowOf, ActiveOf, ChallengeOf;
  }

  lemma TurnLocks(h: Option<string>, g: Option<Announced>, d: Db, v: Db, mem: Mem, law: Law)
    requires Veils(h, g, d, v)
    ensures Lockstep(h, g, TurnTaken(d, mem, law), TurnTaken(v, mem, law))
  {
    hide *;
    var who := TurnHolder(law);
    AuthorVeils(h, g, d, v, who);
    var d1, v1 := SetLastAuthor(d, who), SetLastAuthor(v, who);
    AuthorVeils(h, g, d1, v1, who);
    TwoLock(h, g, [d1, PushWindowAuthor(d1, who)], [v1, PushWindowAuthor(v1, who)], mem.(lastAuthor := Some(who)), []);
    TurnIs(d, mem, law);
    TurnIs(v, mem, law);
  }

  lemma TurnIs(db: Db, mem: Mem, law: Law)
    ensures var who := TurnHolder(law);
      var d1 := SetLastAuthor(db, who);
      TurnTaken(db, mem, law) == Exec([d1, PushWindowAuthor(d1, who)], mem.(lastAuthor := Some(who)), [])
  {
    hide SetLastAuthor, PushWindowAuthor, TurnHolder;
  }

  lemma OpenDirectLocks(p: Platform, cfg: Config, h: Option<string>, g: Option<Announced>, d: Db, v: Db, mem: Mem,
        s: Senses, law: Law)
    requires ValidConfig(cfg) && Veils(h, g, d, v)
    ensures Lockstep(h, g, OpenDirect(p, cfg, d, mem, s, law), OpenDirect(p, cfg, v, mem, s, law))
  {
    hide *;
    OpenDirectShape(p, cfg, d, mem, s, law);
    OpenDirectShape(p, cfg, v, mem, s, law);
    var d0, v0 := NextWindowNumber(d), NextWindowNumber(v);
    var num, Num := Exec([d0], mem, []), Exec([v0], mem, []);
    NumberLocks(h, g, d, v, mem);
    LastVeils(h, g, d, v, num, Num);
    MeasuredLocks(cfg, h, g, d0, v0, mem, s);
    var m, M := Measured(cfg, d0, mem, s), Measured(cfg, v0, mem, s);
    ThenLocks(h, g, num, Num, m, M);
    var e1, f1 := Then(num, m), Then(Num, M);
    LastVeils(h, g, d, v, e1, f1);
    LockedMem(h, g, e1, f1);
    var o := OpeningDirect(cfg, d0.counter, law, e1.mem, s);
    var i, I := Installed(p, Final(d, e1), e1.mem, law, o, s), Installed(p, Final(v, f1), f1.mem, law, o, s);
    InstalledLocks(p, h, g, Final(d, e1), Final(v, f1), e1.mem, law, o, s);
    ThenLocks(h, g, e1, f1, i, I);
    var e2, f2 := Then(e1, i), Then(f1, I);
    LastVeils(h, g, d, v, e2, f2);
    LockedMem(h, g, e2, f2);
    TurnLocks(h, g, Final(d, e2), Final(v, f2), e2.mem, law);
    ThenLocks(h, g, e2, f2, TurnTaken(Final(d, e2), e2.mem, law), TurnTaken(Final(v, f2), f2.mem, law));
  }

  lemma LockedMem(h: Option<string>, g: Option<Announced>, e: Exec, f: Exec)
    requires Lockstep(h, g, e, f)
    ensures e.mem == f.mem && |e.steps| == |f.steps|
  {
    hide Veils;
  }

  lemma OpenFrozenLocks(p: Platform, h: Option<string>, g: Option<Announced>, d: Db, v: Db, mem: Mem, s: Senses, law: Law,
        z: Frozen)
    requires Veils(h, g, d, v)
    ensures Lockstep(h, g, OpenFrozen(p, d, mem, s, law, z), OpenFrozen(p, v, mem, s, law, z))
  {
    hide *;
    OpenFrozenShape(p, d, mem, s, law, z);
    OpenFrozenShape(p, v, mem, s, law, z);
    var d0, v0 := NextWindowNumber(d), NextWindowNumber(v);
    var num, Num := Exec([d0], mem, []), Exec([v0], mem, []);
    NumberLocks(h, g, d, v, mem);
    LastVeils(h, g, d, v, num, Num);
    var o := OpeningFrozen(d0.counter, law, mem, s, z);
    InstalledLocks(p, h, g, d0, v0, mem, law, o, s);
    ThenLocks(h, g, num, Num, Installed(p, d0, mem, law, o, s), Installed(p, v0, mem, law, o, s));
  }

  // ---- announcing ----

  lemma MeasuredForLocks(cfg: Config, h: Option<string>, g: Option<Announced>, d: Db, v: Db, mem: Mem, law: Law,
        voters: seq<Deliberation.Convocado>)
    requires Veils(h, g, d, v)
    ensures Lockstep(h, g, MeasuredFor(cfg, d, mem, law, voters).0, MeasuredFor(cfg, v, mem, law, voters).0)
    ensures MeasuredFor(cfg, d, mem, law, voters).1 == MeasuredFor(cfg, v, mem, law, voters).1
  {
    var scope := NormalizeCategory(Some(law.category));
    SameRatchet(cfg, d, v, scope, Deliberation.Biggest(voters));
    hide Deliberation.Biggest, RatchetAfter, NormalizeCategory;
  }

  lemma {:induction false} VetoLocks(h: Option<string>, g: Option<Announced>, d: Db, v: Db, id: string,
        voters: seq<Deliberation.Convocado>)
    requires Veils(h, g, d, v)
    ensures |VetoSteps(d, id, voters)| == |VetoSteps(v, id, voters)|
    ensures forall i :: 0 <= i < |VetoSteps(d, id, voters)| ==> Veils(h, g, VetoSteps(d, id, voters)[i], VetoSteps(v, id,
        voters)[i])
    decreases |voters|
  {
    if voters != [] {
      if voters[0].prevetoed {
        var d1 := SetDeliberationDecision(d, id, voters[0].voterId, Deliberation.REJECT);
        var v1 := SetDeliberationDecision(v, id, voters[0].voterId, Deliberation.REJECT);
        VetoLocks(h, g, d1, v1, id, voters[1..]);
        hide Veils, SetDeliberationDecision;
        assert VetoSteps(d, id, voters) == [d1] + VetoSteps(d1, id, voters[1..]);
        assert VetoSteps(v, id, voters) == [v1] + VetoSteps(v1, id, voters[1..]);
      } else {
        VetoLocks(h, g, d, v, id, voters[1..]);
      }
    }
  }

  lemma ClearedVeils(h: Option<string>, g: Option<Announced>, d: Db, v: Db, id: string)
    requires Veils(h, g, d, v)
    ensures Veils(h, g, ClearDeliberationDecisions(d, id), ClearDeliberationDecisions(v, id))
  {
  }

  lemma VetoStretch(h: Option<string>, g: Option<Announced>, d: Db, v: Db, mem: Mem, id: string,
        voters: seq<Deliberation.Convocado>)
    requires Veils(h, g, d, v)
    ensures var d1, v1 := ClearDeliberationDecisions(d, id), ClearDeliberationDecisions(v, id);
      Lockstep(h, g, Exec([d1] + VetoSteps(d1, id, voters), mem, []), Exec([v1] + VetoSteps(v1, id, voters), mem, []))
  {
    ClearedVeils(h, g, d, v, id);
    VetoLocks(h, g, ClearDeliberationDecisions(d, id), ClearDeliberationDecisions(v, id), id, voters);
    hide Veils, VetoSteps, ClearDeliberationDecisions;
  }

  lemma AnnounceLocks(h: Option<string>, g: Option<Announced>, d: Db, v: Db, mem: Mem, a: Announced)
    requires Veils(h, g, d, v)
    ensures Lockstep(h, g, Announce(d, mem, a), Announce(v, mem, a))
  {
    AnnounceIs(d, mem, a);
    AnnounceIs(v, mem, a);
    var r := DeliberationResult(Deliberation.Open, [], [], [], [], "");
    hide *;
    PauseVeils(h, g, d, v, a, "", r);
    var d1, v1 := SaveDeliberation(d, a), SaveDeliberation(v, a);
    StatusVeils(h, g, d1, v1, a.lawId, InDeliberation);
    var d2, v2 := SetLawStatus(d1, a.lawId, InDeliberation), SetLawStatus(v1, a.lawId, InDeliberation);
    QueueVeils(h, g, d2, v2, a.lawId);
    ThreeLock(h, g, [d1, d2, RemoveFromQueue(d2, a.lawId)], [v1, v2, RemoveFromQueue(v2, a.lawId)], mem, []);
  }

  lemma AnnounceIs(db: Db, mem: Mem, a: Announced)
    ensures var d1 := SaveDeliberation(db, a);
      var d2 := SetLawStatus(d1, a.lawId, InDeliberation);
      Announce(db, mem, a) == Exec([d1, d2, RemoveFromQueue(d2, a.lawId)], mem, [])
  {
    hide SaveDeliberation, SetLawStatus, RemoveFromQueue;
  }

  lemma StartDeliberationLocks(p: Platform, cfg: Config, h: Option<string>, g: Option<Announced>, d: Db, v: Db, mem: Mem,
        s: Senses, law: Law)
    requires ValidConfig(cfg) && Veils(h, g, d, v)
    ensures Lockstep(h, g, StartDeliberation(p, cfg, d, mem, s, law), StartDeliberation(p, cfg, v, mem, s, law))
  {
    hide *;
    var voters := VotersFor(cfg, s, law);
    MeasuredForLocks(cfg, h, g, d, v, mem, law, voters);
    var e1, f1 := MeasuredFor(cfg, d, mem, law, voters).0, MeasuredFor(cfg, v, mem, law, voters).0;
    var a := AnnouncementOf(p, cfg, mem, s, law, voters, MeasuredFor(cfg, d, mem, law, voters).1);
    LastVeils(h, g, d, v, e1, f1);
    VetoStretch(h, g, Final(d, e1), Final(v, f1), mem, law.lawId, voters);
    var d1, v1 := ClearDeliberationDecisions(Final(d, e1), law.lawId), ClearDeliberationDecisions(Final(v, f1), law.lawId);
    var x := Exec([d1] + VetoSteps(d1, law.lawId, voters), mem, []);
    var y := Exec([v1] + VetoSteps(v1, law.lawId, voters), mem, []);
    ThenLocks(h, g, e1, f1, x, y);
    var e2, f2 := Then(e1, x), Then(f1, y);
    LastVeils(h, g, d, v, e2, f2);
    AnnounceLocks(h, g, Final(d, e2), Final(v, f2), mem, a);
    var e3, f3 := Then(e2, Announce(Final(d, e2), mem, a)), Then(f2, Announce(Final(v, f2), mem, a));
    ThenLocks(h, g, e2, f2, Announce(Final(d, e2), mem, a), Announce(Final(v, f2), mem, a));
    LastVeils(h, g, d, v, e3, f3);
    TurnLocks(h, g, Final(d, e3), Final(v, f3), mem, law);
    ThenLocks(h, g, e3, f3, TurnTaken(Final(d, e3), mem, law), TurnTaken(Final(v, f3), mem, law));
    Remembered(h, g, Then(e3, TurnTaken(Final(d, e3), mem, law)), Then(f3, TurnTaken(Final(v, f3), mem, law)), a);
    StartIs(p, cfg, d, mem, s, law);
    StartIs(p, cfg, v, mem, s, law);
  }

  lemma Remembered(h: Option<string>, g: Option<Announced>, e: Exec, f: Exec, a: Announced)
    requires Lockstep(h, g, e, f)
    ensures Lockstep(h, g, e.(mem := e.mem.(deliberation := Some(a))), f.(mem := f.mem.(deliberation := Some(a))))
  {
    hide Veils;
  }

  lemma StartIs(p: Platform, cfg: Config, db: Db, mem: Mem, s: Senses, law: Law)
    requires ValidConfig(cfg)
    ensures var voters := VotersFor(cfg, s, law);
      var e1 := MeasuredFor(cfg, db, mem, law, voters).0;
      var a := AnnouncementOf(p, cfg, mem, s, law, voters, MeasuredFor(cfg, db, mem, law, voters).1);
      var d := ClearDeliberationDecisions(Final(db, e1), law.lawId);
      var e2 := Then(e1, Exec([d] + VetoSteps(d, law.lawId, voters), mem, []));
      var e3 := Then(e2, Announce(Final(db, e2), mem, a));
      var e4 := Then(e3, TurnTaken(Final(db, e3), mem, law));
      StartDeliberation(p, cfg, db, mem, s, law) == e4.(mem := e4.mem.(deliberation := Some(a)))
  {
    hide VotersFor, MeasuredFor, AnnouncementOf, VetoSteps, Announce, TurnTaken, Final, Then;
  }

  // ---- choosing ----

  lemma SameChoice(cfg: Config, d: Db, v: Db, mem: Mem, s: Senses)
    requires v.laws == d.laws && v.queue == d.queue && v.turns == d.turns
    ensures NextLaw(cfg, v, mem, s) == NextLaw(cfg, d, mem, s)
  {
  }

  lemma VeilParts(h: Option<string>, g: Option<Announced>, d: Db, v: Db)
    requires Veils(h, g, d, v)
    ensures v.laws == d.laws && v.queue == d.queue && v.turns == d.turns && v.windows == d.windows && v.guards == d.guards
    ensures v.counter == d.counter && v.decisions == d.decisions && v.chain == d.chain && v.blocks == d.blocks
    ensures v.cooldowns == d.cooldowns && v.discarded == d.discarded
  {
  }

  lemma MaybeOpenLocks(p: Platform, cfg: Config, h: Option<string>, g: Option<Announced>, d: Db, v: Db, mem: Mem, s: Senses)
    requires ValidConfig(cfg) && Veils(h, g, d, v)
    ensures Lockstep(h, g, MaybeOpen(p, cfg, d, mem, s), MaybeOpen(p, cfg, v, mem, s))
  {
    hide *;
    VeilParts(h, g, d, v);
    SameChoice(cfg, d, v, mem, s);
    IdleLocks(h, g, mem);
    MaybeIs(p, cfg, d, mem, s);
    MaybeIs(p, cfg, v, mem, s);
    var next := NextLaw(cfg, d, mem, s);
    if next.Some? {
      StartDeliberationLocks(p, cfg, h, g, d, v, mem, s, next.value);
      OpenDirectLocks(p, cfg, h, g, d, v, mem, s, next.value);
    }
  }

  lemma MaybeIs(p: Platform, cfg: Config, db: Db, mem: Mem, s: Senses)
    requires ValidConfig(cfg)
    ensures var next := NextLaw(cfg, db, mem, s);
      MaybeOpen(p, cfg, db, mem, s)
      == if !mem.isLeader || mem.active.Some? || mem.deliberation.Some? || next.None? then Idle(mem)
         else if cfg.deliberationMicros > 0 then StartDeliberation(p, cfg, db, mem, s, next.value)
         else OpenDirect(p, cfg, db, mem, s, next.value)
  {
    hide NextLaw, StartDeliberation, OpenDirect, Idle;
  }

  lemma AndMaybeOpenLocks(p: Platform, cfg: Config, h: Option<string>, g: Option<Announced>, d: Db, v: Db, e: Exec,
        f: Exec, s: Senses)
    requires ValidConfig(cfg) && Veils(h, g, d, v) && Lockstep(h, g, e, f)
    ensures Lockstep(h, g, AndMaybeOpen(p, cfg, d, e, s), AndMaybeOpen(p, cfg, v, f, s))
  {
    hide *;
    LastVeils(h, g, d, v, e, f);
    LockedMem(h, g, e, f);
    MaybeOpenLocks(p, cfg, h, g, Final(d, e), Final(v, f), e.mem, s);
    ThenLocks(h, g, e, f, MaybeOpen(p, cfg, Final(d, e), e.mem, s), MaybeOpen(p, cfg, Final(v, f), f.mem, s));
    AndMaybeIs(p, cfg, d, e, s);
    AndMaybeIs(p, cfg, v, f, s);
  }

  lemma AndMaybeIs(p: Platform, cfg: Config, db: Db, e: Exec, s: Senses)
    requires ValidConfig(cfg)
    ensures AndMaybeOpen(p, cfg, db, e, s) == Then(e, MaybeOpen(p, cfg, Final(db, e), e.mem, s))
  {
    hide MaybeOpen, Then, Final;
  }

  // ---- the end of a deliberation ----

  lemma SameJudgement(cfg: Config, d: Db, v: Db, a: Announced)
    requires v.laws == d.laws && v.decisions == d.decisions
    ensures Judged(cfg, v, a) == Judged(cfg, d, a) && DeliberationDecisions(v, a.lawId) == DeliberationDecisions(d, a.lawId)
  {
  }

  lemma PauseLocks(p: Platform, cfg: Config, h: Option<string>, g: Option<Announced>, d: Db, v: Db, mem: Mem, s: Senses,
        a: Announced)
    requires Veils(h, g, d, v)
    ensures Lockstep(h, g, PauseEnded(p, cfg, d, mem, s, a), PauseEnded(p, cfg, v, mem, s, a))
  {
    hide *;
    VeilParts(h, g, d, v);
    SameJudgement(cfg, d, v, a);
    var (outcome, accepted, silences) := Judged(cfg, d, a);
    var r := ResultOf(p, a, outcome, DeliberationDecisions(d, a.lawId), s);
    var n := if silences.Some? then silences.value else 0;
    SilentVeils(h, g, d, v, a.lawId, n);
    var d0 := if silences.Some? then SetSilentDeliberations(d, a.lawId, n) else d;
    var v0 := if silences.Some? then SetSilentDeliberations(v, a.lawId, n) else v;
    PauseVeils(h, g, d0, v0, a, a.lawId, r);
    var d1, v1 := SaveDeliberationResult(d0, a.lawId, r), SaveDeliberationResult(v0, a.lawId, r);
    PauseVeils(h, g, d1, v1, a, a.lawId, r);
    var d2, v2 := ClearDeliberation(d1), ClearDeliberation(v1);
    ClearedVeils(h, g, d2, v2, a.lawId);
    var d3, v3 := ClearDeliberationDecisions(d2, a.lawId), ClearDeliberationDecisions(v2, a.lawId);
    var mem' := mem.(deliberation := None);
    ThreeLock(h, g, [d1, d2, d3], [v1, v2, v3], mem', []);
    PauseIs(p, cfg, d, mem, s, a);
    PauseIs(p, cfg, v, mem, s, a);
    if silences.Some? {
      OneLocks(h, g, d0, v0, mem);
      ThenLocks(h, g, Exec([d0], mem, []), Exec([v0], mem, []), Exec([d1, d2, d3], mem', []), Exec([v1, v2, v3], mem', []));
    }
  }

  lemma PauseIs(p: Platform, cfg: Config, db: Db, mem: Mem, s: Senses, a: Announced)
    ensures var (outcome, accepted, silences) := Judged(cfg, db, a);
      var r := ResultOf(p, a, outcome, DeliberationDecisions(db, a.lawId), s);
      var n := if silences.Some? then silences.value else 0;
      var d0 := if silences.Some? then SetSilentDeliberations(db, a.lawId, n) else db;
      var d1 := SaveDeliberationResult(d0, a.lawId, r);
      var d2 := ClearDeliberation(d1);
      var d3 := ClearDeliberationDecisions(d2, a.lawId);
      var rest := Exec([d1, d2, d3], mem.(deliberation := None), []);
      PauseEnded(p, cfg, db, mem, s, a) == if silences.Some? then Then(Exec([d0], mem, []), rest) else rest
  {
    hide Judged, ResultOf, DeliberationDecisions, SetSilentDeliberations, SaveDeliberationResult, ClearDeliberation,
      ClearDeliberationDecisions;
  }

  lemma ThrownLocks(h: Option<string>, g: Option<Announced>, d: Db, v: Db, mem: Mem, id: string, hash: Option<string>)
    requires Veils(h, g, d, v)
    ensures Lockstep(h, g, ThrownOut(d, mem, id, hash), ThrownOut(v, mem, id, hash))
  {
    StatusVeils(h, g, d, v, id, Status.Discarded);
    var d1, v1 := SetLawStatus(d, id, Status.Discarded), SetLawStatus(v, id, Status.Discarded);
    OneLocks(h, g, d1, v1, mem);
    hide Veils, Lockstep, SetLawStatus, MarkTextHashDiscarded;
    if hash.Some? {
      HashVeils(h, g, d1, v1, hash.value);
      TwoLock(h, g, [d1, MarkTextHashDiscarded(d1, hash.value)], [v1, MarkTextHashDiscarded(v1, hash.value)], mem, []);
    }
  }

  lemma RequeuedLocks(h: Option<string>, g: Option<Announced>, d: Db, v: Db, mem: Mem, id: string)
    requires Veils(h, g, d, v)
    ensures Lockstep(h, g, Requeued(d, mem, id), Requeued(v, mem, id))
  {
    StatusVeils(h, g, d, v, id, PendingQueue);
    var d1, v1 := SetLawStatus(d, id, PendingQueue), SetLawStatus(v, id, PendingQueue);
    QueueVeils(h, g, d1, v1, id);
    hide Veils, Lockstep, SetLawStatus, EnqueueLaw;
    TwoLock(h, g, [d1, EnqueueLaw(d1, id)], [v1, EnqueueLaw(v1, id)], mem, []);
  }

  lemma ResolveLocks(p: Platform, cfg: Config, h: Option<string>, g: Option<Announced>, d: Db, v: Db, mem: Mem, s: Senses,
        a: Announced)
    requires ValidConfig(cfg) && Veils(h, g, d, v)
    ensures Lockstep(h, g, ResolveDeliberation(p, cfg, d, mem, s, a), ResolveDeliberation(p, cfg, v, mem, s, a))
  {
    hide *;
    var (outcome, accepted, _) := Judged(cfg, d, a);
    VeilParts(h, g, d, v);
    SameJudgement(cfg, d, v, a);
    PauseLocks(p, cfg, h, g, d, v, mem, s, a);
    var e, f := PauseEnded(p, cfg, d, mem, s, a), PauseEnded(p, cfg, v, mem, s, a);
    LastVeils(h, g, d, v, e, f);
    LockedMem(h, g, e, f);
    var d1, v1 := Final(d, e), Final(v, f);
    VeilParts(h, g, d1, v1);
    SameLaw(d1, v1, a.lawId);
    var law := GetLaw(d1, a.lawId);
    ResolveIs(p, cfg, d, mem, s, a);
    ResolveIs(p, cfg, v, mem, s, a);
    if law.None? {
      AndMaybeOpenLocks(p, cfg, h, g, d, v, e, f, s);
    } else {
      OpenFrozenLocks(p, h, g, d1, v1, e.mem, s, law.value, Frozen(a, accepted));
      ThenLocks(h, g, e, f, OpenFrozen(p, d1, e.mem, s, law.value, Frozen(a, accepted)), OpenFrozen(p, v1, f.mem, s,
          law.value, Frozen(a, accepted)));
      ThrownLocks(h, g, d1, v1, e.mem, a.lawId, Some(law.value.textHash));
      ThenLocks(h, g, e, f, ThrownOut(d1, e.mem, a.lawId, Some(law.value.textHash)), ThrownOut(v1, f.mem, a.lawId,
          Some(law.value.textHash)));
      ThrownLocks(h, g, d1, v1, e.mem, a.lawId, None);
      ThenLocks(h, g, e, f, ThrownOut(d1, e.mem, a.lawId, None), ThrownOut(v1, f.mem, a.lawId, None));
      RequeuedLocks(h, g, d1, v1, e.mem, a.lawId);
      ThenLocks(h, g, e, f, Requeued(d1, e.mem, a.lawId), Requeued(v1, f.mem, a.lawId));
      AndMaybeOpenLocks(p, cfg, h, g, d, v, Then(e, ThrownOut(d1, e.mem, a.lawId, Some(law.value.textHash))), Then(f,
          ThrownOut(v1, f.mem, a.lawId, Some(law.value.textHash))), s);
      AndMaybeOpenLocks(p, cfg, h, g, d, v, Then(e, ThrownOut(d1, e.mem, a.lawId, None)), Then(f, ThrownOut(v1, f.mem,
          a.lawId, None)), s);
      AndMaybeOpenLocks(p, cfg, h, g, d, v, Then(e, Requeued(d1, e.mem, a.lawId)), Then(f, Requeued(v1, f.mem, a.lawId)), s);
    }
  }

  lemma SameLaw(d: Db, v: Db, id: string)
    requires v.laws == d.laws
    ensures GetLaw(v, id) == GetLaw(d, id)
  {
  }

  lemma ResolveIs(p: Platform, cfg: Config, db: Db, mem: Mem, s: Senses, a: Announced)
    requires ValidConfig(cfg)
    ensures var (outcome, accepted, _) := Judged(cfg, db, a);
      var e := PauseEnded(p, cfg, db, mem, s, a);
      var d := Final(db, e);
      var law := GetLaw(d, a.lawId);
      ResolveDeliberation(p, cfg, db, mem, s, a) ==
        if law.None? then AndMaybeOpen(p, cfg, db, e, s)
        else match outcome
          case Open => Then(e, OpenFrozen(p, d, e.mem, s, law.value, Frozen(a, accepted)))
          case Discard => AndMaybeOpen(p, cfg, db, Then(e, ThrownOut(d, e.mem, a.lawId, Some(law.value.textHash))), s)
          case Unanswered => AndMaybeOpen(p, cfg, db, Then(e, ThrownOut(d, e.mem, a.lawId, None)), s)
          case Requeue => AndMaybeOpen(p, cfg, db, Then(e, Requeued(d, e.mem, a.lawId)), s)
  {
    hide Judged, PauseEnded, AndMaybeOpen, OpenFrozen, ThrownOut, Requeued, Then, Final, GetLaw;
  }

  lemma CheckDeliberationLocks(p: Platform, cfg: Config, h: Option<string>, g: Option<Announced>, d: Db, v: Db, mem: Mem, s: Senses)
    requires ValidConfig(cfg) && Veils(h, g, d, v)
    ensures Lockstep(h, g, CheckDeliberation(p, cfg, d, mem, s), CheckDeliberation(p, cfg, v, mem, s))
  {
    VeilParts(h, g, d, v);
    IdleLocks(h, g, mem);
    if mem.deliberation.Some? {
      SameJudgement(cfg, d, v, mem.deliberation.value);
      ResolveLocks(p, cfg, h, g, d, v, mem, s, mem.deliberation.value);
    }
    hide Veils, ResolveDeliberation, Lockstep, Judged, VotersOf, DeliberationDecisions, Deliberation.AllAnswered;
  }

  // ---- proposals, nonces, deadlines ----

  lemma EnqueueLocks(cfg: Config, h: Option<string>, g: Option<Announced>, d: Db, v: Db, mem: Mem, m: Proposal, category: string)
    requires Veils(h, g, d, v)
    ensures Lockstep(h, g, EnqueuePromulgacion(cfg, d, mem, m, category), EnqueuePromulgacion(cfg, v, mem, m, category))
  {
    VeilParts(h, g, d, v);
    EnqueueIs(cfg, d, mem, m, category);
    EnqueueIs(cfg, v, mem, m, category);
    hide *;
    var reason := if m.textHash in d.discarded then ReproposedIdentical else ProposedNew;
    LawVeils(h, g, d, v, m, category);
    var d1 := SaveLaw(d, m.lawId, m.author, m.textHash, m.createdAt, category, m.textCompressed, m.textOriginalLen);
    var v1 := SaveLaw(v, m.lawId, m.author, m.textHash, m.createdAt, category, m.textCompressed, m.textOriginalLen);
    AskVeils(h, g, d1, v1, m.lawId, m.author);
    var d2, v2 := SetLawRequestedBy(d1, m.lawId, m.author), SetLawRequestedBy(v1, m.lawId, m.author);
    QueueVeils(h, g, d2, v2, m.lawId);
    var d3, v3 := EnqueueLaw(d2, m.lawId), EnqueueLaw(v2, m.lawId);
    VeilParts(h, g, d3, v3);
    SameCooldown(cfg, d3, v3, reason);
    var until := CooldownUntil(cfg, d3, reason);
    CooldownVeils(h, g, d3, v3, m.author, until, reason);
    FourLock(h, g, [d1, d2, d3, SetCooldown(d3, m.author, until, reason)], [v1, v2, v3, SetCooldown(v3, m.author, until,
        reason)], mem, []);
  }

  lemma SameCooldown(cfg: Config, d: Db, v: Db, reason: CooldownReason)
    requires v.counter == d.counter
    ensures CooldownUntil(cfg, v, reason) == CooldownUntil(cfg, d, reason)
  {
  }

  lemma EnqueueIs(cfg: Config, db: Db, mem: Mem, m: Proposal, category: string)
    ensures var reason := if m.textHash in db.discarded then ReproposedIdentical else ProposedNew;
      var d1 := SaveLaw(db, m.lawId, m.author, m.textHash, m.createdAt, category, m.textCompressed, m.textOriginalLen);
      var d2 := SetLawRequestedBy(d1, m.lawId, m.author);
      var d3 := EnqueueLaw(d2, m.lawId);
      EnqueuePromulgacion(cfg, db, mem, m, category)
      == Exec([d1, d2, d3, SetCooldown(d3, m.author, CooldownUntil(cfg, d3, reason), reason)], mem, [])
  {
    hide SaveLaw, SetLawRequestedBy, EnqueueLaw, SetCooldown, CooldownUntil;
  }

  lemma RepealLocks(cfg: Config, h: Option<string>, g: Option<Announced>, d: Db, v: Db, mem: Mem, m: Proposal)
    requires Veils(h, g, d, v)
    ensures Lockstep(h, g, EnqueueDerogacion(cfg, d, mem, m), EnqueueDerogacion(cfg, v, mem, m))
  {
    VeilParts(h, g, d, v);
    IdleLocks(h, g, mem);
    RepealIs(cfg, d, mem, m);
    RepealIs(cfg, v, mem, m);
    SameLaw(d, v, m.lawId);
    hide *;
    AskVeils(h, g, d, v, m.lawId, m.author);
    var d1, v1 := SetLawAction(d, m.lawId, Derogacion), SetLawAction(v, m.lawId, Derogacion);
    AskVeils(h, g, d1, v1, m.lawId, m.author);
    var d2, v2 := SetLawRequestedBy(d1, m.lawId, m.author), SetLawRequestedBy(v1, m.lawId, m.author);
    QueueVeils(h, g, d2, v2, m.lawId);
    var d3, v3 := EnqueueLaw(d2, m.lawId), EnqueueLaw(v2, m.lawId);
    VeilParts(h, g, d3, v3);
    SameCooldown(cfg, d3, v3, ProposedNew);
    var until := CooldownUntil(cfg, d3, ProposedNew);
    CooldownVeils(h, g, d3, v3, m.author, until, ProposedNew);
    FourLock(h, g, [d1, d2, d3, SetCooldown(d3, m.author, until, ProposedNew)], [v1, v2, v3, SetCooldown(v3, m.author,
        until, ProposedNew)], mem, []);
  }

  lemma RepealIs(cfg: Config, db: Db, mem: Mem, m: Proposal)
    ensures var target := GetLaw(db, m.lawId);
      var d1 := SetLawAction(db, m.lawId, Derogacion);
      var d2 := SetLawRequestedBy(d1, m.lawId, m.author);
      var d3 := EnqueueLaw(d2, m.lawId);
      EnqueueDerogacion(cfg, db, mem, m)
      == if target.None? || target.value.status != Promulgated then Idle(mem)
         else Exec([d1, d2, d3, SetCooldown(d3, m.author, CooldownUntil(cfg, d3, ProposedNew), ProposedNew)], mem, [])
  {
    hide SetLawAction, SetLawRequestedBy, EnqueueLaw, SetCooldown, CooldownUntil, GetLaw;
  }

  lemma ProposalLocks(p: Platform, cfg: Config, h: Option<string>, g: Option<Announced>, d: Db, v: Db, mem: Mem, s: Senses,
        m: Proposal)
    requires ValidConfig(cfg) && Veils(h, g, d, v)
    ensures Lockstep(h, g, HandleProposal(p, cfg, d, mem, s, m), HandleProposal(p, cfg, v, mem, s, m))
  {
    hide *;
    VeilParts(h, g, d, v);
    SameCooling(d, v, m.author);
    IdleLocks(h, g, mem);
    ProposalIs(p, cfg, d, mem, s, m);
    ProposalIs(p, cfg, v, mem, s, m);
    var category := ValidateCategory(m.category);
    RepealLocks(cfg, h, g, d, v, mem, m);
    AndMaybeOpenLocks(p, cfg, h, g, d, v, EnqueueDerogacion(cfg, d, mem, m), EnqueueDerogacion(cfg, v, mem, m), s);
    if category.Success? {
      EnqueueLocks(cfg, h, g, d, v, mem, m, category.value);
      AndMaybeOpenLocks(p, cfg, h, g, d, v, EnqueuePromulgacion(cfg, d, mem, m, category.value), EnqueuePromulgacion(cfg,
          v, mem, m, category.value), s);
    }
  }

  lemma SameCooling(d: Db, v: Db, author: string)
    requires v.cooldowns == d.cooldowns && v.counter == d.counter
    ensures IsInCooldown(v, author) == IsInCooldown(d, author)
  {
  }

  lemma ProposalIs(p: Platform, cfg: Config, db: Db, mem: Mem, s: Senses, m: Proposal)
    requires ValidConfig(cfg)
    ensures var category := ValidateCategory(m.category);
      HandleProposal(p, cfg, db, mem, s, m)
      == if !mem.isLeader || m.author == "" || m.textHash == "" || category.Failure? || !m.admitted || IsInCooldown(db, m.author)
         then Idle(mem)
         else if m.action == Derogacion then AndMaybeOpen(p, cfg, db, EnqueueDerogacion(cfg, db, mem, m), s)
         else AndMaybeOpen(p, cfg, db, EnqueuePromulgacion(cfg, db, mem, m, category.value), s)
  {
    hide EnqueueDerogacion, EnqueuePromulgacion, AndMaybeOpen, Idle, ValidateCategory, IsInCooldown;
  }

  lemma CloseLocks(h: Option<string>, g: Option<Announced>, d: Db, v: Db, mem: Mem, a: Active, nonce: int, winner: string)
    requires Veils(h, g, d, v)
    ensures Lockstep(h, g, CloseSealed(d, mem, a.wid, a.lawId, a.action, nonce, winner), CloseSealed(v, mem, a.wid,
        a.lawId, a.action, nonce, winner))
  {
    CloseIs(d, mem, a, nonce, winner);
    CloseIs(v, mem, a, nonce, winner);
    hide *;
    var status := if a.action == Derogacion then Repealed else Promulgated;
    ResultVeils(h, g, d, v, a.wid, Sealed, Some(nonce), Some(winner));
    var d1, v1 := SetWindowResult(d, a.wid, Sealed, Some(nonce), Some(winner)), SetWindowResult(v, a.wid, Sealed,
        Some(nonce), Some(winner));
    StatusVeils(h, g, d1, v1, a.lawId, status);
    var d2, v2 := SetLawStatus(d1, a.lawId, status), SetLawStatus(v1, a.lawId, status);
    PointerVeils(h, g, d2, v2, "");
    ThreeLock(h, g, [d1, d2, ClearActiveWindow(d2)], [v1, v2, ClearActiveWindow(v2)], mem.(active := None),
        [WindowClosed(a.wid, Finished(Sealed))]);
  }

  lemma CloseIs(db: Db, mem: Mem, a: Active, nonce: int, winner: string)
    ensures var d1 := SetWindowResult(db, a.wid, Sealed, Some(nonce), Some(winner));
      var d2 := SetLawStatus(d1, a.lawId, if a.action == Derogacion then Repealed else Promulgated);
      CloseSealed(db, mem, a.wid, a.lawId, a.action, nonce, winner)
      == Exec([d1, d2, ClearActiveWindow(d2)], mem.(active := None), [WindowClosed(a.wid, Finished(Sealed))])
  {
    hide SetWindowResult, SetLawStatus, ClearActiveWindow;
  }

  lemma LostLocks(h: Option<string>, g: Option<Announced>, d: Db, v: Db, mem: Mem, a: Active)
    requires Veils(h, g, d, v)
    ensures Lockstep(h, g, SealLost(d, mem, a), SealLost(v, mem, a))
  {
    StatusVeils(h, g, d, v, a.lawId, PendingQueue);
    var d1, v1 := SetLawStatus(d, a.lawId, PendingQueue), SetLawStatus(v, a.lawId, PendingQueue);
    QueueVeils(h, g, d1, v1, a.lawId);
    var d2, v2 := EnqueueLaw(d1, a.lawId), EnqueueLaw(v1, a.lawId);
    PointerVeils(h, g, d2, v2, "");
    hide Veils, Lockstep, SetLawStatus, EnqueueLaw, ClearActiveWindow;
    ThreeLock(h, g, [d1, d2, ClearActiveWindow(d2)], [v1, v2, ClearActiveWindow(v2)], mem.(active := None),
        [WindowClosed(a.wid, Interrupted)]);
  }

  lemma SameBlock(p: Platform, d: Db, v: Db, a: Active, nonce: int, winner: string, s: Senses)
    requires v.laws == d.laws && v.chain == d.chain
    ensures BlockOf(p, v, a, nonce, winner, s) == BlockOf(p, d, a, nonce, winner, s)
  {
  }

  lemma AppendVeils(h: Option<string>, g: Option<Announced>, d: Db, v: Db, b: Block)
    requires Veils(h, g, d, v)
    ensures Veils(h, g, AppendBlock(d, b).0, AppendBlock(v, b).0) && AppendBlock(d, b).1 == AppendBlock(v, b).1
  {
    VeilParts(h, g, d, v);
    ChainVeils(h, g, d, v, d.chain + [b.blockHash], d.blocks[b.blockHash := ToFields(b)]);
    hide ToFields, Veils;
  }

  lemma ChainVeils(h: Option<string>, g: Option<Announced>, d: Db, v: Db, chain: seq<string>, blocks: map<string, Fields>)
    requires Veils(h, g, d, v)
    ensures Veils(h, g, d.(chain := chain, blocks := blocks), v.(chain := chain, blocks := blocks))
  {
  }

  lemma SealLocks(p: Platform, h: Option<string>, g: Option<Announced>, d: Db, v: Db, mem: Mem, s: Senses, a: Active,
        nonce: int, winner: string)
    requires Veils(h, g, d, v)
    ensures Lockstep(h, g, Seal(p, d, mem, s, a, nonce, winner), Seal(p, v, mem, s, a, nonce, winner))
  {
    VeilParts(h, g, d, v);
    SameBlock(p, d, v, a, nonce, winner, s);
    var b := BlockOf(p, d, a, nonce, winner, s);
    AppendVeils(h, g, d, v, b);
    var d1, v1 := AppendBlock(d, b).0, AppendBlock(v, b).0;
    OneLocks(h, g, d1, v1, mem);
    CloseLocks(h, g, d1, v1, mem, a, nonce, winner);
    LostLocks(h, g, d, v, mem, a);
    ThenLocks(h, g, Exec([d1], mem, []), Exec([v1], mem, []), CloseSealed(d1, mem, a.wid, a.lawId, a.action, nonce,
        winner), CloseSealed(v1, mem, a.wid, a.lawId, a.action, nonce, winner));
    hide Veils, Lockstep, BlockOf, AppendBlock, CloseSealed, SealLost, Then;
  }

  lemma GuardVeils(h: Option<string>, g: Option<Announced>, d: Db, v: Db, wid: string, winner: string)
    requires Veils(h, g, d, v)
    ensures Veils(h, g, TrySealWindow(d, wid, winner).0, TrySealWindow(v, wid, winner).0)
    ensures TrySealWindow(d, wid, winner).1 == TrySealWindow(v, wid, winner).1
  {
  }

  lemma NonceLocks(p: Platform, cfg: Config, h: Option<string>, g: Option<Announced>, d: Db, v: Db, mem: Mem, s: Senses,
        m: Solution)
    requires ValidConfig(cfg) && Veils(h, g, d, v)
    ensures Lockstep(h, g, HandleNonce(p, cfg, d, mem, s, m), HandleNonce(p, cfg, v, mem, s, m))
  {
    IdleLocks(h, g, mem);
    if mem.active.Some? {
      var a := mem.active.value;
      var d1, v1 := TrySealWindow(d, a.wid, WinnerName(m.winner)).0, TrySealWindow(v, a.wid, WinnerName(m.winner)).0;
      GuardVeils(h, g, d, v, a.wid, WinnerName(m.winner));
      OneLocks(h, g, d1, v1, mem);
      SealLocks(p, h, g, d1, v1, mem, s, a, m.nonce, m.winner);
      ThenLocks(h, g, Exec([d1], mem, []), Exec([v1], mem, []), Seal(p, d1, mem, s, a, m.nonce, m.winner), Seal(p, v1, mem,
          s, a, m.nonce, m.winner));
      AndMaybeOpenLocks(p, cfg, h, g, d, v, Then(Exec([d1], mem, []), Seal(p, d1, mem, s, a, m.nonce, m.winner)),
          Then(Exec([v1], mem, []), Seal(p, v1, mem, s, a, m.nonce, m.winner)), s);
    }
    hide Veils, Lockstep, AndMaybeOpen, Seal, Then, TrySealWindow, Acceptable, WinnerName;
  }

  lemma ExpiredLocks(h: Option<string>, g: Option<Announced>, d: Db, v: Db, mem: Mem, a: Active)
    requires Veils(h, g, d, v)
    ensures Lockstep(h, g, Expired(d, mem, a), Expired(v, mem, a))
  {
    ExpiryIs(d, mem, a);
    ExpiryIs(v, mem, a);
    VeilParts(h, g, d, v);
    SameLaw(d, v, a.lawId);
    hide *;
    var law := GetLaw(d, a.lawId);
    var hash := if law.Some? then Some(law.value.textHash) else None;
    ResultVeils(h, g, d, v, a.wid, ExpiredPending, None, None);
    var d1, v1 := SetWindowResult(d, a.wid, ExpiredPending, None, None), SetWindowResult(v, a.wid, ExpiredPending, None, None);
    OneLocks(h, g, d1, v1, mem);
    ThrownLocks(h, g, d1, v1, mem, a.lawId, hash);
    var e, f := ThrownOut(d1, mem, a.lawId, hash), ThrownOut(v1, mem, a.lawId, hash);
    ThenLocks(h, g, Exec([d1], mem, []), Exec([v1], mem, []), e, f);
    LastVeils(h, g, d1, v1, e, f);
    ClearLocks(h, g, Final(d1, e), Final(v1, f), mem, [WindowClosed(a.wid, Finished(ExpiredPending))]);
    var gone := mem.(active := None);
    var said := [WindowClosed(a.wid, Finished(ExpiredPending))];
    ThenLocks(h, g, Then(Exec([d1], mem, []), e), Then(Exec([v1], mem, []), f),
              Exec([ClearActiveWindow(Final(d1, e))], gone, said), Exec([ClearActiveWindow(Final(v1, f))], gone, said));
    SameSteps(h, g, Then(Then(Exec([d1], mem, []), e), Exec([ClearActiveWindow(Final(d1, e))], gone, said)),
              Then(Then(Exec([v1], mem, []), f), Exec([ClearActiveWindow(Final(v1, f))], gone, said)), Expired(d, mem, a),
                  Expired(v, mem, a));
  }

  lemma SameSteps(h: Option<string>, g: Option<Announced>, e: Exec, f: Exec, e': Exec, f': Exec)
    requires Lockstep(h, g, e, f) && e'.steps == e.steps && f'.steps == f.steps && e'.mem == f'.mem
    ensures Lockstep(h, g, e', f')
  {
    hide Veils;
  }

  lemma ClearLocks(h: Option<string>, g: Option<Announced>, d: Db, v: Db, mem: Mem, out: seq<Message>)
    requires Veils(h, g, d, v)
    ensures Lockstep(h, g, Exec([ClearActiveWindow(d)], mem.(active := None), out), Exec([ClearActiveWindow(v)],
        mem.(active := None), out))
  {
    PointerVeils(h, g, d, v, "");
    hide Veils, ClearActiveWindow;
  }

  lemma ExpiryIs(db: Db, mem: Mem, a: Active)
    ensures var law := GetLaw(db, a.lawId);
      var d1 := SetWindowResult(db, a.wid, ExpiredPending, None, None);
      var e := ThrownOut(d1, mem, a.lawId, if law.Some? then Some(law.value.textHash) else None);
      var last := Exec([ClearActiveWindow(Final(d1, e))], mem.(active := None), [WindowClosed(a.wid, Finished(ExpiredPending))]);
      && Expired(db, mem, a).steps == Then(Then(Exec([d1], mem, []), e), last).steps && Expired(db, mem, a).mem == last.mem
  {
    hide SetWindowResult, ThrownOut, ClearActiveWindow, GetLaw, Final;
  }

  lemma UnheardIs(db: Db, mem: Mem, a: Active)
    ensures var d1 := SetWindowResult(db, a.wid, ExpiredNoQuorum, None, None);
      var e := Requeued(d1, mem, a.lawId);
      var last := Exec([ClearActiveWindow(Final(d1, e))], mem.(active := None), [WindowClosed(a.wid, Finished(ExpiredNoQuorum))]);
      && ExpiredWithoutQuorum(db, mem, a).steps == Then(Then(Exec([d1], mem, []), e), last).steps
      && ExpiredWithoutQuorum(db, mem, a).mem == last.mem
  {
    hide SetWindowResult, Requeued, ClearActiveWindow, Final;
  }

  lemma UnheardLocks(h: Option<string>, g: Option<Announced>, d: Db, v: Db, mem: Mem, a: Active)
    requires Veils(h, g, d, v)
    ensures Lockstep(h, g, ExpiredWithoutQuorum(d, mem, a), ExpiredWithoutQuorum(v, mem, a))
  {
    UnheardIs(d, mem, a);
    UnheardIs(v, mem, a);
    hide *;
    ResultVeils(h, g, d, v, a.wid, ExpiredNoQuorum, None, None);
    var d1, v1 := SetWindowResult(d, a.wid, ExpiredNoQuorum, None, None), SetWindowResult(v, a.wid, ExpiredNoQuorum, None, None);
    OneLocks(h, g, d1, v1, mem);
    RequeuedLocks(h, g, d1, v1, mem, a.lawId);
    var e, f := Requeued(d1, mem, a.lawId), Requeued(v1, mem, a.lawId);
    ThenLocks(h, g, Exec([d1], mem, []), Exec([v1], mem, []), e, f);
    LastVeils(h, g, d1, v1, e, f);
    var gone := mem.(active := None);
    var said := [WindowClosed(a.wid, Finished(ExpiredNoQuorum))];
    ClearLocks(h, g, Final(d1, e), Final(v1, f), mem, said);
    ThenLocks(h, g, Then(Exec([d1], mem, []), e), Then(Exec([v1], mem, []), f),
              Exec([ClearActiveWindow(Final(d1, e))], gone, said), Exec([ClearActiveWindow(Final(v1, f))], gone, said));
    SameSteps(h, g, Then(Then(Exec([d1], mem, []), e), Exec([ClearActiveWindow(Final(d1, e))], gone, said)),
              Then(Then(Exec([v1], mem, []), f), Exec([ClearActiveWindow(Final(v1, f))], gone, said)),
              ExpiredWithoutQuorum(d, mem, a), ExpiredWithoutQuorum(v, mem, a));
  }

  lemma DeadlineLocks(p: Platform, cfg: Config, h: Option<string>, g: Option<Announced>, d: Db, v: Db, mem: Mem, s: Senses)
    requires ValidConfig(cfg) && Veils(h, g, d, v)
    ensures Lockstep(h, g, CheckDeadline(p, cfg, d, mem, s), CheckDeadline(p, cfg, v, mem, s))
  {
    IdleLocks(h, g, mem);
    if mem.active.Some? {
      var a := mem.active.value;
      ExpiredLocks(h, g, d, v, mem, a);
      UnheardLocks(h, g, d, v, mem, a);
      AndMaybeOpenLocks(p, cfg, h, g, d, v, Expired(d, mem, a), Expired(v, mem, a), s);
      AndMaybeOpenLocks(p, cfg, h, g, d, v, ExpiredWithoutQuorum(d, mem, a), ExpiredWithoutQuorum(v, mem, a), s);
    }
    hide Veils, Lockstep, AndMaybeOpen, Expired, ExpiredWithoutQuorum, QuorumOf, ComoActiva;
  }

  /** A handler of a leader makes the same writes, and leaves the same memory, on the store and on what the leader knows of
      it; the pointer and the announcement it does not know of are there until it writes over them. */
  lemma HandledLocks(p: Platform, cfg: Config, db: Db, mem: Mem, s: Senses, ev: Event)
    requires ValidConfig(cfg) && mem.isLeader
    ensures Lockstep(MissedPointer(db, mem), MissedPause(db, mem), Handled(p, cfg, db, mem, s, ev), Handled(p, cfg,
        Known(db, mem), mem, s, ev))
  {
    hide *;
    KnownVeils(db, mem);
    var h, g, v := MissedPointer(db, mem), MissedPause(db, mem), Known(db, mem);
    HandledIs(p, cfg, db, mem, s, ev);
    HandledIs(p, cfg, v, mem, s, ev);
    IdleLocks(h, g, mem);
    match ev
    case Proposed(m) => ProposalLocks(p, cfg, h, g, db, v, mem, s, m);
    case Answered(m) => NonceLocks(p, cfg, h, g, db, v, mem, s, m);
    case DeliberationTick => CheckDeliberationLocks(p, cfg, h, g, db, v, mem, s);
    case DeadlineTick => DeadlineLocks(p, cfg, h, g, db, v, mem, s);
    case OpenTick => MaybeOpenLocks(p, cfg, h, g, db, v, mem, s);
    case Promoted =>
      LeaderIdles(p, cfg, db, mem, s);
      LeaderIdles(p, cfg, v, mem, s);
  }

  lemma LeaderIdles(p: Platform, cfg: Config, db: Db, mem: Mem, s: Senses)
    requires ValidConfig(cfg) && mem.isLeader
    ensures BecomeLeader(p, cfg, db, mem, s) == Idle(mem)
  {
  }
}
