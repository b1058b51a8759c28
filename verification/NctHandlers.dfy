/** Every handler of a lone leader keeps the invariant at each of its writes and leaves memory and store in step. */
module NctHandlers {
  import opened Wrappers
  import opened Platform
  import opened Text
  import opened Challenge
  import opened Categories
  import opened Laws
  import opened Chain
  import opened Store
  import opened Nct
  import opened NctInvariant
  import Turns
  import Deliberation

  /** The window in memory is the one the store would give back, it is open, and nobody holds its guard. */
  ghost predicate ActiveInStep(p: Platform, db: Db, a: Active) {
    && db.active == Some(a.wid) && a.wid in db.windows && db.windows[a.wid].result.None?
    && a.wid !in db.guards && !LastIs(Blocks(db), a.wid)
    && Rebuilt(p, a.wid, db.windows[a.wid], GetLaw(db, db.windows[a.wid].lawId)) == Some(a)
  }

  ghost predicate AnnouncedInStep(db: Db, a: Announced) {
    && db.deliberation == Some(a) && a.lawId in db.laws
    && db.laws[a.lawId].status == InDeliberation && db.laws[a.lawId].action == a.action
  }

  /** Memory and store agree; a coordinator that does not lead remembers nothing. */
  ghost predicate InStep(p: Platform, db: Db, mem: Mem) {
    && (mem.active.Some? ==> mem.isLeader && mem.deliberation.None? && ActiveInStep(p, db, mem.active.value))
    && (mem.deliberation.Some? ==> mem.isLeader && AnnouncedInStep(db, mem.deliberation.value))
  }

  ghost predicate AllDurable(p: Platform, steps: seq<Db>) {
    forall i :: 0 <= i < |steps| ==> Durable(p, steps[i])
  }

  /** An execution that is sound at every write and in step at its end. */
  ghost predicate Sound(p: Platform, db: Db, e: Exec) {
    AllDurable(p, e.steps) && Durable(p, Final(db, e)) && InStep(p, Final(db, e), e.mem)
  }

  /** What the library functions are assumed to do. */
  ghost predicate Assumptions(p: Platform, cfg: Config) {
    CollisionFree(p) && ClockTextFaithful(p) && ValidConfig(cfg)
  }

  lemma FinalOfThen(db: Db, e: Exec, next: Exec)
    ensures Final(db, Then(e, next)) == Final(Final(db, e), next)
  {
  }

  lemma DurableThen(p: Platform, db: Db, e: Exec, next: Exec)
    requires AllDurable(p, e.steps) && AllDurable(p, next.steps)
    ensures AllDurable(p, Then(e, next).steps)
    ensures Final(db, Then(e, next)) == Final(Final(db, e), next)
  {
    hide Durable;
    FinalOfThen(db, e, next);
  }

  /** The queue and the active window hold different laws. */
  lemma QueuedIsNotHeld(p: Platform, db: Db, id: string)
    requires Durable(p, db) && (id in db.queue || (id in db.laws && db.laws[id].status != InWindow))
    ensures !Holds(db, id)
  {
  }

  /** A window id with the next number is new everywhere. */
  lemma FreshWindow(p: Platform, db: Db, num: nat, rest: string)
    requires Durable(p, db) && num == db.counter + 1
    ensures var wid := WindowId(num, rest); wid !in db.windows && wid !in db.guards && !FromWid(Blocks(db), wid)
  {
    var wid, bs := WindowId(num, rest), Blocks(db);
    WindowNumberOfId(num, rest);
    hide WindowNumber, WindowId, GetChain;
    forall i | 0 <= i < |bs| ensures bs[i].votingWindowId in db.windows {
      assert FromWindow(p, bs[i], db.windows);
    }
  }

  // ---- shapes: what a few writes leave alone ----

  lemma ResultShape(db: Db, wid: string, result: WindowResult, nonce: Option<int>, winner: Option<string>)
    ensures var d := SetWindowResult(db, wid, result, nonce, winner);
      d == db.(windows := d.windows) && Blocks(d) == Blocks(db)
  {
  }

  lemma StatusShape(db: Db, id: string, status: Status)
    requires id in db.laws
    ensures var d := SetLawStatus(db, id, status);
      && d == db.(laws := d.laws) && d.laws == db.laws[id := db.laws[id].(status := status)]
      && id in d.laws && d.laws[id] == db.laws[id].(status := status)
      && Blocks(d) == Blocks(db)
  {
  }

  lemma StepsDurable(p: Platform, d1: Db, d2: Db, d3: Db, d4: Db)
    requires Durable(p, d1) && Durable(p, d2) && Durable(p, d3) && Durable(p, d4)
    ensures AllDurable(p, [d1, d2, d3]) && AllDurable(p, [d1, d2, d3, d4]) && AllDurable(p, [d1, d2])
  {
    hide Durable;
  }

  lemma NothingToRemember(p: Platform, db: Db, mem: Mem)
    requires mem.active.None? && mem.deliberation.None?
    ensures InStep(p, db, mem)
  {
  }

  /** An execution with at least one write ends in the state of the last. */
  lemma SoundSteps(p: Platform, db: Db, e: Exec, last: Db)
    requires e.steps != [] && e.steps[|e.steps| - 1] == last && AllDurable(p, e.steps) && InStep(p, last, e.mem)
    ensures Sound(p, db, e)
  {
    hide Durable, InStep;
  }

  // ---- openings ----

  lemma InstalledSound(p: Platform, db: Db, mem: Mem, law: Law, o: Opening, s: Senses)
    requires Durable(p, db) && ClockTextFaithful(p)
    requires law.lawId in db.laws && law == db.laws[law.lawId] && Ready(Blocks(db), law) && !Holds(db, law.lawId)
    requires o.wid !in db.windows && o.wid !in db.guards && WindowNumber(o.wid) <= db.counter && !FromWid(Blocks(db), o.wid)
    ensures var e := Installed(p, db, mem, law, o, s);
      && AllDurable(p, e.steps) && ActiveInStep(p, Final(db, e), ActiveOf(law, o))
      && Final(db, e).chain == db.chain && Final(db, e).blocks == db.blocks
  {
    hide Durable, Ready, GetChain, WindowNumber, NormalizeCategory, IntText, ParseInt;
    ParseIntText(o.nZeros);
    NormalizeIdempotent(Some(law.category));
    var d1 := SaveWindow(db, o.wid, WindowOf(p, law, o, s));
    assert WindowNumber(o.wid) <= db.counter;
    NewWindow(p, db, o.wid, WindowOf(p, law, o, s));
    var d2 := SetLawStatus(d1, law.lawId, InWindow);
    StatusWrite(p, d1, law.lawId, InWindow);
    var d3 := RemoveFromQueue(d2, law.lawId);
    RemoveWrite(p, d2, law.lawId);
    ReadyAlike(Blocks(db), law, d3.laws[law.lawId]);
    NotLast(Blocks(db), o.wid);
    PointerWrite(p, d3, o.wid);
  }

  lemma ReadyAlike(bs: seq<Block>, a: Law, b: Law)
    requires Ready(bs, a) && a.lawId == b.lawId && a.action == b.action
    ensures Ready(bs, b)
  {
  }

  lemma NotLast(bs: seq<Block>, wid: string)
    requires !FromWid(bs, wid)
    ensures !LastIs(bs, wid)
  {
  }

  lemma TurnTakenSound(p: Platform, db: Db, mem: Mem, law: Law)
    requires Durable(p, db) && InStep(p, db, mem)
    ensures Sound(p, db, TurnTaken(db, mem, law))
  {
    var d1 := SetLastAuthor(db, TurnHolder(law));
    SideWrite(p, db, d1);
    var d2 := PushWindowAuthor(d1, TurnHolder(law));
    SideWrite(p, d1, d2);
    hide Durable, GetChain, Rebuilt, TurnHolder, Turns.Push;
  }

  lemma OpenDirectSound(p: Platform, cfg: Config, db: Db, mem: Mem, s: Senses, law: Law)
    requires Assumptions(p, cfg) && Durable(p, db) && InStep(p, db, mem) && mem.isLeader
    requires mem.active.None? && mem.deliberation.None?
    requires law.lawId in db.queue && law.lawId in db.laws && db.laws[law.lawId] == law
    ensures Sound(p, db, OpenDirect(p, cfg, db, mem, s, law))
  {
    hide Durable, GetChain, Ready, WindowNumber, WindowId, Measured, Installed, TurnTaken, FromWid, ActiveInStep;
    var d := NextWindowNumber(db);
    SideWrite(p, db, d);
    var m := Measured(cfg, d, mem, s);
    var e1 := Then(Exec([d], mem, []), m);
    var d1 := Final(db, e1);
    MeasuredSound(p, cfg, d, mem, s);
    DurableThen(p, db, Exec([d], mem, []), m);
    var o := OpeningDirect(cfg, d.counter, law, e1.mem, s);
    FreshWindow(p, db, d.counter, law.lawId);
    WindowNumberOfId(d.counter, law.lawId);
    QueuedIsNotHeld(p, db, law.lawId);
    QueuedIsReady(p, db, law.lawId);
    InstalledSound(p, d1, e1.mem, law, o, s);
    var e2 := Then(e1, Installed(p, d1, e1.mem, law, o, s));
    DurableThen(p, db, e1, Installed(p, d1, e1.mem, law, o, s));
    InstalledMem(p, d1, e1.mem, law, o, s);
    LastDurable(p, db, e2);
    TurnTakenSound(p, Final(db, e2), e2.mem, law);
    DurableThen(p, db, e2, TurnTaken(Final(db, e2), e2.mem, law));
  }

  lemma QueuedIsReady(p: Platform, db: Db, id: string)
    requires Durable(p, db) && id in db.queue
    ensures id in db.laws && Ready(Blocks(db), db.laws[id]) && db.laws[id].lawId == id
  {
  }

  lemma LastDurable(p: Platform, db: Db, e: Exec)
    requires AllDurable(p, e.steps) && e.steps != []
    ensures Durable(p, Final(db, e))
  {
    hide Durable;
  }

  lemma InstalledMem(p: Platform, db: Db, mem: Mem, law: Law, o: Opening, s: Senses)
    ensures Installed(p, db, mem, law, o, s).mem == mem.(active := Some(ActiveOf(law, o)))
    ensures |Installed(p, db, mem, law, o, s).steps| == 4
  {
  }

  /** Measuring writes the ratchet and nothing else. */
  lemma MeasuredSound(p: Platform, cfg: Config, db: Db, mem: Mem, s: Senses)
    requires ValidConfig(cfg) && Durable(p, db)
    ensures var e := Measured(cfg, db, mem, s);
      && AllDurable(p, e.steps) && Durable(p, Final(db, e))
      && Final(db, e) == db.(difficulty := Final(db, e).difficulty)
      && e.mem == mem.(nZeros := e.mem.nZeros, nonceSpace := e.mem.nonceSpace)
  {
    var e := Measured(cfg, db, mem, s);
    if cfg.dynamic {
      SideWrite(p, db, e.steps[0]);
    }
  }

  lemma OpenFrozenShape(p: Platform, db: Db, mem: Mem, s: Senses, law: Law, f: Frozen)
    ensures var d := NextWindowNumber(db);
      var o := OpeningFrozen(d.counter, law, mem, s, f);
      && OpenFrozen(p, db, mem, s, law, f) == Then(Exec([d], mem, []), Installed(p, d, mem, law, o, s))
      && o.wid == WindowId(d.counter, law.lawId + "-" + s.salt) && d == db.(counter := db.counter + 1) && Blocks(d) == Blocks(db)
  {
    hide Installed, WindowId;
  }

  lemma CounterUp(p: Platform, db: Db)
    requires Durable(p, db)
    ensures Durable(p, NextWindowNumber(db))
  {
    SideWrite(p, db, NextWindowNumber(db));
  }

  lemma ActiveMemoryOf(p: Platform, db: Db, mem: Mem, a: Active)
    requires ActiveInStep(p, db, a) && mem.isLeader && mem.deliberation.None?
    ensures InStep(p, db, mem.(active := Some(a)))
  {
  }

  lemma OpenFrozenSound(p: Platform, db: Db, mem: Mem, s: Senses, law: Law, f: Frozen)
    requires Durable(p, db) && ClockTextFaithful(p) && mem.isLeader && mem.deliberation.None?
    requires law.lawId in db.laws && db.laws[law.lawId] == law && law.status == InDeliberation && Ready(Blocks(db), law)
    ensures Sound(p, db, OpenFrozen(p, db, mem, s, law, f))
  {
    hide *;
    var d := NextWindowNumber(db);
    CounterUp(p, db);
    OpenFrozenShape(p, db, mem, s, law, f);
    var o := OpeningFrozen(d.counter, law, mem, s, f);
    FreshWindow(p, db, d.counter, law.lawId + "-" + s.salt);
    WindowNumberOfId(d.counter, law.lawId + "-" + s.salt);
    QueuedIsNotHeld(p, d, law.lawId);
    var next := Installed(p, d, mem, law, o, s);
    InstalledSound(p, d, mem, law, o, s);
    InstalledMem(p, d, mem, law, o, s);
    LastDurable(p, d, next);
    ActiveMemoryOf(p, Final(d, next), mem, ActiveOf(law, o));
    SoundIs(p, d, next);
    SealedThen(p, db, d, mem, next);
  }

  lemma SoundIs(p: Platform, db: Db, e: Exec)
    requires AllDurable(p, e.steps) && Durable(p, Final(db, e)) && InStep(p, Final(db, e), e.mem)
    ensures Sound(p, db, e)
  {
  }

  // ---- deliberation ----

  lemma VetoWritten(p: Platform, db: Db, id: string, voter: string)
    requires Durable(p, db)
    ensures var d := SetDeliberationDecision(db, id, voter, Deliberation.REJECT);
      Durable(p, d) && d == db.(decisions := d.decisions)
  {
    SideWrite(p, db, SetDeliberationDecision(db, id, voter, Deliberation.REJECT));
  }

  /** Every state of the list differs from db in the answers only. */
  predicate OnlyDecisions(db: Db, steps: seq<Db>) {
    forall i :: 0 <= i < |steps| ==> steps[i] == db.(decisions := steps[i].decisions)
  }

  lemma DecisionsPrepended(p: Platform, db: Db, d: Db, rest: seq<Db>)
    requires Durable(p, d) && d == db.(decisions := d.decisions)
    requires AllDurable(p, rest) && OnlyDecisions(d, rest)
    ensures AllDurable(p, [d] + rest) && OnlyDecisions(db, [d] + rest)
  {
    hide Durable;
  }

  lemma {:induction false} VetoStepsSound(p: Platform, db: Db, id: string, voters: seq<Deliberation.Convocado>)
    requires Durable(p, db)
    ensures AllDurable(p, VetoSteps(db, id, voters)) && OnlyDecisions(db, VetoSteps(db, id, voters))
    decreases |voters|
  {
    hide Durable, SetDeliberationDecision;
    if voters != [] {
      if voters[0].prevetoed {
        var d := SetDeliberationDecision(db, id, voters[0].voterId, Deliberation.REJECT);
        VetoWritten(p, db, id, voters[0].voterId);
        VetoStepsSound(p, d, id, voters[1..]);
        DecisionsPrepended(p, db, d, VetoSteps(d, id, voters[1..]));
      } else {
        VetoStepsSound(p, db, id, voters[1..]);
      }
    }
  }

  lemma AnnounceShape(db: Db, mem: Mem, a: Announced)
    ensures var e := Announce(db, mem, a);
      var d1 := SaveDeliberation(db, a);
      var d2 := SetLawStatus(d1, a.lawId, InDeliberation);
      e == Exec([d1, d2, RemoveFromQueue(d2, a.lawId)], mem, []) && Final(db, e) == RemoveFromQueue(d2, a.lawId)
      && d1 == db.(deliberation := Some(a)) && Blocks(d1) == Blocks(db)
      && RemoveFromQueue(d2, a.lawId) == d2.(queue := RemoveFromQueue(d2, a.lawId).queue)
  {
  }

  lemma AnnouncedIs(db: Db, a: Announced)
    requires db.deliberation == Some(a) && a.lawId in db.laws
    requires db.laws[a.lawId].status == InDeliberation && db.laws[a.lawId].action == a.action
    ensures AnnouncedInStep(db, a)
  {
  }

  lemma AnnounceSound(p: Platform, db: Db, mem: Mem, a: Announced)
    requires Durable(p, db) && a.lawId in db.queue
    requires a.lawId in db.laws && db.laws[a.lawId].action == a.action
    ensures var e := Announce(db, mem, a); AllDurable(p, e.steps) && AnnouncedInStep(Final(db, e), a)
  {
    hide *;
    QueuedIsReady(p, db, a.lawId);
    QueuedIsNotHeld(p, db, a.lawId);
    AnnounceShape(db, mem, a);
    var d1 := SaveDeliberation(db, a);
    AnnouncementWrite(p, db, a);
    HeldAlike(db, d1, a.lawId);
    var d2 := SetLawStatus(d1, a.lawId, InDeliberation);
    StatusWrite(p, d1, a.lawId, InDeliberation);
    StatusShape(d1, a.lawId, InDeliberation);
    RemoveWrite(p, d2, a.lawId);
    StepsDurable(p, d1, d2, RemoveFromQueue(d2, a.lawId), d1);
    AnnouncedIs(RemoveFromQueue(d2, a.lawId), a);
  }

  lemma AnnouncementConcerns(p: Platform, cfg: Config, mem: Mem, s: Senses, law: Law, voters: seq<Deliberation.Convocado>, nBase: int)
    requires ValidConfig(cfg)
    ensures var a := AnnouncementOf(p, cfg, mem, s, law, voters, nBase); a.lawId == law.lawId && a.action == law.action
  {
  }

  /** Clearing old answers and writing the vetoes given in advance. */
  lemma VetoesSound(p: Platform, db: Db, mem: Mem, id: string, voters: seq<Deliberation.Convocado>)
    requires Durable(p, db)
    ensures var d := ClearDeliberationDecisions(db, id);
      var e := Exec([d] + VetoSteps(d, id, voters), mem, []);
      && AllDurable(p, e.steps) && Durable(p, Final(db, e)) && Final(db, e) == db.(decisions := Final(db, e).decisions)
  {
    var d := ClearDeliberationDecisions(db, id);
    DecisionsCleared(p, db, id);
    VetoStepsSound(p, d, id, voters);
    hide Durable, VetoSteps;
    var e := Exec([d] + VetoSteps(d, id, voters), mem, []);
    LastDurable(p, db, e);
  }

  lemma StartDeliberationShape(p: Platform, cfg: Config, db: Db, mem: Mem, s: Senses, law: Law, e1: Exec, veto: Exec, a: Announced)
    requires ValidConfig(cfg)
    requires var voters := VotersFor(cfg, s, law);
      && e1 == MeasuredFor(cfg, db, mem, law, voters).0
      && a == AnnouncementOf(p, cfg, mem, s, law, voters, MeasuredFor(cfg, db, mem, law, voters).1)
      && var d := ClearDeliberationDecisions(Final(db, e1), law.lawId);
         veto == Exec([d] + VetoSteps(d, law.lawId, voters), mem, [])
    ensures var e2 := Then(e1, veto);
      var e3 := Then(e2, Announce(Final(db, e2), mem, a));
      var e4 := Then(e3, TurnTaken(Final(db, e3), mem, law));
      StartDeliberation(p, cfg, db, mem, s, law) == e4.(mem := e4.mem.(deliberation := Some(a)))
  {
    hide VotersFor, MeasuredFor, AnnouncementOf, VetoSteps, Announce, TurnTaken, Final, Then;
  }

  lemma AnnouncedMemory(p: Platform, db: Db, mem: Mem, a: Announced)
    requires AnnouncedInStep(db, a) && mem.isLeader && mem.active.None?
    ensures InStep(p, db, mem.(deliberation := Some(a)))
  {
  }

  lemma SameSteps(p: Platform, db: Db, e: Exec, f: Exec, mem: Mem)
    requires Sound(p, db, e) && f.steps == e.steps && f.mem == e.mem
    ensures Sound(p, db, f)
  {
    hide Durable, InStep;
  }

  lemma StartDeliberationSound(p: Platform, cfg: Config, db: Db, mem: Mem, s: Senses, law: Law)
    requires Assumptions(p, cfg) && Durable(p, db) && mem.isLeader
    requires mem.active.None? && mem.deliberation.None?
    requires law.lawId in db.queue && law.lawId in db.laws && db.laws[law.lawId] == law
    ensures Sound(p, db, StartDeliberation(p, cfg, db, mem, s, law))
  {
    hide *;
    AssumedConfig(p, cfg);
    var voters := VotersFor(cfg, s, law);
    var e1 := MeasuredFor(cfg, db, mem, law, voters).0;
    var a := AnnouncementOf(p, cfg, mem, s, law, voters, MeasuredFor(cfg, db, mem, law, voters).1);
    AnnouncementConcerns(p, cfg, mem, s, law, voters, MeasuredFor(cfg, db, mem, law, voters).1);
    MeasuredForSound(p, cfg, db, mem, law, voters);
    var d := ClearDeliberationDecisions(Final(db, e1), law.lawId);
    var veto := Exec([d] + VetoSteps(d, law.lawId, voters), mem, []);
    VetoesSound(p, Final(db, e1), mem, law.lawId, voters);
    var e2 := Then(e1, veto);
    DurableThen(p, db, e1, veto);
    AnnounceSound(p, Final(db, e2), mem, a);
    AnnounceShape(Final(db, e2), mem, a);
    var announce := Announce(Final(db, e2), mem, a);
    LastDurable(p, Final(db, e2), announce);
    var e3 := Then(e2, announce);
    DurableThen(p, db, e2, announce);
    var remembered := mem.(deliberation := Some(a));
    AnnouncedMemory(p, Final(db, e3), mem, a);
    TurnTakenSound(p, Final(db, e3), remembered, law);
    TurnTakenShape(Final(db, e3), mem, remembered, law);
    SoundThen(p, db, e3, TurnTaken(Final(db, e3), remembered, law));
    StartDeliberationShape(p, cfg, db, mem, s, law, e1, veto, a);
    ThenShape(e3, TurnTaken(Final(db, e3), remembered, law));
    ThenShape(e3, TurnTaken(Final(db, e3), mem, law));
    SameSteps(p, db, Then(e3, TurnTaken(Final(db, e3), remembered, law)), StartDeliberation(p, cfg, db, mem, s, law), mem);
  }

  lemma ThenShape(e: Exec, next: Exec)
    ensures Then(e, next).steps == e.steps + next.steps && Then(e, next).mem == next.mem
  {
  }

  lemma TurnTakenShape(db: Db, m1: Mem, m2: Mem, law: Law)
    ensures TurnTaken(db, m1, law).steps == TurnTaken(db, m2, law).steps
    ensures TurnTaken(db, m1, law).mem == m1.(lastAuthor := Some(TurnHolder(law)))
    ensures TurnTaken(db, m2, law).mem == m2.(lastAuthor := Some(TurnHolder(law)))
  {
  }

  lemma MeasuredForSound(p: Platform, cfg: Config, db: Db, mem: Mem, law: Law, voters: seq<Deliberation.Convocado>)
    requires Durable(p, db)
    ensures var e := MeasuredFor(cfg, db, mem, law, voters).0;
      && AllDurable(p, e.steps) && Durable(p, Final(db, e)) && e.mem == mem && e.out == []
      && Final(db, e) == db.(difficulty := Final(db, e).difficulty)
  {
    var e := MeasuredFor(cfg, db, mem, law, voters).0;
    if cfg.dynamic {
      SideWrite(p, db, e.steps[0]);
    }
  }

  /** Opening, announcing or doing nothing: maybe_open_window is sound. */
  lemma MaybeOpenSound(p: Platform, cfg: Config, db: Db, mem: Mem, s: Senses)
    requires Assumptions(p, cfg) && Durable(p, db) && InStep(p, db, mem)
    ensures Sound(p, db, MaybeOpen(p, cfg, db, mem, s))
  {
    hide NextLaw, StartDeliberation, OpenDirect;
    if mem.isLeader && mem.active.None? && mem.deliberation.None? {
      var next := NextLaw(cfg, db, mem, s);
      if next.Some? {
        var id :| id in db.queue && id in db.laws && db.laws[id] == next.value;
        QueuedIsReady(p, db, id);
        if cfg.deliberationMicros > 0 {
          StartDeliberationSound(p, cfg, db, mem, s, next.value);
        } else {
          OpenDirectSound(p, cfg, db, mem, s, next.value);
        }
      }
    }
  }

  lemma AndMaybeOpenSound(p: Platform, cfg: Config, db: Db, e: Exec, s: Senses)
    requires Assumptions(p, cfg) && Sound(p, db, e)
    ensures Sound(p, db, AndMaybeOpen(p, cfg, db, e, s))
  {
    hide Durable, InStep, MaybeOpen;
    MaybeOpenSound(p, cfg, Final(db, e), e.mem, s);
    DurableThen(p, db, e, MaybeOpen(p, cfg, Final(db, e), e.mem, s));
  }

  /** Counting a silent round touches only the count. */
  lemma SilenceCounted(p: Platform, db: Db, id: string, n: int)
    requires Durable(p, db) && id in db.laws && db.laws[id].lawId == id && Ready(Blocks(db), db.laws[id])
    ensures var d := SetSilentDeliberations(db, id, n);
      && Durable(p, d) && d == db.(laws := d.laws) && Blocks(d) == Blocks(db)
      && id in d.laws && d.laws[id] == db.laws[id].(silent := n) && Ready(Blocks(d), d.laws[id])
  {
    var d := SetSilentDeliberations(db, id, n);
    hide Durable, GetChain, Ready;
    LawTouched(p, db, id, d.laws[id]);
    ReadyAlike(Blocks(db), db.laws[id], d.laws[id]);
  }

  /** Recording the result and forgetting the deliberation. */
  lemma PauseForgotten(p: Platform, db: Db, id: string, r: DeliberationResult)
    requires Durable(p, db)
    ensures var d1 := SaveDeliberationResult(db, id, r);
      var d2 := ClearDeliberation(d1);
      var d3 := ClearDeliberationDecisions(d2, id);
      && Durable(p, d1) && Durable(p, d2) && Durable(p, d3)
      && d3 == db.(results := d3.results, deliberation := None, decisions := d3.decisions) && Blocks(d3) == Blocks(db)
  {
    var d1 := SaveDeliberationResult(db, id, r);
    var d2 := ClearDeliberation(d1);
    var d3 := ClearDeliberationDecisions(d2, id);
    SideWrite(p, db, d1);
    AnnouncementCleared(p, d1);
    SideWrite(p, d2, d3);
    hide Durable, GetChain;
  }

  /** The state PauseEnded leaves, and the states on the way. */
  lemma PauseEndedShape(p: Platform, cfg: Config, db: Db, mem: Mem, s: Senses, a: Announced, d0: Db, r: DeliberationResult)
    requires r == ResultOf(p, a, Judged(cfg, db, a).0, DeliberationDecisions(db, a.lawId), s)
    requires d0 == if Judged(cfg, db, a).2.Some? then SetSilentDeliberations(db, a.lawId, Judged(cfg, db, a).2.value) else db
    ensures var e := PauseEnded(p, cfg, db, mem, s, a);
      var d1 := SaveDeliberationResult(d0, a.lawId, r);
      var d2 := ClearDeliberation(d1);
      var d3 := ClearDeliberationDecisions(d2, a.lawId);
      && e.steps == (if Judged(cfg, db, a).2.Some? then [d0] else []) + [d1, d2, d3]
      && Final(db, e) == d3 && e.mem == mem.(deliberation := None)
  {
    hide Judged, ResultOf, SetSilentDeliberations, SaveDeliberationResult, ClearDeliberation, ClearDeliberationDecisions;
  }

  lemma OneMore(p: Platform, first: seq<Db>, rest: seq<Db>)
    requires AllDurable(p, first) && AllDurable(p, rest)
    ensures AllDurable(p, first + rest)
  {
    hide Durable;
  }

  lemma OneStep(p: Platform, d: Db)
    requires Durable(p, d)
    ensures AllDurable(p, [d]) && AllDurable(p, [])
  {
    hide Durable;
  }

  lemma AnnouncedKnown(db: Db, a: Announced)
    requires AnnouncedInStep(db, a)
    ensures a.lawId in db.laws && db.laws[a.lawId].status == InDeliberation && db.laws[a.lawId].action == a.action
    ensures db.deliberation == Some(a)
  {
  }

  /** After the pause is closed the law is still the one that was announced, and ready. */
  lemma PauseEndedSound(p: Platform, cfg: Config, db: Db, mem: Mem, s: Senses, a: Announced)
    requires Durable(p, db) && AnnouncedInStep(db, a)
    ensures var e := PauseEnded(p, cfg, db, mem, s, a);
      && AllDurable(p, e.steps) && Durable(p, Final(db, e)) && e.mem == mem.(deliberation := None)
      && Blocks(Final(db, e)) == Blocks(db)
      && a.lawId in Final(db, e).laws && Final(db, e).laws[a.lawId].status == InDeliberation
      && Final(db, e).laws[a.lawId].lawId == a.lawId && Ready(Blocks(db), Final(db, e).laws[a.lawId])
  {
    hide *;
    AnnouncedIsReady(p, db, a);
    AnnouncedKnown(db, a);
    var silences := Judged(cfg, db, a).2;
    var r := ResultOf(p, a, Judged(cfg, db, a).0, DeliberationDecisions(db, a.lawId), s);
    var d0 := if silences.Some? then SetSilentDeliberations(db, a.lawId, silences.value) else db;
    if silences.Some? {
      SilenceCounted(p, db, a.lawId, silences.value);
    }
    PauseForgotten(p, d0, a.lawId, r);
    PauseEndedShape(p, cfg, db, mem, s, a, d0, r);
    var d1 := SaveDeliberationResult(d0, a.lawId, r);
    var d2 := ClearDeliberation(d1);
    StepsDurable(p, d1, d2, ClearDeliberationDecisions(d2, a.lawId), d1);
    OneStep(p, d0);
    OneMore(p, if silences.Some? then [d0] else [], [d1, d2, ClearDeliberationDecisions(d2, a.lawId)]);
  }

  lemma AnnouncedIsReady(p: Platform, db: Db, a: Announced)
    requires Durable(p, db) && AnnouncedInStep(db, a)
    ensures Ready(Blocks(db), db.laws[a.lawId]) && db.laws[a.lawId].lawId == a.lawId
  {
  }

  lemma ThrownOutSound(p: Platform, db: Db, mem: Mem, id: string, textHash: Option<string>)
    requires Durable(p, db) && id in db.laws && !Holds(db, id)
    ensures var e := ThrownOut(db, mem, id, textHash);
      && AllDurable(p, e.steps) && Durable(p, Final(db, e)) && e.mem == mem && e.steps != []
  {
    hide Durable;
    var d := SetLawStatus(db, id, Status.Discarded);
    StatusWrite(p, db, id, Status.Discarded);
    if textHash.Some? {
      SideWrite(p, d, MarkTextHashDiscarded(d, textHash.value));
    }
  }

  lemma RequeuedSound(p: Platform, db: Db, mem: Mem, id: string)
    requires Durable(p, db) && id in db.laws && !Holds(db, id) && Ready(Blocks(db), db.laws[id])
    ensures var e := Requeued(db, mem, id);
      && AllDurable(p, e.steps) && Durable(p, Final(db, e)) && e.mem == mem
  {
    hide Durable, Ready, GetChain;
    var d := SetLawStatus(db, id, PendingQueue);
    StatusWrite(p, db, id, PendingQueue);
    ReadyAlike(Blocks(db), db.laws[id], d.laws[id]);
    EnqueueWrite(p, d, id);
  }

  lemma ResolveDeliberationSound(p: Platform, cfg: Config, db: Db, mem: Mem, s: Senses, a: Announced)
    requires Assumptions(p, cfg) && Durable(p, db) && InStep(p, db, mem) && mem.deliberation == Some(a)
    ensures Sound(p, db, ResolveDeliberation(p, cfg, db, mem, s, a))
  {
    hide Durable, GetChain, Ready, PauseEnded, Judged, OpenFrozen, AndMaybeOpen, ActiveInStep, ThrownOut, Requeued;
    var (outcome, accepted, _) := Judged(cfg, db, a);
    var e := PauseEnded(p, cfg, db, mem, s, a);
    PauseEndedSound(p, cfg, db, mem, s, a);
    var d := Final(db, e);
    var law := d.laws[a.lawId];
    QueuedIsNotHeld(p, d, a.lawId);
    match outcome
    case Open =>
      var next := OpenFrozen(p, d, e.mem, s, law, Frozen(a, accepted));
      OpenFrozenSound(p, d, e.mem, s, law, Frozen(a, accepted));
      DurableThen(p, db, e, next);
    case Discard =>
      ThrownOutSound(p, d, e.mem, a.lawId, Some(law.textHash));
      DurableThen(p, db, e, ThrownOut(d, e.mem, a.lawId, Some(law.textHash)));
      AndMaybeOpenSound(p, cfg, db, Then(e, ThrownOut(d, e.mem, a.lawId, Some(law.textHash))), s);
    case Unanswered =>
      ThrownOutSound(p, d, e.mem, a.lawId, None);
      DurableThen(p, db, e, ThrownOut(d, e.mem, a.lawId, None));
      AndMaybeOpenSound(p, cfg, db, Then(e, ThrownOut(d, e.mem, a.lawId, None)), s);
    case Requeue =>
      RequeuedSound(p, d, e.mem, a.lawId);
      DurableThen(p, db, e, Requeued(d, e.mem, a.lawId));
      AndMaybeOpenSound(p, cfg, db, Then(e, Requeued(d, e.mem, a.lawId)), s);
  }

  lemma CheckDeliberationSound(p: Platform, cfg: Config, db: Db, mem: Mem, s: Senses)
    requires Assumptions(p, cfg) && Durable(p, db) && InStep(p, db, mem)
    ensures Sound(p, db, CheckDeliberation(p, cfg, db, mem, s))
  {
    hide Durable, ResolveDeliberation, InStep;
    if mem.deliberation.Some? {
      ResolveDeliberationSound(p, cfg, db, mem, s, mem.deliberation.value);
    }
  }

  // ---- proposals ----

  /** A law that is not in a window, a deliberation or memory changes, and memory stays in step. */
  lemma OtherLawChanges(p: Platform, db: Db, d: Db, mem: Mem, id: string)
    requires InStep(p, db, mem)
    requires d == db.(laws := d.laws, queue := d.queue, cooldowns := d.cooldowns)
    requires forall k :: k in db.laws && k != id ==> k in d.laws && d.laws[k] == db.laws[k]
    requires id in db.laws ==> id in d.laws && d.laws[id].author == db.laws[id].author
    requires mem.active.Some? ==> mem.active.value.lawId in db.laws
    requires mem.deliberation.Some? ==> mem.deliberation.value.lawId != id
    ensures InStep(p, d, mem)
  {
    hide GetChain;
  }

  lemma ActiveLawKnown(p: Platform, db: Db, mem: Mem)
    requires Durable(p, db) && InStep(p, db, mem) && mem.active.Some?
    ensures mem.active.value.lawId in db.laws && db.laws[mem.active.value.lawId].status == InWindow
    ensures Holds(db, mem.active.value.lawId)
  {
  }

  /** set_law_requested_by, enqueue_law, set_cooldown, on a law that is ready. */
  lemma EnqueueTail(p: Platform, db: Db, id: string, author: string, until: int, reason: CooldownReason)
    requires Durable(p, db) && id in db.laws && db.laws[id].lawId == id && Ready(Blocks(db), db.laws[id]) && !Holds(db, id)
    ensures var d2 := SetLawRequestedBy(db, id, author);
      var d3 := EnqueueLaw(d2, id);
      var d4 := SetCooldown(d3, author, until, reason);
      && Durable(p, d2) && Durable(p, d3) && Durable(p, d4)
      && d4 == db.(laws := db.laws[id := db.laws[id].(requestedBy := author)], queue := db.queue + [id], cooldowns := d4.cooldowns)
  {
    hide Durable, Ready, GetChain;
    var d2 := SetLawRequestedBy(db, id, author);
    LawTouched(p, db, id, d2.laws[id]);
    ReadyAlike(Blocks(db), db.laws[id], d2.laws[id]);
    var d3 := EnqueueLaw(d2, id);
    EnqueueWrite(p, d2, id);
    SideWrite(p, d3, SetCooldown(d3, author, until, reason));
  }

  lemma SaveLawShape(db: Db, m: Proposal, category: string)
    requires m.lawId !in db.laws
    ensures var d := SaveLaw(db, m.lawId, m.author, m.textHash, m.createdAt, category, m.textCompressed, m.textOriginalLen);
      && m.lawId in d.laws && d == db.(laws := db.laws[m.lawId := d.laws[m.lawId]]) && Blocks(d) == Blocks(db)
      && d.laws[m.lawId].lawId == m.lawId && d.laws[m.lawId].status == PendingQueue && d.laws[m.lawId].action == Promulgacion
  {
    hide GetChain, NormalizeCategory;
  }

  lemma EnqueuePromulgacionShape(cfg: Config, db: Db, mem: Mem, m: Proposal, category: string)
    ensures var e := EnqueuePromulgacion(cfg, db, mem, m, category);
      var reason := if m.textHash in db.discarded then ReproposedIdentical else ProposedNew;
      var d1 := SaveLaw(db, m.lawId, m.author, m.textHash, m.createdAt, category, m.textCompressed, m.textOriginalLen);
      var d2 := SetLawRequestedBy(d1, m.lawId, m.author);
      var d3 := EnqueueLaw(d2, m.lawId);
      e.steps == [d1, d2, d3, SetCooldown(d3, m.author, CooldownUntil(cfg, d3, reason), reason)] && e.mem == mem
  {
  }

  lemma HeldAlike(db: Db, d: Db, id: string)
    requires d.active == db.active && d.windows == db.windows
    ensures Holds(d, id) <==> Holds(db, id)
  {
  }

  /** Writes that install one law record and queue it leave the memory in step. */
  lemma EnqueuedInStep(p: Platform, db: Db, d: Db, mem: Mem, id: string)
    requires Durable(p, db) && InStep(p, db, mem)
    requires d == db.(laws := d.laws, queue := d.queue, cooldowns := d.cooldowns)
    requires id in d.laws && d.laws == db.laws[id := d.laws[id]]
    requires id in db.laws ==> d.laws[id].author == db.laws[id].author && db.laws[id].status == Promulgated
    ensures InStep(p, d, mem)
  {
    if mem.active.Some? { ActiveLawKnown(p, db, mem); }
    hide Durable, GetChain, Rebuilt, Holds;
    OtherLawChanges(p, db, d, mem, id);
  }

  lemma NewLawEnqueued(p: Platform, db: Db, d1: Db, id: string, author: string, until: int, reason: CooldownReason)
    requires Durable(p, db) && id !in db.laws && id in d1.laws && d1 == db.(laws := db.laws[id := d1.laws[id]])
    requires d1.laws[id].lawId == id && d1.laws[id].status == PendingQueue && d1.laws[id].action == Promulgacion && Blocks(d1) == Blocks(db)
    ensures var d2 := SetLawRequestedBy(d1, id, author);
      var d3 := EnqueueLaw(d2, id);
      var d4 := SetCooldown(d3, author, until, reason);
      && Durable(p, d1) && Durable(p, d2) && Durable(p, d3) && Durable(p, d4) && id in d4.laws
      && d4 == db.(laws := db.laws[id := d4.laws[id]], queue := db.queue + [id], cooldowns := d4.cooldowns)
  {
    hide *;
    UnheldUnknown(p, db, id);
    NewLaw(p, db, id, d1.laws[id]);
    HeldAlike(db, d1, id);
    EnqueueTail(p, d1, id, author, until, reason);
    WrittenTwice(db, d1, SetCooldown(EnqueueLaw(SetLawRequestedBy(d1, id, author), id), author, until, reason), id);
  }

  lemma EnqueuePromulgacionSound(p: Platform, cfg: Config, db: Db, mem: Mem, m: Proposal, category: string)
    requires Durable(p, db) && InStep(p, db, mem) && m.lawId !in db.laws
    ensures Sound(p, db, EnqueuePromulgacion(cfg, db, mem, m, category))
  {
    hide *;
    var id := m.lawId;
    var reason := if m.textHash in db.discarded then ReproposedIdentical else ProposedNew;
    var d1 := SaveLaw(db, id, m.author, m.textHash, m.createdAt, category, m.textCompressed, m.textOriginalLen);
    SaveLawShape(db, m, category);
    var d2 := SetLawRequestedBy(d1, id, m.author);
    var d3 := EnqueueLaw(d2, id);
    var d4 := SetCooldown(d3, m.author, CooldownUntil(cfg, d3, reason), reason);
    NewLawEnqueued(p, db, d1, id, m.author, CooldownUntil(cfg, d3, reason), reason);
    EnqueuePromulgacionShape(cfg, db, mem, m, category);
    StepsDurable(p, d1, d2, d3, d4);
    EnqueuedInStep(p, db, d4, mem, id);
    SoundSteps(p, db, EnqueuePromulgacion(cfg, db, mem, m, category), d4);
  }

  lemma WrittenTwice(db: Db, d1: Db, d4: Db, id: string)
    requires id in d1.laws && d1 == db.(laws := db.laws[id := d1.laws[id]])
    requires id in d4.laws && d4 == d1.(laws := d1.laws[id := d4.laws[id]], queue := d4.queue, cooldowns := d4.cooldowns)
    ensures d4 == db.(laws := db.laws[id := d4.laws[id]], queue := d4.queue, cooldowns := d4.cooldowns)
  {
    assert d4.laws == db.laws[id := d4.laws[id]];
  }

  lemma UnheldUnknown(p: Platform, db: Db, id: string)
    requires Durable(p, db) && id !in db.laws
    ensures !Holds(db, id)
  {
  }

  lemma SetActionShape(db: Db, id: string)
    requires id in db.laws
    ensures var d := SetLawAction(db, id, Derogacion);
      && id in d.laws && d == db.(laws := d.laws) && d.laws == db.laws[id := db.laws[id].(action := Derogacion)]
      && Blocks(d) == Blocks(db)
  {
  }

  lemma EnqueueDerogacionShape(cfg: Config, db: Db, mem: Mem, m: Proposal)
    ensures var e := EnqueueDerogacion(cfg, db, mem, m);
      if m.lawId in db.laws && db.laws[m.lawId].status == Promulgated then
        var d1 := SetLawAction(db, m.lawId, Derogacion);
        var d2 := SetLawRequestedBy(d1, m.lawId, m.author);
        var d3 := EnqueueLaw(d2, m.lawId);
        e.steps == [d1, d2, d3, SetCooldown(d3, m.author, CooldownUntil(cfg, d3, ProposedNew), ProposedNew)] && e.mem == mem
      else e == Idle(mem)
  {
  }

  lemma IdleSound(p: Platform, db: Db, mem: Mem)
    requires Durable(p, db) && InStep(p, db, mem)
    ensures Sound(p, db, Idle(mem))
  {
    hide Durable, InStep;
  }

  lemma EnqueueDerogacionSound(p: Platform, cfg: Config, db: Db, mem: Mem, m: Proposal)
    requires Durable(p, db) && InStep(p, db, mem)
    ensures Sound(p, db, EnqueueDerogacion(cfg, db, mem, m))
  {
    hide *;
    EnqueueDerogacionShape(cfg, db, mem, m);
    var id := m.lawId;
    if id in db.laws && db.laws[id].status == Promulgated {
      var d1 := SetLawAction(db, id, Derogacion);
      RepealWrite(p, db, id);
      SetActionShape(db, id);
      KeyIsId(p, d1, id);
      QueuedIsNotHeld(p, d1, id);
      var d2 := SetLawRequestedBy(d1, id, m.author);
      var d3 := EnqueueLaw(d2, id);
      var d4 := SetCooldown(d3, m.author, CooldownUntil(cfg, d3, ProposedNew), ProposedNew);
      EnqueueTail(p, d1, id, m.author, CooldownUntil(cfg, d3, ProposedNew), ProposedNew);
      StepsDurable(p, d1, d2, d3, d4);
      EnqueuedInStep(p, db, d4, mem, id);
      SoundSteps(p, db, EnqueueDerogacion(cfg, db, mem, m), d4);
    } else {
      IdleSound(p, db, mem);
    }
  }

  lemma KeyIsId(p: Platform, db: Db, id: string)
    requires Durable(p, db) && id in db.laws
    ensures db.laws[id].lawId == id
  {
  }

  /** The law a leader with nothing in hand goes on with, and what it does. */
  lemma OpensNext(p: Platform, cfg: Config, db: Db, mem: Mem, s: Senses) returns (law: Law)
    requires ValidConfig(cfg) && Durable(p, db) && mem.isLeader && mem.active.None? && mem.deliberation.None?
    requires NextLaw(cfg, db, mem, s).Some?
    ensures NextLaw(cfg, db, mem, s) == Some(law) && law.lawId in db.queue && law.lawId in db.laws && db.laws[law.lawId] == law
    ensures MaybeOpen(p, cfg, db, mem, s)
      == if cfg.deliberationMicros > 0 then StartDeliberation(p, cfg, db, mem, s, law) else OpenDirect(p, cfg, db, mem, s, law)
  {
    hide NextLaw, StartDeliberation, OpenDirect, Durable;
    law := NextLaw(cfg, db, mem, s).value;
    var key :| key in db.queue && key in db.laws && db.laws[key] == law;
    KeyIsId(p, db, key);
  }

  lemma HandleProposalSound(p: Platform, cfg: Config, db: Db, mem: Mem, s: Senses, m: Proposal)
    requires Assumptions(p, cfg) && Durable(p, db) && InStep(p, db, mem)
    requires m.action == Promulgacion ==> m.lawId !in db.laws
    ensures Sound(p, db, HandleProposal(p, cfg, db, mem, s, m))
  {
    hide Durable, InStep, AndMaybeOpen, EnqueueDerogacion, EnqueuePromulgacion, ValidateCategory;
    var category := ValidateCategory(m.category);
    if m.action == Derogacion {
      EnqueueDerogacionSound(p, cfg, db, mem, m);
      AndMaybeOpenSound(p, cfg, db, EnqueueDerogacion(cfg, db, mem, m), s);
    } else if category.Success? {
      EnqueuePromulgacionSound(p, cfg, db, mem, m, category.value);
      AndMaybeOpenSound(p, cfg, db, EnqueuePromulgacion(cfg, db, mem, m, category.value), s);
    }
  }

  // ---- sealing ----

  lemma CloseSealedShape(db: Db, mem: Mem, wid: string, id: string, action: Action, nonce: int, winner: string)
    ensures var e := CloseSealed(db, mem, wid, id, action, nonce, winner);
      var d1 := SetWindowResult(db, wid, Sealed, Some(nonce), Some(winner));
      var d2 := SetLawStatus(d1, id, if action == Derogacion then Repealed else Promulgated);
      e.steps == [d1, d2, ClearActiveWindow(d2)] && e.mem == mem.(active := None)
  {
  }

  lemma CloseSealedSound(p: Platform, db: Db, mem: Mem, wid: string, nonce: int, winner: string)
    requires Durable(p, db) && db.active == Some(wid) && LastIs(Blocks(db), wid)
    requires wid in db.windows && db.windows[wid].result.None? && mem.deliberation.None?
    ensures var w := db.windows[wid]; Sound(p, db, CloseSealed(db, mem, wid, w.lawId, w.action, nonce, winner))
  {
    hide *;
    var w := db.windows[wid];
    SealedLaw(p, db, wid);
    PointedLawKnown(p, db, wid);
    var d1 := SetWindowResult(db, wid, Sealed, Some(nonce), Some(winner));
    ResultWrite(p, db, wid, Sealed, Some(nonce), Some(winner));
    ResultShape(db, wid, Sealed, Some(nonce), Some(winner));
    var status := if w.action == Derogacion then Repealed else Promulgated;
    var d2 := SetLawStatus(d1, w.lawId, status);
    StatusWrite(p, d1, w.lawId, status);
    PointerCleared(p, d2);
    var e := CloseSealed(db, mem, wid, w.lawId, w.action, nonce, winner);
    CloseSealedShape(db, mem, wid, w.lawId, w.action, nonce, winner);
    StepsDurable(p, d1, d2, ClearActiveWindow(d2), d1);
    NothingToRemember(p, ClearActiveWindow(d2), e.mem);
    SoundSteps(p, db, e, ClearActiveWindow(d2));
  }

  lemma PointedLawKnown(p: Platform, db: Db, wid: string)
    requires Durable(p, db) && wid in db.windows
    ensures db.windows[wid].lawId in db.laws
  {
  }

  lemma BlockIsFromWindow(p: Platform, db: Db, a: Active, nonce: int, winner: string, s: Senses)
    requires CollisionFree(p) && a.wid in db.windows
    requires Rebuilt(p, a.wid, db.windows[a.wid], GetLaw(db, db.windows[a.wid].lawId)) == Some(a)
    requires VerifyNonce(p, a.base, nonce, a.nZeros)
    ensures var b := BlockOf(p, db, a, nonce, winner, s);
      && IsHashValid(p, b) && FromWindow(p, b, db.windows) && b.previousHash == LastBlockHash(db)
      && b.votingWindowId == a.wid && b.lawId == a.lawId
  {
    hide VerifyNonce, LastBlockHash, WinnerName;
  }

  lemma SealShape(p: Platform, db: Db, mem: Mem, s: Senses, a: Active, nonce: int, winner: string)
    requires AppendBlock(db, BlockOf(p, db, a, nonce, winner, s)).1
    ensures var d := AppendBlock(db, BlockOf(p, db, a, nonce, winner, s)).0;
      && Seal(p, db, mem, s, a, nonce, winner)
         == Then(Exec([d], mem, []), CloseSealed(d, mem, a.wid, a.lawId, a.action, nonce, winner))
      && d.windows == db.windows && d.active == db.active
  {
    hide BlockOf, ToFields, CloseSealed;
  }

  lemma AppendedIsLast(bs: seq<Block>, b: Block)
    ensures LastIs(bs + [b], b.votingWindowId)
  {
  }

  lemma RebuiltFrom(p: Platform, wid: string, w: Window, law: Option<Law>, a: Active)
    requires Rebuilt(p, wid, w, law) == Some(a)
    ensures a.wid == wid && a.lawId == w.lawId && a.action == w.action && a.base == w.base
  {
  }

  lemma PointedLawHeld(p: Platform, db: Db, wid: string)
    requires db.active == Some(wid) && wid in db.windows && db.windows[wid].result.None?
    ensures Holds(db, db.windows[wid].lawId)
  {
  }

  lemma SealSound(p: Platform, db: Db, mem: Mem, s: Senses, a: Active, nonce: int, winner: string)
    requires CollisionFree(p) && Durable(p, db) && mem.deliberation.None?
    requires db.active == Some(a.wid) && a.wid in db.windows && db.windows[a.wid].result.None? && !LastIs(Blocks(db), a.wid)
    requires Rebuilt(p, a.wid, db.windows[a.wid], GetLaw(db, db.windows[a.wid].lawId)) == Some(a)
    requires VerifyNonce(p, a.base, nonce, a.nZeros)
    ensures Sound(p, db, Seal(p, db, mem, s, a, nonce, winner))
    ensures AppendBlock(db, BlockOf(p, db, a, nonce, winner, s)).1
  {
    hide *;
    var b := BlockOf(p, db, a, nonce, winner, s);
    BlockIsFromWindow(p, db, a, nonce, winner, s);
    RebuiltFrom(p, a.wid, db.windows[a.wid], GetLaw(db, db.windows[a.wid].lawId), a);
    PointedLawHeld(p, db, a.wid);
    AppendWrite(p, db, b);
    var d := AppendBlock(db, b).0;
    AppendedIsLast(Blocks(db), b);
    SealShape(p, db, mem, s, a, nonce, winner);
    CloseSealedSound(p, d, mem, a.wid, nonce, winner);
    SealedThen(p, db, d, mem, CloseSealed(d, mem, a.wid, a.lawId, a.action, nonce, winner));
  }

  lemma SealedThen(p: Platform, db: Db, d: Db, mem: Mem, next: Exec)
    requires Durable(p, d) && Sound(p, d, next)
    ensures Sound(p, db, Then(Exec([d], mem, []), next))
  {
    hide Durable, InStep;
    DurableThen(p, db, Exec([d], mem, []), next);
  }

  lemma HandleNonceShape(p: Platform, cfg: Config, db: Db, mem: Mem, s: Senses, m: Solution)
    requires ValidConfig(cfg)
    ensures var e := HandleNonce(p, cfg, db, mem, s, m);
      || e == Idle(mem)
      || (&& mem.active.Some? && VerifyNonce(p, mem.active.value.base, m.nonce, mem.active.value.nZeros)
          && var a := mem.active.value;
             var d := TrySealWindow(db, a.wid, WinnerName(m.winner)).0;
             e == AndMaybeOpen(p, cfg, db, Then(Exec([d], mem, []), Seal(p, d, mem, s, a, m.nonce, m.winner)), s))
  {
    hide AndMaybeOpen, Seal, VerifyNonce;
  }

  lemma GuardTaken(p: Platform, db: Db, a: Active, winner: string)
    requires Durable(p, db) && ActiveInStep(p, db, a)
    ensures var d := TrySealWindow(db, a.wid, winner).0;
      && Durable(p, d) && TrySealWindow(db, a.wid, winner).1
      && d.active == Some(a.wid) && a.wid in d.windows && d.windows[a.wid].result.None? && !LastIs(Blocks(d), a.wid)
      && Rebuilt(p, a.wid, d.windows[a.wid], GetLaw(d, d.windows[a.wid].lawId)) == Some(a)
  {
    var d := TrySealWindow(db, a.wid, winner).0;
    GuardWrite(p, db, d.guards);
    hide Durable, Rebuilt, GetChain;
  }

  lemma HandleNonceSound(p: Platform, cfg: Config, db: Db, mem: Mem, s: Senses, m: Solution)
    requires Assumptions(p, cfg) && Durable(p, db) && InStep(p, db, mem)
    ensures Sound(p, db, HandleNonce(p, cfg, db, mem, s, m))
  {
    hide *;
    AssumedConfig(p, cfg);
    HandleNonceShape(p, cfg, db, mem, s, m);
    IdleSound(p, db, mem);
    if mem.active.Some? && VerifyNonce(p, mem.active.value.base, m.nonce, mem.active.value.nZeros) {
      var a := mem.active.value;
      ActiveMemory(p, db, mem);
      GuardTaken(p, db, a, WinnerName(m.winner));
      var d := TrySealWindow(db, a.wid, WinnerName(m.winner)).0;
      SealSound(p, d, mem, s, a, m.nonce, m.winner);
      SealedThen(p, db, d, mem, Seal(p, d, mem, s, a, m.nonce, m.winner));
      AndMaybeOpenSound(p, cfg, db, Then(Exec([d], mem, []), Seal(p, d, mem, s, a, m.nonce, m.winner)), s);
    }
  }

  // ---- expiry ----

  /** Both ways a window expires start by recording the result, which releases its law. */
  lemma ResultReleases(p: Platform, db: Db, a: Active, result: WindowResult)
    requires Durable(p, db) && ActiveInStep(p, db, a)
    ensures var d := SetWindowResult(db, a.wid, result, None, None);
      && Durable(p, d) && a.lawId in d.laws && !Holds(d, a.lawId)
      && d == db.(windows := d.windows) && Ready(Blocks(d), d.laws[a.lawId])
  {
    ResultWrite(p, db, a.wid, result, None, None);
  }

  lemma Cleared(p: Platform, db: Db, first: Db, middle: Exec, mem: Mem, out: seq<Message>)
    requires Durable(p, first) && AllDurable(p, middle.steps) && Durable(p, Final(first, middle)) && mem.deliberation.None?
    ensures Sound(p, db, Exec([first] + middle.steps + [ClearActiveWindow(Final(first, middle))], mem.(active := None), out))
  {
    PointerCleared(p, Final(first, middle));
    hide Durable, Final;
    var last := ClearActiveWindow(Final(first, middle));
    var e := Exec([first] + middle.steps + [last], mem.(active := None), out);
    assert e.steps[|e.steps| - 1] == last;
    FinalIsLast(db, e);
  }

  lemma FinalIsLast(db: Db, e: Exec)
    requires e.steps != []
    ensures Final(db, e) == e.steps[|e.steps| - 1]
  {
  }

  lemma ExpiredShape(db: Db, mem: Mem, a: Active, d1: Db, textHash: Option<string>)
    requires d1 == SetWindowResult(db, a.wid, ExpiredPending, None, None)
    requires textHash == if GetLaw(db, a.lawId).Some? then Some(GetLaw(db, a.lawId).value.textHash) else None
    ensures var middle := ThrownOut(d1, mem, a.lawId, textHash);
      Expired(db, mem, a) == Exec([d1] + middle.steps + [ClearActiveWindow(Final(d1, middle))], mem.(active := None),
                                  [WindowClosed(a.wid, Finished(ExpiredPending))])
  {
  }

  lemma ExpiredWithoutQuorumShape(db: Db, mem: Mem, a: Active, d1: Db)
    requires d1 == SetWindowResult(db, a.wid, ExpiredNoQuorum, None, None)
    ensures var middle := Requeued(d1, mem, a.lawId);
      ExpiredWithoutQuorum(db, mem, a) == Exec([d1] + middle.steps + [ClearActiveWindow(Final(d1, middle))],
                                               mem.(active := None), [WindowClosed(a.wid, Finished(ExpiredNoQuorum))])
  {
  }

  lemma ExpiredSound(p: Platform, db: Db, mem: Mem, a: Active)
    requires Durable(p, db) && ActiveInStep(p, db, a) && mem.deliberation.None?
    ensures Sound(p, db, Expired(db, mem, a)) && Sound(p, db, ExpiredWithoutQuorum(db, mem, a))
  {
    hide *;
    var d1 := SetWindowResult(db, a.wid, ExpiredPending, None, None);
    ResultReleases(p, db, a, ExpiredPending);
    var law := GetLaw(db, a.lawId);
    var textHash := if law.Some? then Some(law.value.textHash) else None;
    ThrownOutSound(p, d1, mem, a.lawId, textHash);
    Cleared(p, db, d1, ThrownOut(d1, mem, a.lawId, textHash), mem, [WindowClosed(a.wid, Finished(ExpiredPending))]);
    ExpiredShape(db, mem, a, d1, textHash);
    var d2 := SetWindowResult(db, a.wid, ExpiredNoQuorum, None, None);
    ResultReleases(p, db, a, ExpiredNoQuorum);
    RequeuedSound(p, d2, mem, a.lawId);
    Cleared(p, db, d2, Requeued(d2, mem, a.lawId), mem, [WindowClosed(a.wid, Finished(ExpiredNoQuorum))]);
    ExpiredWithoutQuorumShape(db, mem, a, d2);
  }

  lemma CheckDeadlineShape(p: Platform, cfg: Config, db: Db, mem: Mem, s: Senses)
    requires ValidConfig(cfg)
    ensures var e := CheckDeadline(p, cfg, db, mem, s);
      || e == Idle(mem)
      || (mem.active.Some? && (e == AndMaybeOpen(p, cfg, db, Expired(db, mem, mem.active.value), s)
                               || e == AndMaybeOpen(p, cfg, db, ExpiredWithoutQuorum(db, mem, mem.active.value), s)))
  {
    hide AndMaybeOpen, Expired, ExpiredWithoutQuorum, QuorumOf;
  }

  lemma ActiveMemory(p: Platform, db: Db, mem: Mem)
    requires InStep(p, db, mem) && mem.active.Some?
    ensures mem.isLeader && mem.deliberation.None? && ActiveInStep(p, db, mem.active.value)
  {
  }

  lemma CheckDeadlineSound(p: Platform, cfg: Config, db: Db, mem: Mem, s: Senses)
    requires Assumptions(p, cfg) && Durable(p, db) && InStep(p, db, mem)
    ensures Sound(p, db, CheckDeadline(p, cfg, db, mem, s))
  {
    hide *;
    AssumedConfig(p, cfg);
    CheckDeadlineShape(p, cfg, db, mem, s);
    IdleSound(p, db, mem);
    if mem.active.Some? {
      ActiveMemory(p, db, mem);
      ExpiredSound(p, db, mem, mem.active.value);
      AndMaybeOpenSound(p, cfg, db, Expired(db, mem, mem.active.value), s);
      AndMaybeOpenSound(p, cfg, db, ExpiredWithoutQuorum(db, mem, mem.active.value), s);
    }
  }

  lemma AssumedConfig(p: Platform, cfg: Config)
    requires Assumptions(p, cfg)
    ensures ValidConfig(cfg) && CollisionFree(p) && ClockTextFaithful(p)
  {
  }

  // ---- taking over ----

  lemma ResumeShape(p: Platform, db: Db, mem: Mem)
    ensures var e := Resume(p, db, mem);
      var none := mem.(active := None);
      if db.active.None? then e == Idle(none)
      else
        var wid := db.active.value;
        if wid !in db.windows || db.windows[wid].result.Some? then e.steps == [ClearActiveWindow(db)] && e.mem == none
        else
          var w := db.windows[wid];
          var last := GetBlock(db.blocks, LastBlockHash(db));
          if last.Some? && last.value.votingWindowId == wid then
            e == CloseSealed(db, mem, wid, w.lawId, w.action, last.value.nonce, last.value.winningNodeOrPool)
          else
            var a := Rebuilt(p, wid, w, GetLaw(db, w.lawId));
            a.Some? ==> e.mem == mem.(active := a) && e.steps == (if wid in db.guards then [ReleaseWindowSeal(db, wid)] else [])
  {
    hide Rebuilt, CloseSealed;
  }

  /** The open window of the pointer, as it is rebuilt. */
  lemma RebuiltInStep(p: Platform, db: Db, wid: string)
    requires Durable(p, db) && db.active == Some(wid) && db.windows[wid].result.None? && !LastIs(Blocks(db), wid)
    ensures var w := db.windows[wid];
      var a := Rebuilt(p, wid, w, GetLaw(db, w.lawId));
      && a.Some? && Durable(p, ReleaseWindowSeal(db, wid)) && ActiveInStep(p, ReleaseWindowSeal(db, wid), a.value)
      && (wid !in db.guards ==> ReleaseWindowSeal(db, wid) == db)
  {
    GuardWrite(p, db, db.guards - {wid});
    hide GetChain, SafeChain, Linked;
    assert wid !in db.guards ==> db.guards - {wid} == db.guards;
  }

  lemma PointerKnown(p: Platform, db: Db)
    requires Durable(p, db) && db.active.Some?
    ensures db.active.value in db.windows && Linked(p, db.chain, db.blocks, db.windows)
  {
  }

  lemma LastBlockShows(p: Platform, db: Db, wid: string)
    requires Linked(p, db.chain, db.blocks, db.windows)
    ensures var last := GetBlock(db.blocks, LastBlockHash(db));
      last.Some? && last.value.votingWindowId == wid <==> LastIs(Blocks(db), wid)
  {
    LastBlockIsLast(p, db);
    hide GetChain, GetBlock;
  }

  lemma ResumeSound(p: Platform, db: Db, mem: Mem)
    requires Durable(p, db) && mem.isLeader && mem.deliberation.None?
    ensures Sound(p, db, Resume(p, db, mem))
    ensures Resume(p, db, mem).mem.isLeader && Resume(p, db, mem).mem.deliberation.None?
  {
    hide *;
    ResumeShape(p, db, mem);
    var e := Resume(p, db, mem);
    var none := mem.(active := None);
    NothingToRemember(p, db, none);
    if db.active.None? {
      IdleSound(p, db, none);
      IdleShape(none);
    } else {
      var wid := db.active.value;
      PointerKnown(p, db);
      LastBlockShows(p, db, wid);
      if db.windows[wid].result.Some? {
        var d := ClearActiveWindow(db);
        PointerCleared(p, db);
        NothingToRemember(p, d, none);
        OneStep(p, d);
        SoundSteps(p, db, e, d);
      } else if LastIs(Blocks(db), wid) {
        var w, last := db.windows[wid], GetBlock(db.blocks, LastBlockHash(db)).value;
        CloseSealedSound(p, db, mem, wid, last.nonce, last.winningNodeOrPool);
        CloseSealedShape(db, mem, wid, w.lawId, w.action, last.nonce, last.winningNodeOrPool);
      } else {
        RebuiltInStep(p, db, wid);
        var d := ReleaseWindowSeal(db, wid);
        var w := db.windows[wid];
        ActiveMemoryOf(p, d, mem, Rebuilt(p, wid, w, GetLaw(db, w.lawId)).value);
        OneStep(p, d);
        if wid in db.guards {
          SoundSteps(p, db, e, d);
        } else {
          FinalOfNothing(db, e);
          SoundIs(p, db, e);
        }
      }
    }
  }

  lemma IdleShape(mem: Mem)
    ensures Idle(mem) == Exec([], mem, [])
  {
  }

  lemma FinalOfNothing(db: Db, e: Exec)
    requires e.steps == []
    ensures Final(db, e) == db
  {
  }

  lemma RecoverShape(db: Db, mem: Mem)
    requires db.deliberation.Some?
    ensures var e := RecoverDeliberation(db, mem);
      var id := db.deliberation.value.lawId;
      var d1 := ClearDeliberation(db);
      var d2 := ClearDeliberationDecisions(d1, id);
      && e.mem == mem.(deliberation := None)
      && e.steps == [d1, d2] + (if id in d2.laws && d2.laws[id].status == InDeliberation then Requeued(d2, mem, id).steps else [])
      && d2 == db.(deliberation := None, decisions := d2.decisions) && Blocks(d2) == Blocks(db)
  {
  }

  lemma RequeuedShape(db: Db, mem: Mem, id: string)
    requires id in db.laws
    ensures var e := Requeued(db, mem, id);
      && |e.steps| == 2 && Final(db, e) == e.steps[1] && id in e.steps[1].laws
      && e.steps[1] == db.(laws := db.laws[id := db.laws[id].(status := PendingQueue)], queue := db.queue + [id])
  {
  }

  lemma ForgottenInStep(p: Platform, db: Db, d: Db, mem: Mem)
    requires InStep(p, db, mem) && mem.deliberation.None?
    requires d == db.(deliberation := d.deliberation, decisions := d.decisions)
    ensures InStep(p, d, mem)
  {
    hide GetChain, Rebuilt;
  }

  /** The law of a forgotten deliberation goes back to the queue, next to whatever window was resumed. */
  lemma RequeuedInStep(p: Platform, db: Db, mem: Mem, id: string)
    requires Durable(p, db) && InStep(p, db, mem) && mem.deliberation.None?
    requires id in db.laws && db.laws[id].status == InDeliberation
    ensures InStep(p, Requeued(db, mem, id).steps[1], mem)
  {
    RequeuedShape(db, mem, id);
    if mem.active.Some? { ActiveLawKnown(p, db, mem); }
    hide Durable, GetChain, Rebuilt, Requeued, Holds;
    OtherLawChanges(p, db, Requeued(db, mem, id).steps[1], mem, id);
  }

  lemma SameMemory(mem: Mem)
    requires mem.deliberation.None?
    ensures mem.(deliberation := None) == mem
  {
  }

  lemma RecoverDeliberationSound(p: Platform, db: Db, mem: Mem)
    requires Durable(p, db) && mem.isLeader && mem.deliberation.None? && InStep(p, db, mem)
    ensures Sound(p, db, RecoverDeliberation(db, mem))
  {
    hide *;
    var e := RecoverDeliberation(db, mem);
    SameMemory(mem);
    if db.deliberation.Some? {
      var id := db.deliberation.value.lawId;
      DeliberatedReady(p, db);
      RecoverShape(db, mem);
      var d1 := ClearDeliberation(db);
      AnnouncementCleared(p, db);
      var d2 := ClearDeliberationDecisions(d1, id);
      DecisionsCleared(p, d1, id);
      ForgottenInStep(p, db, d2, mem);
      StepsDurable(p, d1, d2, d1, d1);
      if d2.laws[id].status == InDeliberation {
        QueuedIsNotHeld(p, d2, id);
        RequeuedSound(p, d2, mem, id);
        RequeuedShape(d2, mem, id);
        RequeuedInStep(p, d2, mem, id);
        var back := Requeued(d2, mem, id).steps;
        OneMore(p, [d1, d2], back);
        assert e.steps == [d1, d2] + back;
        assert e.steps[|e.steps| - 1] == back[1];
        SoundSteps(p, db, e, back[1]);
      } else {
        assert e.steps == [d1, d2];
        SoundSteps(p, db, e, d2);
      }
    } else {
      RecoverNothing(db, mem);
      IdleSound(p, db, mem);
    }
  }

  lemma RecoverNothing(db: Db, mem: Mem)
    requires db.deliberation.None?
    ensures RecoverDeliberation(db, mem) == Idle(mem.(deliberation := None))
  {
  }

  lemma DecisionsCleared(p: Platform, db: Db, id: string)
    requires Durable(p, db)
    ensures Durable(p, ClearDeliberationDecisions(db, id))
  {
    SideWrite(p, db, ClearDeliberationDecisions(db, id));
  }

  lemma DeliberatedReady(p: Platform, db: Db)
    requires Durable(p, db) && db.deliberation.Some?
    ensures var id := db.deliberation.value.lawId;
      id in db.laws && (db.laws[id].status == InDeliberation ==> Ready(Blocks(db), db.laws[id]))
  {
  }

  lemma SoundThen(p: Platform, db: Db, e: Exec, next: Exec)
    requires AllDurable(p, e.steps) && Sound(p, Final(db, e), next)
    ensures Sound(p, db, Then(e, next))
  {
    hide Durable, InStep;
    DurableThen(p, db, e, next);
  }

  lemma BecomeLeaderSound(p: Platform, cfg: Config, db: Db, mem: Mem, s: Senses)
    requires Assumptions(p, cfg) && Durable(p, db) && InStep(p, db, mem)
    ensures Sound(p, db, BecomeLeader(p, cfg, db, mem, s))
  {
    if !mem.isLeader {
      hide Durable, Resume, RecoverDeliberation, CheckDeadline, AndMaybeOpen;
      var e1 := Resume(p, db, mem.(isLeader := true, lastAuthor := db.lastAuthor));
      ResumeSound(p, db, mem.(isLeader := true, lastAuthor := db.lastAuthor));
      RecoverDeliberationSound(p, Final(db, e1), e1.mem);
      hide InStep;
      var e2 := Then(e1, RecoverDeliberation(Final(db, e1), e1.mem));
      SoundThen(p, db, e1, RecoverDeliberation(Final(db, e1), e1.mem));
      CheckDeadlineSound(p, cfg, Final(db, e2), e2.mem, s);
      var e3 := Then(e2, CheckDeadline(p, cfg, Final(db, e2), e2.mem, s));
      SoundThen(p, db, e2, CheckDeadline(p, cfg, Final(db, e2), e2.mem, s));
      AndMaybeOpenSound(p, cfg, db, e3, s);
    }
  }
}
