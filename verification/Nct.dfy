/**
 What each handler of the coordinator does, as the sequence of Redis states it goes through
 (nct-coordinator/nct/coordinator.py). steps[i] is the state after the i-th write; a crash leaves the store in
 one of these states and loses the memory.
 */
module Nct {
  import opened Wrappers
  import opened Platform
  import opened Text
  import opened Challenge
  import opened Categories
  import opened Laws
  import opened Chain
  import opened Store
  import opened Availability
  import Difficulty
  import Ratchet
  import Turns
  import Deliberation

  const MICROS: int := 1_000_000

  datatype Config = Config(
    secondsPromulgacion: int, secondsDerogacion: int, cooldownNew: int, cooldownReproposed: int,
    dynamic: bool, target: real, coverage: real, decay: int, hps: Hps, quota: Turns.Quota,
    minWorkers: int, quorumByCategory: bool, deliberationMicros: int, deadlineFactor: real,
    minSeconds: real, maxSilent: int)

  predicate ValidConfig(cfg: Config) {
    cfg.coverage >= 1.0
  }

  function SecondsFor(cfg: Config, action: Action): int {
    if action == Promulgacion then cfg.secondsPromulgacion else cfg.secondsDerogacion
  }

  /** The in-memory copy of the active window. */
  datatype Active = Active(
    wid: string, lawId: string, action: Action, nZeros: int, base: string, deadline: int, author: string,
    category: string, participants: Option<seq<string>>)

  /** The fields of one coordinator process. */
  datatype Mem = Mem(
    isLeader: bool, active: Option<Active>, deliberation: Option<Announced>, lastAuthor: Option<string>,
    nZeros: int, nonceSpace: int)

  /** What a handler reads of the world: the clock when it checks and when it opens or seals, the miners that
      report, the teams, and the random part of a window id. */
  datatype Senses = Senses(now: int, later: int, workers: seq<Worker>, teams: seq<Team>, salt: string)

  datatype ClosedAs = Finished(result: WindowResult) | Interrupted

  datatype Message =
    | ChallengePublished(wid: string, lawId: string, nZeros: int, deadline: string, base: string, action: Action,
                         category: string, nonceSpace: int, publishedAt: int, participants: Option<seq<string>>)
    | WindowClosed(closedWid: string, how: ClosedAs)

  /** A stretch of execution: the store after each write, the memory at the end, the messages published. */
  datatype Exec = Exec(steps: seq<Db>, mem: Mem, out: seq<Message>)

  function Final(db: Db, e: Exec): Db {
    if e.steps == [] then db else e.steps[|e.steps| - 1]
  }

  function Idle(mem: Mem): Exec {
    Exec([], mem, [])
  }

  /** First e, then what follows it. */
  function Then(e: Exec, next: Exec): Exec {
    Exec(e.steps + next.steps, next.mem, e.out + next.out)
  }

  // ---- quorum and choice ----

  function ComoVentana(law: Law): Announcement {
    Announcement(Some(law.category), Some(ActionText(law.action)), Some(law.lawId))
  }

  /** _quorum: None when the gate is off. */
  function QuorumOf(cfg: Config, s: Senses, ch: Announcement): Option<Availability> {
    if cfg.minWorkers <= 0 then None
    else Some(Assess(s.workers, s.teams, ch, cfg.minWorkers, cfg.quorumByCategory, cfg.deliberationMicros > 0))
  }

  predicate HayQuorum(cfg: Config, s: Senses, law: Law) {
    var q := QuorumOf(cfg, s, ComoVentana(law));
    q.Some? ==> q.value.ok
  }

  /** The law maybe_open_window would take now. */
  function NextLaw(cfg: Config, db: Db, mem: Mem, s: Senses): (r: Option<Law>)
    ensures r.Some? ==> exists id :: id in db.queue && id in db.laws && db.laws[id] == r.value
  {
    Turns.SelectNextLaw(QueuedLaws(db.laws, db.queue), mem.lastAuthor, Turns.Recent(db.turns, cfg.quota.sample),
                        cfg.quota, law => HayQuorum(cfg, s, law))
  }

  // ---- difficulty ----

  /** _n_con_trinquete: the ratchet of the scope after this measurement. */
  function RatchetAfter(cfg: Config, db: Db, scope: string, hashrate: real): Ratchet.State {
    Ratchet.Updated(Ratchet.Restored(Ratchet.FRESH, GetDifficultyState(db, scope)), cfg.decay,
                    Difficulty.DifficultyFor(hashrate, cfg.target))
  }

  // ---- opening a window ----

  /** What a deliberation froze for the window that follows it. */
  datatype Frozen = Frozen(announced: Announced, participants: seq<string>)

  /** The window a law gets, and the numbers it is announced with. */
  datatype Opening = Opening(wid: string, nZeros: int, deadline: int, nonceSpace: int, participants: Option<seq<string>>)

  function OpeningFrozen(num: nat, law: Law, mem: Mem, s: Senses, f: Frozen): Opening {
    Opening(WindowId(num, law.lawId + "-" + s.salt), f.announced.nZerosRequired,
            s.later + f.announced.windowSeconds * MICROS,
            if f.announced.nonceSpace != 0 then f.announced.nonceSpace else mem.nonceSpace, Some(f.participants))
  }

  function OpeningDirect(cfg: Config, num: nat, law: Law, mem: Mem, s: Senses): Opening {
    Opening(WindowId(num, law.lawId), NZerosForAction(mem.nZeros, law.action),
            s.later + SecondsFor(cfg, law.action) * MICROS, mem.nonceSpace, None)
  }

  function BaseOf(law: Law, wid: string): string {
    BuildPartialHashBase(law.lawId, law.textHash, wid, law.action)
  }

  function WindowOf(p: Platform, law: Law, o: Opening, s: Senses): Window {
    Window(law.lawId, law.action, IntText(o.nZeros), p.isoformat(s.later), p.isoformat(o.deadline),
           BaseOf(law, o.wid), NormalizeCategory(Some(law.category)), o.participants, None, None, None)
  }

  function ActiveOf(law: Law, o: Opening): Active {
    Active(o.wid, law.lawId, law.action, o.nZeros, BaseOf(law, o.wid), o.deadline, law.author,
           NormalizeCategory(Some(law.category)), o.participants)
  }

  function ChallengeOf(p: Platform, law: Law, o: Opening, s: Senses): Message {
    ChallengePublished(o.wid, law.lawId, o.nZeros, p.isoformat(o.deadline), BaseOf(law, o.wid), law.action,
                       NormalizeCategory(Some(law.category)), o.nonceSpace, s.later, o.participants)
  }

  /** save_window, set_law_status, remove_from_queue, set_active_window: four writes. */
  function Installed(p: Platform, db: Db, mem: Mem, law: Law, o: Opening, s: Senses): Exec {
    var d1 := SaveWindow(db, o.wid, WindowOf(p, law, o, s));
    var d2 := SetLawStatus(d1, law.lawId, InWindow);
    var d3 := RemoveFromQueue(d2, law.lawId);
    var d4 := SetActiveWindow(d3, o.wid);
    Exec([d1, d2, d3, d4], mem.(active := Some(ActiveOf(law, o))), [ChallengeOf(p, law, o, s)])
  }

  /** _consumir_turno */
  function TurnTaken(db: Db, mem: Mem, law: Law): Exec {
    var d1 := SetLastAuthor(db, TurnHolder(law));
    var d2 := PushWindowAuthor(d1, TurnHolder(law));
    Exec([d1, d2], mem.(lastAuthor := Some(TurnHolder(law))), [])
  }

  /** The difficulty of a window without deliberation: measured and saved if it is dynamic. */
  function Measured(cfg: Config, db: Db, mem: Mem, s: Senses): Exec
    requires ValidConfig(cfg)
  {
    if !cfg.dynamic then Idle(mem)
    else
      var r := RatchetAfter(cfg, db, "", Deliberation.EffectiveHashrate(s.workers, s.teams, cfg.hps));
      var n := r.current.value;
      Exec([SaveDifficultyState(db, "", r)],
           mem.(nZeros := n, nonceSpace := Difficulty.NonceSpaceFor(n, cfg.coverage)), [])
  }

  function OpenDirect(p: Platform, cfg: Config, db: Db, mem: Mem, s: Senses, law: Law): Exec
    requires ValidConfig(cfg)
  {
    var d := NextWindowNumber(db);
    var e1 := Then(Exec([d], mem, []), Measured(cfg, d, mem, s));
    var e2 := Then(e1, Installed(p, Final(db, e1), e1.mem, law, OpeningDirect(cfg, d.counter, law, e1.mem, s), s));
    Then(e2, TurnTaken(Final(db, e2), e2.mem, law))
  }

  function OpenFrozen(p: Platform, db: Db, mem: Mem, s: Senses, law: Law, f: Frozen): Exec {
    var d := NextWindowNumber(db);
    Then(Exec([d], mem, []), Installed(p, d, mem, law, OpeningFrozen(d.counter, law, mem, s, f), s))
  }

  // ---- deliberation ----

  /** What start_deliberation freezes, given the base difficulty. */
  function AnnouncementOf(p: Platform, cfg: Config, mem: Mem, s: Senses, law: Law,
                          voters: seq<Deliberation.Convocado>, nBase: int): Announced
    requires ValidConfig(cfg)
  {
    var hashrate := Deliberation.Biggest(voters);
    var n := NZerosForAction(nBase, law.action);
    Announced(law.lawId, law.action, NormalizeCategory(Some(law.category)), p.isoformat(s.later),
              s.later + cfg.deliberationMicros, n,
              Difficulty.WindowSecondsFor(n, hashrate, cfg.deadlineFactor, cfg.minSeconds,
                                          SecondsFor(cfg, law.action) as real),
              if cfg.dynamic then Difficulty.NonceSpaceFor(nBase, cfg.coverage) else mem.nonceSpace,
              hashrate, voters)
  }

  function VotersFor(cfg: Config, s: Senses, law: Law): seq<Deliberation.Convocado> {
    Deliberation.ConvocadosOf(s.workers, s.teams, ComoVentana(law), cfg.hps)
  }

  /** The difficulty of the area, measured on the biggest voter. */
  function MeasuredFor(cfg: Config, db: Db, mem: Mem, law: Law, voters: seq<Deliberation.Convocado>): (Exec, int) {
    if !cfg.dynamic then (Idle(mem), mem.nZeros)
    else
      var scope := NormalizeCategory(Some(law.category));
      var r := RatchetAfter(cfg, db, scope, Deliberation.Biggest(voters));
      (Exec([SaveDifficultyState(db, scope, r)], mem, []), r.current.value)
  }

  /** One write per voter that had vetoed this law in advance. */
  function VetoSteps(db: Db, lawId: string, voters: seq<Deliberation.Convocado>): seq<Db>
    decreases |voters|
  {
    if voters == [] then []
    else if voters[0].prevetoed then
      var d := SetDeliberationDecision(db, lawId, voters[0].voterId, Deliberation.REJECT);
      [d] + VetoSteps(d, lawId, voters[1..])
    else VetoSteps(db, lawId, voters[1..])
  }

  /** save_deliberation, set_law_status, remove_from_queue */
  function Announce(db: Db, mem: Mem, a: Announced): Exec {
    var d1 := SaveDeliberation(db, a);
    var d2 := SetLawStatus(d1, a.lawId, InDeliberation);
    var d3 := RemoveFromQueue(d2, a.lawId);
    Exec([d1, d2, d3], mem, [])
  }

  function StartDeliberation(p: Platform, cfg: Config, db: Db, mem: Mem, s: Senses, law: Law): Exec
    requires ValidConfig(cfg)
  {
    var voters := VotersFor(cfg, s, law);
    var (e1, nBase) := MeasuredFor(cfg, db, mem, law, voters);
    var a := AnnouncementOf(p, cfg, mem, s, law, voters, nBase);
    var d := ClearDeliberationDecisions(Final(db, e1), law.lawId);
    var e2 := Then(e1, Exec([d] + VetoSteps(d, law.lawId, voters), mem, []));
    var e3 := Then(e2, Announce(Final(db, e2), mem, a));
    var e4 := Then(e3, TurnTaken(Final(db, e3), mem, law));
    e4.(mem := e4.mem.(deliberation := Some(a)))
  }

  /** maybe_open_window */
  function MaybeOpen(p: Platform, cfg: Config, db: Db, mem: Mem, s: Senses): Exec
    requires ValidConfig(cfg)
  {
    if !mem.isLeader || mem.active.Some? || mem.deliberation.Some? then Idle(mem)
    else
      var next := NextLaw(cfg, db, mem, s);
      if next.None? then Idle(mem)
      else if cfg.deliberationMicros > 0 then StartDeliberation(p, cfg, db, mem, s, next.value)
      else OpenDirect(p, cfg, db, mem, s, next.value)
  }

  /** e, and then whatever can be opened. */
  function AndMaybeOpen(p: Platform, cfg: Config, db: Db, e: Exec, s: Senses): Exec
    requires ValidConfig(cfg)
  {
    Then(e, MaybeOpen(p, cfg, Final(db, e), e.mem, s))
  }

  function VotersOf(a: Announced): seq<string> {
    seq(|a.convocados|, i requires 0 <= i < |a.convocados| => a.convocados[i].voterId)
  }

  function DefaultsOf(voters: seq<Deliberation.Convocado>): map<string, string> {
    if voters == [] then map[]
    else DefaultsOf(voters[..|voters| - 1])[voters[|voters| - 1].voterId := voters[|voters| - 1].defaultDecision]
  }

  function Keep(voters: seq<string>, keep: string -> bool): seq<string> {
    if voters == [] then [] else (if keep(voters[0]) then [voters[0]] else []) + Keep(voters[1..], keep)
  }

  function ResultOf(p: Platform, a: Announced, outcome: Deliberation.Outcome, decisions: map<string, string>, s: Senses): DeliberationResult {
    var voters, defaults := VotersOf(a), DefaultsOf(a.convocados);
    DeliberationResult(outcome,
      Keep(voters, v => Deliberation.Effective(v, decisions, defaults) == Some(Deliberation.ACCEPT)),
      Keep(voters, v => Deliberation.Effective(v, decisions, defaults) == Some(Deliberation.REJECT)),
      Keep(voters, v => Deliberation.Effective(v, decisions, defaults) == None),
      Keep(voters, v => Deliberation.Effective(v, decisions, defaults).Some? && v !in decisions),
      p.isoformat(s.now))
  }

  function SilentOf(db: Db, id: string): int {
    if id in db.laws then db.laws[id].silent else 0
  }

  /** How the pause ends: the outcome after counting silent rounds, who mines, and the count to write. */
  function Judged(cfg: Config, db: Db, a: Announced): (Deliberation.Outcome, seq<string>, Option<int>) {
    var decisions := DeliberationDecisions(db, a.lawId);
    var (outcome, accepted) := Deliberation.Resolve(VotersOf(a), decisions, DefaultsOf(a.convocados));
    if outcome == Deliberation.Open then (outcome, accepted, Some(0))
    else if outcome == Deliberation.Discard then (outcome, accepted, None)
    else
      var silences := SilentOf(db, a.lawId) + 1;
      (if silences >= cfg.maxSilent && cfg.maxSilent > 0 then Deliberation.Unanswered else outcome, accepted, Some(silences))
  }

  /** The writes that end the deliberation, up to and including forgetting it. */
  function PauseEnded(p: Platform, cfg: Config, db: Db, mem: Mem, s: Senses, a: Announced): Exec {
    var (outcome, accepted, silences) := Judged(cfg, db, a);
    var first := if silences.Some? then [SetSilentDeliberations(db, a.lawId, silences.value)] else [];
    var d0 := if silences.Some? then SetSilentDeliberations(db, a.lawId, silences.value) else db;
    var d1 := SaveDeliberationResult(d0, a.lawId, ResultOf(p, a, outcome, DeliberationDecisions(db, a.lawId), s));
    var d2 := ClearDeliberation(d1);
    var d3 := ClearDeliberationDecisions(d2, a.lawId);
    Exec(first + [d1, d2, d3], mem.(deliberation := None), [])
  }

  function ThrownOut(db: Db, mem: Mem, id: string, textHash: Option<string>): Exec {
    var d := SetLawStatus(db, id, Status.Discarded);
    Exec(if textHash.Some? then [d, MarkTextHashDiscarded(d, textHash.value)] else [d], mem, [])
  }

  function Requeued(db: Db, mem: Mem, id: string): Exec {
    var d := SetLawStatus(db, id, PendingQueue);
    Exec([d, EnqueueLaw(d, id)], mem, [])
  }

  /** _resolver_deliberacion */
  function ResolveDeliberation(p: Platform, cfg: Config, db: Db, mem: Mem, s: Senses, a: Announced): Exec
    requires ValidConfig(cfg)
  {
    var (outcome, accepted, _) := Judged(cfg, db, a);
    var e := PauseEnded(p, cfg, db, mem, s, a);
    var d := Final(db, e);
    var law := GetLaw(d, a.lawId);
    if law.None? then AndMaybeOpen(p, cfg, db, e, s)
    else
      match outcome
      case Open => Then(e, OpenFrozen(p, d, e.mem, s, law.value, Frozen(a, accepted)))
      case Discard => AndMaybeOpen(p, cfg, db, Then(e, ThrownOut(d, e.mem, a.lawId, Some(law.value.textHash))), s)
      case Unanswered => AndMaybeOpen(p, cfg, db, Then(e, ThrownOut(d, e.mem, a.lawId, None)), s)
      case Requeue => AndMaybeOpen(p, cfg, db, Then(e, Requeued(d, e.mem, a.lawId)), s)
  }

  /** check_deliberation */
  function CheckDeliberation(p: Platform, cfg: Config, db: Db, mem: Mem, s: Senses): Exec
    requires ValidConfig(cfg)
  {
    if mem.deliberation.None? then Idle(mem)
    else
      var a := mem.deliberation.value;
      if s.now < a.decideUntil && !Deliberation.AllAnswered(VotersOf(a), DeliberationDecisions(db, a.lawId)) then Idle(mem)
      else ResolveDeliberation(p, cfg, db, mem, s, a)
  }

  // ---- proposals ----

  /** A proposal. admitted stands for the checks on revocation, signature and standing. */
  datatype Proposal = Proposal(
    lawId: string, author: string, textHash: string, action: Action, category: Option<string>,
    textCompressed: string, textOriginalLen: int, createdAt: string, admitted: bool)

  function CooldownUntil(cfg: Config, db: Db, reason: CooldownReason): int {
    db.counter + if reason == ReproposedIdentical then cfg.cooldownReproposed else cfg.cooldownNew
  }

  function EnqueuePromulgacion(cfg: Config, db: Db, mem: Mem, m: Proposal, category: string): Exec {
    var reason := if m.textHash in db.discarded then ReproposedIdentical else ProposedNew;
    var d1 := SaveLaw(db, m.lawId, m.author, m.textHash, m.createdAt, category, m.textCompressed, m.textOriginalLen);
    var d2 := SetLawRequestedBy(d1, m.lawId, m.author);
    var d3 := EnqueueLaw(d2, m.lawId);
    var d4 := SetCooldown(d3, m.author, CooldownUntil(cfg, d3, reason), reason);
    Exec([d1, d2, d3, d4], mem, [])
  }

  function EnqueueDerogacion(cfg: Config, db: Db, mem: Mem, m: Proposal): Exec {
    var target := GetLaw(db, m.lawId);
    if target.None? || target.value.status != Promulgated then Idle(mem)
    else
      var d1 := SetLawAction(db, m.lawId, Derogacion);
      var d2 := SetLawRequestedBy(d1, m.lawId, m.author);
      var d3 := EnqueueLaw(d2, m.lawId);
      var d4 := SetCooldown(d3, m.author, CooldownUntil(cfg, d3, ProposedNew), ProposedNew);
      Exec([d1, d2, d3, d4], mem, [])
  }

  /** handle_proposal */
  function HandleProposal(p: Platform, cfg: Config, db: Db, mem: Mem, s: Senses, m: Proposal): Exec
    requires ValidConfig(cfg)
  {
    var category := ValidateCategory(m.category);
    if !mem.isLeader || m.author == "" || m.textHash == "" || category.Failure? || !m.admitted
       || IsInCooldown(db, m.author) then Idle(mem)
    else
      AndMaybeOpen(p, cfg, db,
        if m.action == Derogacion then EnqueueDerogacion(cfg, db, mem, m)
        else EnqueuePromulgacion(cfg, db, mem, m, category.value), s)
  }

  // ---- nonces ----

  /** A nonce message; revoked, signatureOk and citizen are what the store and the signature check answer. */
  datatype Solution = Solution(
    wid: string, nonce: int, winner: string, revoked: bool, signatureOk: bool, citizen: string)

  const UNKNOWN: string := "desconocido"

  function WinnerName(winner: string): string {
    if winner == "" then UNKNOWN else winner
  }

  /** The verdict on a nonce message against a window, before the guard is tried. */
  predicate Acceptable(p: Platform, a: Active, now: int, m: Solution) {
    && m.wid == a.wid
    && now <= a.deadline
    && !m.revoked && m.signatureOk
    && !(m.winner != "" && m.citizen == a.author)
    && VerifyNonce(p, a.base, m.nonce, a.nZeros)
  }

  function BlockOf(p: Platform, db: Db, a: Active, nonce: int, winner: string, s: Senses): Block {
    var law := GetLaw(db, a.lawId);
    SealBlock(p, Block(LastBlockHash(db), a.lawId, a.action, a.nZeros, nonce, WinnerName(winner), a.wid,
                       p.isoformat(s.later),
                       if law.Some? then law.value.textCompressed else "",
                       if law.Some? then law.value.textOriginalLen else 0, ""))
  }

  /** _cerrar_ventana_sellada */
  function CloseSealed(db: Db, mem: Mem, wid: string, lawId: string, action: Action, nonce: int, winner: string): Exec {
    var d1 := SetWindowResult(db, wid, Sealed, Some(nonce), Some(winner));
    var d2 := SetLawStatus(d1, lawId, if action == Derogacion then Repealed else Promulgated);
    var d3 := ClearActiveWindow(d2);
    Exec([d1, d2, d3], mem.(active := None), [WindowClosed(wid, Finished(Sealed))])
  }

  /** The comparison with the tip failed: another coordinator got in between. */
  function SealLost(db: Db, mem: Mem, a: Active): Exec {
    var d1 := SetLawStatus(db, a.lawId, PendingQueue);
    var d2 := EnqueueLaw(d1, a.lawId);
    var d3 := ClearActiveWindow(d2);
    Exec([d1, d2, d3], mem.(active := None), [WindowClosed(a.wid, Interrupted)])
  }

  /** _seal, up to what can be opened next */
  function Seal(p: Platform, db: Db, mem: Mem, s: Senses, a: Active, nonce: int, winner: string): Exec {
    var b := BlockOf(p, db, a, nonce, winner, s);
    var (d, appended) := AppendBlock(db, b);
    if appended then Then(Exec([d], mem, []), CloseSealed(d, mem, a.wid, a.lawId, a.action, nonce, winner))
    else SealLost(db, mem, a)
  }

  /** handle_nonce_response */
  function HandleNonce(p: Platform, cfg: Config, db: Db, mem: Mem, s: Senses, m: Solution): Exec
    requires ValidConfig(cfg)
  {
    if !mem.isLeader || mem.active.None? || !Acceptable(p, mem.active.value, s.now, m) then Idle(mem)
    else
      var a := mem.active.value;
      var (d, won) := TrySealWindow(db, a.wid, WinnerName(m.winner));
      if !won then Idle(mem)
      else AndMaybeOpen(p, cfg, db, Then(Exec([d], mem, []), Seal(p, d, mem, s, a, m.nonce, m.winner)), s)
  }

  // ---- deadline ----

  function Expired(db: Db, mem: Mem, a: Active): Exec {
    var law := GetLaw(db, a.lawId);
    var d1 := SetWindowResult(db, a.wid, ExpiredPending, None, None);
    var e := ThrownOut(d1, mem, a.lawId, if law.Some? then Some(law.value.textHash) else None);
    var d2 := Final(d1, e);
    Exec([d1] + e.steps + [ClearActiveWindow(d2)], mem.(active := None), [WindowClosed(a.wid, Finished(ExpiredPending))])
  }

  function ExpiredWithoutQuorum(db: Db, mem: Mem, a: Active): Exec {
    var d1 := SetWindowResult(db, a.wid, ExpiredNoQuorum, None, None);
    var e := Requeued(d1, mem, a.lawId);
    Exec([d1] + e.steps + [ClearActiveWindow(Final(d1, e))], mem.(active := None),
         [WindowClosed(a.wid, Finished(ExpiredNoQuorum))])
  }

  /** The announcement the expired window is measured with. */
  function ComoActiva(a: Active): Announcement {
    Announcement(Some(a.category), Some(ActionText(a.action)), Some(a.lawId))
  }

  /** check_deadline */
  function CheckDeadline(p: Platform, cfg: Config, db: Db, mem: Mem, s: Senses): Exec
    requires ValidConfig(cfg)
  {
    if mem.active.None? || s.now <= mem.active.value.deadline then Idle(mem)
    else
      var a := mem.active.value;
      var q := QuorumOf(cfg, s, ComoActiva(a));
      AndMaybeOpen(p, cfg, db,
        if q.Some? && !q.value.ok then ExpiredWithoutQuorum(db, mem, a) else Expired(db, mem, a), s)
  }

  // ---- taking over ----

  /** The window rebuilt from its record; None where a stored number or instant does not parse. */
  function Rebuilt(p: Platform, wid: string, w: Window, law: Option<Law>): Option<Active> {
    var n := ParseInt(w.nZeros);
    var deadline := p.fromisoformat(w.deadline);
    if n.None? || deadline.None? then None
    else Some(Active(wid, w.lawId, w.action, n.value, w.base, deadline.value,
                     if law.Some? then law.value.author else "", NormalizeCategory(Some(w.category)), w.participants))
  }

  /** _devolver_ley_de_ventana */
  function GivenBack(db: Db, mem: Mem, wid: string, w: Window): Exec {
    var d := ClearActiveWindow(db);
    var law := GetLaw(d, w.lawId);
    var back := if law.Some? && law.value.status == InWindow then Requeued(d, mem, w.lawId) else Idle(mem);
    Exec([d] + back.steps, mem.(active := None), [WindowClosed(wid, Interrupted)])
  }

  /** The block the chain ends in, if the store has it. */
  function LastBlock(db: Db): Option<Block> {
    GetBlock(db.blocks, LastBlockHash(db))
  }

  /** _retomar_ventana_en_curso */
  function Resume(p: Platform, db: Db, mem: Mem): Exec {
    if db.active.None? then Idle(mem.(active := None))
    else
      var wid := db.active.value;
      if wid !in db.windows || db.windows[wid].result.Some? then
        Exec([ClearActiveWindow(db)], mem.(active := None),
             if wid in db.windows then [WindowClosed(wid, Finished(db.windows[wid].result.value))] else [])
      else
        var w := db.windows[wid];
        var last := LastBlock(db);
        if last.Some? && last.value.votingWindowId == wid then
          CloseSealed(db, mem, wid, w.lawId, w.action, last.value.nonce, last.value.winningNodeOrPool)
        else
          var released := if wid in db.guards then [ReleaseWindowSeal(db, wid)] else [];
          var d := if wid in db.guards then ReleaseWindowSeal(db, wid) else db;
          var a := Rebuilt(p, wid, w, GetLaw(d, w.lawId));
          if a.Some? then Exec(released, mem.(active := a), [])
          else Then(Exec(released, mem, []), GivenBack(d, mem, wid, w))
  }

  /** _recuperar_deliberacion_huerfana */
  function RecoverDeliberation(db: Db, mem: Mem): Exec {
    if db.deliberation.None? then Idle(mem.(deliberation := None))
    else
      var id := db.deliberation.value.lawId;
      var d1 := ClearDeliberation(db);
      var d2 := ClearDeliberationDecisions(d1, id);
      var law := GetLaw(d2, id);
      var back := if law.Some? && law.value.status == InDeliberation then Requeued(d2, mem, id) else Idle(mem);
      Exec([d1, d2] + back.steps, mem.(deliberation := None), [])
  }

  /** become_leader on a node that does not lead. */
  function BecomeLeader(p: Platform, cfg: Config, db: Db, mem: Mem, s: Senses): Exec
    requires ValidConfig(cfg)
  {
    if mem.isLeader then Idle(mem)
    else
      var e1 := Resume(p, db, mem.(isLeader := true, lastAuthor := db.lastAuthor));
      var e2 := Then(e1, RecoverDeliberation(Final(db, e1), e1.mem));
      var e3 := Then(e2, CheckDeadline(p, cfg, Final(db, e2), e2.mem, s));
      AndMaybeOpen(p, cfg, db, e3, s)
  }

  /** step_down */
  function SteppedDown(mem: Mem): Mem {
    if !mem.isLeader then mem else mem.(isLeader := false, active := None, deliberation := None)
  }

  /** The constructor. */
  function Fresh(db: Db, isLeader: bool, nZeros: int, nonceSpace: int): Mem {
    Mem(isLeader, None, None, db.lastAuthor, nZeros, nonceSpace)
  }
}
