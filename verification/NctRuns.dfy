/**
 Runs of the system with one leader at a time: handlers, crashes between any two writes, promotions, step-downs,
 and what others write to Redis meanwhile.
 */
module NctRuns {
  import opened Wrappers
  import opened Platform
  import opened Store
  import opened Nct

  datatype Event =
    | Proposed(proposal: Proposal)
    | Answered(solution: Solution)
    | DeliberationTick
    | DeadlineTick
    | OpenTick
    | Promoted

  /** The handler of each event. */
  function Handled(p: Platform, cfg: Config, db: Db, mem: Mem, s: Senses, ev: Event): Exec
    requires ValidConfig(cfg)
  {
    match ev
    case Proposed(m) => HandleProposal(p, cfg, db, mem, s, m)
    case Answered(m) => HandleNonce(p, cfg, db, mem, s, m)
    case DeliberationTick => CheckDeliberation(p, cfg, db, mem, s)
    case DeadlineTick => CheckDeadline(p, cfg, db, mem, s)
    case OpenTick => MaybeOpen(p, cfg, db, mem, s)
    case Promoted => BecomeLeader(p, cfg, db, mem, s)
  }

  /** Redis and the one coordinator that may be leading. */
  datatype System = System(db: Db, mem: Mem)

  /** A coordinator that remembers neither a window nor a deliberation: one just constructed, or a follower. */
  predicate Blank(mem: Mem) {
    mem.active.None? && mem.deliberation.None?
  }

  datatype Step =
    | Handle(ev: Event, senses: Senses)
      /** The process dies after k writes of a handler; next is the process that takes its place. A primary restarts
          with isLeader already set, a follower without. */
    | Crash(ev: Event, senses: Senses, k: nat, next: Mem)
      /** Another process takes the place of one that is gone or has stepped down. */
    | Replace(next: Mem)
    | StepDown
      /** The guard of a window reaches its time to live. */
    | GuardLapses(wid: string)
      /** The API records an answer during a deliberation. */
    | Vote(lawId: string, voter: string, decision: string)

  /** The store after the first k writes. */
  function StoreAt(db: Db, e: Exec, k: nat): Db
    requires k <= |e.steps|
  {
    if k == 0 then db else e.steps[k - 1]
  }

  /** A promulgation comes with a law id nobody has used. */
  predicate FreshLaw(db: Db, ev: Event) {
    ev.Proposed? && ev.proposal.action == Promulgacion ==> ev.proposal.lawId !in db.laws
  }

  predicate Legal(p: Platform, cfg: Config, sys: System, step: Step)
    requires ValidConfig(cfg)
  {
    match step
    case Handle(ev, _) => FreshLaw(sys.db, ev)
    case Crash(ev, s, k, next) =>
      FreshLaw(sys.db, ev) && k <= |Handled(p, cfg, sys.db, sys.mem, s, ev).steps| && Blank(next)
    case Replace(next) => Blank(next)
    case _ => true
  }

  function After(p: Platform, cfg: Config, sys: System, step: Step): System
    requires ValidConfig(cfg) && Legal(p, cfg, sys, step)
  {
    match step
    case Handle(ev, s) =>
      var e := Handled(p, cfg, sys.db, sys.mem, s, ev);
      System(Final(sys.db, e), e.mem)
    case Crash(ev, s, k, next) => System(StoreAt(sys.db, Handled(p, cfg, sys.db, sys.mem, s, ev), k), next)
    case Replace(next) => System(sys.db, next)
    case StepDown => System(sys.db, SteppedDown(sys.mem))
    case GuardLapses(wid) => System(ReleaseWindowSeal(sys.db, wid), sys.mem)
    case Vote(id, voter, decision) => System(SetDeliberationDecision(sys.db, id, voter, decision), sys.mem)
  }

  /** A run: the systems it goes through, and the step from each to the next. */
  ghost predicate Execution(p: Platform, cfg: Config, systems: seq<System>, run: seq<Step>)
    requires ValidConfig(cfg)
  {
    && |systems| == |run| + 1
    && forall i {:trigger run[i]} :: 0 <= i < |run| ==>
      Legal(p, cfg, systems[i], run[i]) && systems[i + 1] == After(p, cfg, systems[i], run[i])
  }

  /** The system as it is installed: an empty store and a coordinator with nothing in memory. */
  predicate Initial(sys: System) {
    sys.db == EMPTY && Blank(sys.mem)
  }
}
