/** Failover safety: what the chain looks like after any run, and at every single write of it. */
module NctSafety {
  import opened Wrappers
  import opened Platform
  import opened Challenge
  import opened Chain
  import opened Store
  import opened Nct
  import opened NctInvariant
  import opened NctHandlers
  import opened NctRuns

  lemma HandledSound(p: Platform, cfg: Config, db: Db, mem: Mem, s: Senses, ev: Event)
    requires Assumptions(p, cfg) && Durable(p, db) && InStep(p, db, mem) && FreshLaw(db, ev)
    ensures Sound(p, db, Handled(p, cfg, db, mem, s, ev))
  {
    hide Durable, InStep, Sound, Assumptions, HandleProposal, HandleNonce, CheckDeliberation, CheckDeadline, MaybeOpen, BecomeLeader;
    match ev
    case Proposed(m) => HandleProposalSound(p, cfg, db, mem, s, m);
    case Answered(m) => HandleNonceSound(p, cfg, db, mem, s, m);
    case DeliberationTick => CheckDeliberationSound(p, cfg, db, mem, s);
    case DeadlineTick => CheckDeadlineSound(p, cfg, db, mem, s);
    case OpenTick => MaybeOpenSound(p, cfg, db, mem, s);
    case Promoted => BecomeLeaderSound(p, cfg, db, mem, s);
  }

  /** The store at any write of a sound execution. */
  lemma DurableAt(p: Platform, db: Db, e: Exec, k: nat)
    requires Durable(p, db) && Sound(p, db, e) && k <= |e.steps|
    ensures Durable(p, StoreAt(db, e, k))
  {
    hide Durable, InStep;
  }

  lemma BlankInStep(p: Platform, db: Db, mem: Mem)
    requires Blank(mem)
    ensures InStep(p, db, mem)
  {
  }

  lemma SteppedDownInStep(p: Platform, db: Db, mem: Mem)
    requires InStep(p, db, mem)
    ensures InStep(p, db, SteppedDown(mem))
  {
    hide ActiveInStep, AnnouncedInStep;
  }

  lemma GuardLapsesSafely(p: Platform, db: Db, mem: Mem, wid: string)
    requires Durable(p, db) && InStep(p, db, mem)
    ensures Durable(p, ReleaseWindowSeal(db, wid)) && InStep(p, ReleaseWindowSeal(db, wid), mem)
  {
    GuardWrite(p, db, db.guards - {wid});
    hide Durable, GetChain, Rebuilt;
  }

  lemma VoteIsSafe(p: Platform, db: Db, mem: Mem, id: string, voter: string, decision: string)
    requires Durable(p, db) && InStep(p, db, mem)
    ensures var d := SetDeliberationDecision(db, id, voter, decision); Durable(p, d) && InStep(p, d, mem)
  {
    SideWrite(p, db, SetDeliberationDecision(db, id, voter, decision));
    hide Durable, GetChain, Rebuilt;
  }

  lemma StepKeeps(p: Platform, cfg: Config, sys: System, step: Step)
    requires Assumptions(p, cfg) && Durable(p, sys.db) && InStep(p, sys.db, sys.mem) && Legal(p, cfg, sys, step)
    ensures var next := After(p, cfg, sys, step); Durable(p, next.db) && InStep(p, next.db, next.mem)
  {
    hide Durable, InStep, Handled, SteppedDown, ReleaseWindowSeal, SetDeliberationDecision;
    match step
    case Handle(ev, s) => HandledSound(p, cfg, sys.db, sys.mem, s, ev);
    case Crash(ev, s, k, next) =>
      HandledSound(p, cfg, sys.db, sys.mem, s, ev);
      DurableAt(p, sys.db, Handled(p, cfg, sys.db, sys.mem, s, ev), k);
      BlankInStep(p, StoreAt(sys.db, Handled(p, cfg, sys.db, sys.mem, s, ev), k), next);
    case Replace(next) => BlankInStep(p, sys.db, next);
    case StepDown => SteppedDownInStep(p, sys.db, sys.mem);
    case GuardLapses(wid) => GuardLapsesSafely(p, sys.db, sys.mem, wid);
    case Vote(id, voter, decision) => VoteIsSafe(p, sys.db, sys.mem, id, voter, decision);
  }

  lemma TakeStep(p: Platform, cfg: Config, systems: seq<System>, run: seq<Step>, i: nat)
    requires ValidConfig(cfg) && Execution(p, cfg, systems, run) && i < |run|
    ensures Legal(p, cfg, systems[i], run[i]) && systems[i + 1] == After(p, cfg, systems[i], run[i])
  {
    hide Legal, After;
  }

  lemma ExecutionLength(p: Platform, cfg: Config, systems: seq<System>, run: seq<Step>)
    requires ValidConfig(cfg) && Execution(p, cfg, systems, run)
    ensures |systems| == |run| + 1
  {
    hide Legal, After;
  }

  lemma RunStep(p: Platform, cfg: Config, systems: seq<System>, run: seq<Step>, i: nat)
    requires Assumptions(p, cfg) && Execution(p, cfg, systems, run) && i < |run|
    requires Durable(p, systems[i].db) && InStep(p, systems[i].db, systems[i].mem)
    ensures Durable(p, systems[i + 1].db) && InStep(p, systems[i + 1].db, systems[i + 1].mem)
  {
    hide *;
    AssumedConfig(p, cfg);
    ExecutionLength(p, cfg, systems, run);
    TakeStep(p, cfg, systems, run, i);
    StepKeeps(p, cfg, systems[i], run[i]);
  }

  /** From i on, the invariant holds all along a run. */
  lemma {:induction false} RunKeeps(p: Platform, cfg: Config, systems: seq<System>, run: seq<Step>, i: nat, j: nat)
    requires Assumptions(p, cfg) && Execution(p, cfg, systems, run) && i <= j < |systems|
    requires Durable(p, systems[i].db) && InStep(p, systems[i].db, systems[i].mem)
    ensures Durable(p, systems[j].db) && InStep(p, systems[j].db, systems[j].mem)
    decreases j
  {
    hide Durable, InStep, Legal, After, Assumptions, Execution;
    AssumedConfig(p, cfg);
    ExecutionLength(p, cfg, systems, run);
    if i < j {
      RunKeeps(p, cfg, systems, run, i, j - 1);
      RunStep(p, cfg, systems, run, j - 1);
    }
  }

  /** The resolver validate_chain is given: the base stored with the window of the block. */
  function WindowBase(windows: map<string, Window>): Block -> string {
    (b: Block) => if b.votingWindowId in windows then windows[b.votingWindowId].base else ""
  }

  /** What a durable store says about its chain: it validates, and no window or law acts twice. */
  lemma DurableChain(p: Platform, db: Db)
    requires Durable(p, db)
    ensures ChainOk(p, Blocks(db), WindowBase(db.windows)) && SafeChain(Blocks(db))
    ensures forall b :: b in Blocks(db) ==> FromWindow(p, b, db.windows)
  {
    hide SafeChain, LawsOk, QueueOk, DeliberationOk, PointerOk, WindowsOk, VerifyNonce, GetChain, LinksOk;
    var bs := Blocks(db);
    forall i | 0 <= i < |bs| ensures NonceOk(p, WindowBase(db.windows), bs[i]) {
      assert FromWindow(p, bs[i], db.windows);
    }
  }

  lemma InitialKeeps(p: Platform, cfg: Config, systems: seq<System>, run: seq<Step>, i: nat)
    requires Assumptions(p, cfg) && Execution(p, cfg, systems, run) && Initial(systems[0]) && i < |systems|
    ensures Durable(p, systems[i].db) && InStep(p, systems[i].db, systems[i].mem)
  {
    hide Durable, InStep, Assumptions, Execution;
    AssumedConfig(p, cfg);
    EmptyDurable(p);
    BlankInStep(p, systems[0].db, systems[0].mem);
    RunKeeps(p, cfg, systems, run, 0, i);
  }

  /** All along any run from an empty store, with any number of crashes and takeovers: the chain validates against the
      windows in the store, holds at most one block per window, and per law at most a promulgation followed by at
      most a repeal. */
  lemma FailoverSafety(p: Platform, cfg: Config, systems: seq<System>, run: seq<Step>, i: nat)
    requires Assumptions(p, cfg) && Execution(p, cfg, systems, run) && Initial(systems[0]) && i < |systems|
    ensures var db := systems[i].db;
      ChainOk(p, Blocks(db), WindowBase(db.windows)) && SafeChain(Blocks(db))
  {
    hide *;
    AssumedConfig(p, cfg);
    InitialKeeps(p, cfg, systems, run, i);
    DurableChain(p, systems[i].db);
  }

  /** The same at every write in the middle of any handler that comes after a run. */
  lemma SafeAtEveryWrite(p: Platform, cfg: Config, systems: seq<System>, run: seq<Step>, s: Senses, ev: Event, k: nat)
    requires Assumptions(p, cfg) && Execution(p, cfg, systems, run) && Initial(systems[0])
    requires var end := systems[|run|]; FreshLaw(end.db, ev) && k <= |Handled(p, cfg, end.db, end.mem, s, ev).steps|
    ensures var end := systems[|run|];
      var db := StoreAt(end.db, Handled(p, cfg, end.db, end.mem, s, ev), k);
      ChainOk(p, Blocks(db), WindowBase(db.windows)) && SafeChain(Blocks(db))
  {
    hide *;
    AssumedConfig(p, cfg);
    ExecutionLength(p, cfg, systems, run);
    var end := systems[|run|];
    InitialKeeps(p, cfg, systems, run, |run|);
    HandledSound(p, cfg, end.db, end.mem, s, ev);
    DurableAt(p, end.db, Handled(p, cfg, end.db, end.mem, s, ev), k);
    DurableChain(p, StoreAt(end.db, Handled(p, cfg, end.db, end.mem, s, ev), k));
  }
}
