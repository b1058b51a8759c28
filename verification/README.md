# VoxChain in Dafny

VoxChain is a governance blockchain: laws wait in a queue for their turn, are deliberated, open a proof-of-work window,
and are sealed into a hash chain. A coordinator (the NCT) leads, can crash after any write to Redis, and is replaced;
pools of miners share the search for nonces. This project models that system and proves what it keeps.

| part | files |
|---|---|
| Text, library functions, records | `Wrappers` `Text` `Platform` `Laws` `Categories` |
| Challenges, miners, blocks, chain | `Challenge` `Miner` `Chain` |
| Turns, difficulty, availability, deliberation | `Turns` `Difficulty` `Ratchet` `Availability` `Deliberation` `Quorum` |
| Redis as a value, one function per write; as an object | `Store` `RedisStore` |
| The handlers of the coordinator, write by write; as an object | `Nct` `NctCoordinator` |
| One leader at a time, with crashes and takeovers | `NctInvariant` `NctHandlers` `NctRuns` `NctSafety` `NctRecords` `NctFailover` |
| Where each law is, how often it is queued, where a crash loses it | `NctConservation` `NctLedger` `NctPlaces` `NctQueue` `NctGaps` `NctCrashes` |
| What a leader was not told of, and what becomes of a law over any run | `NctVeil` `NctSettled` `NctFates` |
| The primary that restarts without resuming | `NctRestart` |
| Many leaders at once | `SplitBrain` `SealGuard` `SealRelease` `HandlerMoves` |
| The pool coordinator | `Fragments` `Pool` `PoolRuns` |
| Leases and elections | `NctLease` `PoolLease` `Bully` |
| Teams | `Teams` |

A handler is specified as an `Exec`: the Redis state after each of its writes, the memory it ends with, and the messages
it publishes. A crash is a stop after k writes; the store keeps the k-th state and memory is gone. The classes
`VoxChainStore` and `NCTCoordinator` do the same in place, and each method is proved to leave exactly the trace its
specification says. Runs are sequences of such steps, in any order and of any length.

Assumptions, all named where they are used: SHA-256 over a block is free of collisions and never empty
(`CollisionFree`), and where the exact condition for releasing a guard is stated never sixty-four zeros (`GenesisIsNoHash`),
`datetime.fromisoformat` reads what `isoformat` wrote (`ClockTextFaithful`), the coverage constant is at least 1, and a
promulgation comes with a law id nobody has used. MD5 gives 16 bytes (section 3.5 of RFC 1321) and is otherwise
arbitrary. Time is in microseconds; `math.log` is the exact logarithm and rates are `real`. Leaders that overlap are taken to
agree with Redis on the time.

## What the proofs found

- A law can be lost: between some single writes nothing in Redis leads to it (pilar2-distribuido/nct-coordinator/nct/coordinator.py:365-384, 730-731,
  from 882 to the re-enqueue or the open, 1020-1025, 1075-1077, 1097-1100, 1219-1225). `HandledGaps` gives the positions in
  every handler exactly. Over any run a law is lost if and only if some crash hit one of them, or a leader wrote over
  an open window or an announcement it was not told of (`LostIffSomeLoses`), and it is lost for good (`LostForever`).
- At one write of an announcement its law is both queued and announced (`OnePlaceAtEveryWrite`); a crash there makes the
  successor queue it a second time (`CutAnnouncementQueuedTwice`). A repeal asked for twice queues its law twice, because
  only the status is looked at (coordinator.py:386-409, `RepealQueuedTwice`). Nothing else ever does, and the queue stays
  free of duplicates exactly if neither happens to a queued law (`DuplicateFreeIff`).
- A primary that restarts and gets its lease back starts as leader without `become_leader` (main.py:69-92). Its
  memory accounts for the store exactly if the store holds no open window and announces no law (`AccountedIffClean`, and
  `InvisibleIff` for one window). A law in an open window or only announced is in no place of it (`RestartedPlaces`). It
  does not forget them for good at once: a law in the window is lost exactly by the first handler that opens another
  window, so that with a pause configured, as by default, it outlives the next announcement (`HeldLostByHandler`), and a law
  that is only announced is lost exactly by the next announcement (`AnnouncedLostByHandler`).
- A leader stalled between the guard and reading the tip can seal a second block of a window its successor already
  sealed (`StalledLeaderSealsTwice`). One block per window is kept exactly by those releases and lapses of a guard that come
  before any block and while nobody can still append, or when nobody will try to seal the window any more (`CarefulIff`).
  The lapse of the guard of a closed window is of the second kind, and so is any lapse when windows are shorter than a
  guard lives (`LapsesAreHarmless`), but for a leader that stalls all that time between a verified nonce and the guard. What
  is left is the release by a successor (coordinator.py:1166-1169).
- A team with an agenda and no stored policy is left out of the quorum, while its pool mines everything, and a stored
  policy with an unknown decision is counted as a refusal, while its pool keeps the policy it has
  (`TeamCountedIffPoolMines`, `UncountedPoolMines`, `UnknownDecisionIsNotCounted`).
- `window_seconds_for` leaves its bounds exactly if the minimum is larger than the maximum once both are cut to seconds
  (`WindowSecondsInBoundsIff`): then it exceeds the maximum, or with nothing to measure falls below the minimum
  (`LongerThanTheMaximum`).
- `nonce_space_for(max_n_for_space(s)) <= s` fails for spaces below the one of the minimum difficulty, and only there
  (`SustainedDifficultyFits`).
- Two candidates can win one epoch of the pool election if three lease lifetimes are shorter than the epoch
  (`OneWinnerIff`); a lease of an unknown rank does not decode to what was encoded (`DecodeInvertsEncode`).

## Model

| member | source | states |
|---|---|---|
| `NctSafety.FailoverSafety` | pilar2-distribuido/nct-coordinator/nct/coordinator.py:912-1182 | All along any run from an empty store, with crashes after any write and any takeovers, the chain validates against the stored windows, each window has at most one block, and each law at most a promulgation followed by at most a repeal |
| `NctSafety.SafeAtEveryWrite` | pilar2-distribuido/nct-coordinator/nct/coordinator.py:912-1182 | The same holds at every single write in the middle of whatever handler comes after a run |
| `NctSafety.StepKeeps` | pilar2-distribuido/nct-coordinator/nct/coordinator.py:229-1252 | Every step of the system (a handler, a crash after k writes, a replacement, a step-down, a lapsed guard, an answer written by the API) keeps the store invariant and leaves memory in step with it |
| `NctSafety.DurableChain` | pilar2-distribuido/common/blockchain/chain.py:47-60 | The store invariant implies that the chain passes validate_chain with the stored windows as resolver, and that no window or law acts twice |
| `NctFailover.FailoverIsInvisible` | pilar2-distribuido/nct-coordinator/nct/coordinator.py:1129-1182 | While a window is open, whoever leads after any crashes and successors, none started as leader over that open window, holds exactly the window that was published: an acceptable nonce is sealed and any other is ignored, as by the first leader, at every instant |
| `NctFailover.InvisibleIff` | pilar2-distribuido/nct-coordinator/main.py:63-92 | Every leader that meets the window open holds it exactly if no process is started as leader while it is open |
| `NctFailover.CleanStartsAreInvisible` | pilar2-distribuido/nct-coordinator/main.py:63-92 | A process started as leader on a store without open window is started over none, so it hides no failover |
| `NctFailover.FirstValidNonceSeals` | pilar2-distribuido/nct-coordinator/nct/coordinator.py:913-1029 | An acceptable nonce ends as the one new block of its window, with the window sealed and its law decided after five writes; any other message changes nothing |
| `NctRecords.HistoryIsKept` | pilar2-distribuido/common/storage/redis_store.py:545-591 | Between any two moments of a run the chain is only extended, a resolved window stays resolved, an open window keeps its record, and a law keeps its author |
| `NctFates.Conservation` | pilar2-distribuido/nct-coordinator/nct/coordinator.py:229-1252 | After any run of crashes, promotions and starts as leader over anything, every law the leader knows is in exactly one place (queue with as many copies as it has there, deliberation, window, decided), or in none: exactly if some step lost it, or the leader was not told of the window or the announcement it is in |
| `NctFates.LostIffSomeLoses` | pilar2-distribuido/nct-coordinator/nct/coordinator.py:229-1252 | Over any run, nothing in the store leads to a law exactly if some crash fell in one of the gaps listed handler by handler, or some leader wrote over the window or announcement it was not told of |
| `NctFates.StepFate` | pilar2-distribuido/nct-coordinator/nct/coordinator.py:229-1252 | The same for one step of any kind, and no step finds a lost law again |
| `NctFates.LostForever` | pilar2-distribuido/nct-coordinator/nct/coordinator.py:1109-1229 | A law that no anchor of the store holds is never found again, by any leader, promoted or started over anything |
| `NctFates.PlacedUnlessUnknown` | pilar2-distribuido/nct-coordinator/main.py:63-92 | Between handlers a leader has each law in one place, each copy in the queue counted, and in none exactly if it is lost or in an open window or only announcement the leader was not told of |
| `NctFates.OnePlaceAtEveryWrite` | pilar2-distribuido/nct-coordinator/nct/coordinator.py:365-910 | At every write of every handler after any run a law is in at most one place of the store, each copy in the queue counted, but for the one write of an announcement at which it is still queued; and in none exactly if it is lost |
| `NctFates.ExactlyOnePlace` | pilar2-distribuido/nct-coordinator/nct/coordinator.py:386-409 | With every copy counted the law is in exactly one place unless it was lost or the leader was not told of it, if it is never queued twice |
| `NctFates.HeldLostIff` | pilar2-distribuido/nct-coordinator/nct/coordinator.py:724-731 | For a leader that was not told of the open window, its law is lost at a write of a handler exactly if the pointer has moved |
| `NctFates.HeldLostByHandler` | pilar2-distribuido/nct-coordinator/nct/coordinator.py:229-1252 | Any handler of such a leader costs that law exactly if it opens a window, of the next law or with the frozen numbers of an announcement; an announcement alone does not |
| `NctFates.AnnouncedLostIff` | pilar2-distribuido/nct-coordinator/nct/coordinator.py:828-832 | For a leader that was not told of the announcement, a law that is only announced is lost at a write exactly if another announcement has taken the place |
| `NctFates.AnnouncedLostByHandler` | pilar2-distribuido/nct-coordinator/nct/coordinator.py:229-1252 | Any handler of such a leader costs that law exactly if it announces another |
| `NctFates.KnownLostIff` | pilar2-distribuido/nct-coordinator/nct/coordinator.py:229-1252 | Any other law is lost at a write of any handler exactly if that write is in a gap of the law |
| `NctVeil.HandledLocks` | pilar2-distribuido/nct-coordinator/nct/coordinator.py:229-1252 | A handler of a leader makes the same writes and leaves the same memory whether the window and the announcement it was not told of are in the store or not, and they stay there until it writes over them |
| `NctSettled.HandledSettled` | pilar2-distribuido/nct-coordinator/nct/coordinator.py:229-1252 | At every write of a handler, a leader without window has changed no window record there was and moved the pointer only to a window of its own, and one without deliberation has dropped no announcement and brought no law into deliberation without one |
| `NctCrashes.HandledGaps` | pilar2-distribuido/nct-coordinator/nct/coordinator.py:229-1252 | A crash after k writes of any handler loses a law exactly if k is in a gap of that law: the positions of all stretches of the handler, of what it opens afterwards, and of the three parts of a takeover |
| `NctCrashes.PromulgationGap` | pilar2-distribuido/nct-coordinator/nct/coordinator.py:365-384 | A new law is in its record two writes before it is in the queue, and a crash there loses it |
| `NctQueue.DuplicateFreeIff` | pilar2-distribuido/nct-coordinator/nct/coordinator.py:386-409 | Over any run, restarts as leader included, a law is queued at most once at every single write exactly if no repeal of it is accepted and no orphan deliberation of it recovered while it is queued |
| `NctQueue.HandledCopies` | pilar2-distribuido/nct-coordinator/nct/coordinator.py:229-1252 | Within its first n writes a handler queues a law twice exactly if it is one of those two, the law is queued, and n reaches the third write of the repeal or the fourth of the recovery |
| `NctQueue.HandledCalm` | pilar2-distribuido/nct-coordinator/nct/coordinator.py:229-1252 | No other handler, and neither of the two on a law that is not queued, ever leaves two copies, and the law in deliberation stays out of the queue |
| `NctQueue.RepealQueues` | pilar2-distribuido/nct-coordinator/nct/coordinator.py:386-409 | A repeal appends the law exactly if it is promulgated, however often it is queued |
| `NctQueue.RepealQueuedTwice` | pilar2-distribuido/nct-coordinator/nct/coordinator.py:386-409 | An accepted repeal adds one copy, and leaves more than one exactly if the law was queued |
| `NctQueue.RecoveryQueues` | pilar2-distribuido/nct-coordinator/nct/coordinator.py:1206-1229 | Recovering a law in deliberation appends it at the fourth write, whatever the queue holds |
| `NctQueue.CutAnnouncementQueuedTwice` | pilar2-distribuido/nct-coordinator/nct/coordinator.py:828-832 | A crash between the status and the removal of an announcement makes whoever recovers it queue the law a second time |
| `NctQueue.OpeningTakesEveryCopy` | pilar2-distribuido/nct-coordinator/nct/coordinator.py:724-731 | Opening the window of a law takes every copy of it out of the queue |
| `NctPlaces.AccountedIffClean` | pilar2-distribuido/nct-coordinator/main.py:63-92 | The memory of every leader of a run accounts for the store exactly if every process started as leader finds no open window and no announced law |
| `NctPlaces.BlankLeaderAccountsIff` | pilar2-distribuido/nct-coordinator/main.py:63-92 | A leader that remembers nothing accounts for a store exactly if the store holds no window and announces no law |
| `NctPlaces.PlacedOnce` | pilar2-distribuido/nct-coordinator/nct/coordinator.py:411-448 | Between handlers a leader has each law in one place, each copy in the queue counted, or in none if it is lost, and never a deliberation and a window at once |
| `NctLedger.TakenOver` | pilar2-distribuido/nct-coordinator/nct/coordinator.py:1129-1229 | Resuming the window and recovering the deliberation, on any store a crash can leave, accounts for every law the store anchors and touches none that is lost |
| `NctGaps.OpeningGap` | pilar2-distribuido/nct-coordinator/nct/coordinator.py:724-731 | Opening a queued law leaves it unanchored exactly after the third of its four writes |
| `NctGaps.AnnouncingHasNoGap` | pilar2-distribuido/nct-coordinator/nct/coordinator.py:828-832 | Announcing a deliberation leaves its law anchored at every write |
| `NctGaps.ClosingGap` | pilar2-distribuido/nct-coordinator/nct/coordinator.py:1012-1029 | Closing a sealed window leaves its law unanchored exactly between the result and the status |
| `NctGaps.ExpiryGaps` | pilar2-distribuido/nct-coordinator/nct/coordinator.py:1051-1107 | An expired window leaves its law unanchored exactly until it is marked discarded, or until it is queued again |
| `NctGaps.ResolutionGaps` | pilar2-distribuido/nct-coordinator/nct/coordinator.py:855-910 | A resolved deliberation leaves its law unanchored exactly from the moment it is cleared until the law is in its window, discarded or queued |
| `NctGaps.RecoveryGap` | pilar2-distribuido/nct-coordinator/nct/coordinator.py:1206-1229 | Recovering an orphan deliberation leaves its law unanchored until it is queued again, and not at all if it still was queued |
| `NctRestart.RestartedPrimaryIsDeaf` | pilar2-distribuido/nct-coordinator/main.py:69-92 | A primary that restarts as leader never resumes: it ignores every nonce, deadline and answer, and become_leader does nothing |
| `NctRestart.RestartedPlaces` | pilar2-distribuido/nct-coordinator/main.py:69-92 | Where such a process has each law: nowhere if it is lost, in the open window or only announced, and otherwise in one place |
| `NctRestart.RestartForgetsNothingIff` | pilar2-distribuido/nct-coordinator/main.py:69-92 | It has every anchored law exactly if no law is in an open window or only announced |
| `NctRestart.DeafLeaderLosesIff` | pilar2-distribuido/nct-coordinator/main.py:69-92 | When such a process looks for its next law, a law only a resuming leader would find is lost exactly if there is a next law and it overwrites the anchor: the open window if no pause is configured, the announcement if one is; with a pause the law of the window outlives the announcement |
| `NctRestart.LostByRestart` | pilar2-distribuido/nct-coordinator/main.py:69-92 | What it overwrites is lost for good: no run from there finds it |
| `NctFailover.FrozenDifficulty` | pilar2-distribuido/nct-coordinator/nct/coordinator.py:692-777 | Two sets of answers to one announcement that both open a window give the announced zeros, duration and nonce space, and windows and challenges that differ in the participants only |
| `NctFailover.OneMoreAccepts` | pilar2-distribuido/nct-coordinator/nct/coordinator.py:855-888 | Turning one answer into accept keeps the window open and drops no participant |
| `NctHandlers.HandleProposalSound` | pilar2-distribuido/nct-coordinator/nct/coordinator.py:229-296 | Every write of a proposal keeps the store invariant, and memory is in step at the end |
| `NctHandlers.MaybeOpenSound` | pilar2-distribuido/nct-coordinator/nct/coordinator.py:411-448 | The same for choosing and opening, or announcing, the next law |
| `NctHandlers.StartDeliberationSound` | pilar2-distribuido/nct-coordinator/nct/coordinator.py:780-836 | The same for announcing a deliberation |
| `NctHandlers.ResolveDeliberationSound` | pilar2-distribuido/nct-coordinator/nct/coordinator.py:855-910 | The same for the four ways a deliberation ends |
| `NctHandlers.HandleNonceSound` | pilar2-distribuido/nct-coordinator/nct/coordinator.py:913-1029 | The same for a nonce, from the guard to the next opening |
| `NctHandlers.SealSound` | pilar2-distribuido/nct-coordinator/nct/coordinator.py:975-1010 | With one leader the comparison with the tip never fails, and sealing keeps the invariant at each write |
| `NctHandlers.CheckDeadlineSound` | pilar2-distribuido/nct-coordinator/nct/coordinator.py:1051-1107 | The same for the two ways a window expires |
| `NctHandlers.ResumeSound` | pilar2-distribuido/nct-coordinator/nct/coordinator.py:1129-1182 | Resuming, on any store a crash leaves, keeps the invariant at each write and ends with no window in memory or with the open one of the pointer, its guard free |
| `NctHandlers.RecoverDeliberationSound` | pilar2-distribuido/nct-coordinator/nct/coordinator.py:1206-1229 | The same for giving back the law of an orphan deliberation |
| `NctHandlers.BecomeLeaderSound` | pilar2-distribuido/nct-coordinator/nct/coordinator.py:1109-1127 | The whole of become_leader keeps the invariant at each write |
| `NctHandlers.FreshWindow` | pilar2-distribuido/nct-coordinator/nct/coordinator.py:703-713 | The counter makes every new window id one that no window, guard or block has |
| `NctInvariant.SafeExtension` | pilar2-distribuido/nct-coordinator/nct/coordinator.py:975-1010 | The block of a law whose turn it is, from a window without a block, keeps one block per window and promulgation before repeal |
| `NctInvariant.AppendWrite` | pilar2-distribuido/nct-coordinator/nct/coordinator.py:982-995 | The append of a lone leader always passes, adds exactly its block, and keeps the whole store invariant |
| `NctCoordinator.NCTCoordinator.constructor` | pilar2-distribuido/nct-coordinator/nct/coordinator.py:194-201 | A new process remembers no window and no deliberation, and reads the last author |
| `NctCoordinator.NCTCoordinator.TakeTurn` | pilar2-distribuido/nct-coordinator/nct/coordinator.py:686-690 | Charges the turn: the writes, in order, and the memory of the specification |
| `NctCoordinator.NCTCoordinator.NWithRatchet` | pilar2-distribuido/nct-coordinator/nct/coordinator.py:614-648 | Measures through the ratchet of the scope, restored from and saved to the store |
| `NctCoordinator.NCTCoordinator.NForThisWindow` | pilar2-distribuido/nct-coordinator/nct/coordinator.py:584-612 | Fixed difficulty, or the measured one with the nonce space that goes with it |
| `NctCoordinator.NCTCoordinator.NForVoters` | pilar2-distribuido/nct-coordinator/nct/coordinator.py:650-667 | The difficulty of an area, measured on its biggest voter |
| `NctCoordinator.NCTCoordinator.Install` | pilar2-distribuido/nct-coordinator/nct/coordinator.py:724-777 | The four writes that install a window, its copy in memory and the published challenge |
| `NctCoordinator.NCTCoordinator.OpenWindow` | pilar2-distribuido/nct-coordinator/nct/coordinator.py:692-777 | Opening without deliberation is exactly the specified writes, memory and messages |
| `NctCoordinator.NCTCoordinator.OpenFrozenWindow` | pilar2-distribuido/nct-coordinator/nct/coordinator.py:692-777 | The same with the numbers a deliberation froze |
| `NctCoordinator.NCTCoordinator.StartDeliberation` | pilar2-distribuido/nct-coordinator/nct/coordinator.py:780-836 | Announcing a law is exactly the specified writes and memory, vetoes included |
| `NctCoordinator.NCTCoordinator.WriteVetoes` | pilar2-distribuido/nct-coordinator/nct/coordinator.py:812-817 | The loop writes one rejection per voter that had vetoed the law |
| `NctCoordinator.NCTCoordinator.MaybeOpenWindow` | pilar2-distribuido/nct-coordinator/nct/coordinator.py:411-448 | Does nothing, announces or opens, as specified |
| `NctCoordinator.NCTCoordinator.CheckDeliberation` | pilar2-distribuido/nct-coordinator/nct/coordinator.py:838-853 | Waits until the pause ends or everybody has answered, and then resolves |
| `NctCoordinator.NCTCoordinator.EndPause` | pilar2-distribuido/nct-coordinator/nct/coordinator.py:855-888 | The writes that end the pause, with the count of silent rounds |
| `NctCoordinator.NCTCoordinator.ResolveDeliberation` | pilar2-distribuido/nct-coordinator/nct/coordinator.py:855-910 | Opens, discards, drops unanswered or queues again, as specified |
| `NctCoordinator.NCTCoordinator.QueuePromulgacion` | pilar2-distribuido/nct-coordinator/nct/coordinator.py:365-384 | The four writes of a promulgation |
| `NctCoordinator.NCTCoordinator.QueueDerogacion` | pilar2-distribuido/nct-coordinator/nct/coordinator.py:386-409 | The four writes of a repeal, or nothing if the law is not promulgated |
| `NctCoordinator.NCTCoordinator.HandleProposal` | pilar2-distribuido/nct-coordinator/nct/coordinator.py:229-296 | Refuses or queues, and then opens what can be opened |
| `NctCoordinator.NCTCoordinator.SealBlockOf` | pilar2-distribuido/nct-coordinator/nct/coordinator.py:975-1010 | Builds on the tip, appends by comparison, and closes or gives the law back |
| `NctCoordinator.NCTCoordinator.CloseSealedWindow` | pilar2-distribuido/nct-coordinator/nct/coordinator.py:1012-1029 | The three writes that follow a block, and the notice |
| `NctCoordinator.NCTCoordinator.HandleNonceResponse` | pilar2-distribuido/nct-coordinator/nct/coordinator.py:913-973 | Refuses, or takes the guard and seals |
| `NctCoordinator.NCTCoordinator.Expire` | pilar2-distribuido/nct-coordinator/nct/coordinator.py:1075-1085 | Marks the window and the law, and remembers the text as discarded |
| `NctCoordinator.NCTCoordinator.ExpireWithoutQuorum` | pilar2-distribuido/nct-coordinator/nct/coordinator.py:1087-1107 | Marks the window and queues the law again |
| `NctCoordinator.NCTCoordinator.CheckDeadline` | pilar2-distribuido/nct-coordinator/nct/coordinator.py:1051-1085 | Does nothing before the deadline, and afterwards expires by quorum |
| `NctCoordinator.NCTCoordinator.ResumeWindow` | pilar2-distribuido/nct-coordinator/nct/coordinator.py:1129-1182 | Clears, completes, rebuilds or gives back, as specified |
| `NctCoordinator.NCTCoordinator.GiveBack` | pilar2-distribuido/nct-coordinator/nct/coordinator.py:1189-1204 | Clears the pointer and queues the law if it still is in its window |
| `NctCoordinator.NCTCoordinator.RecoverOrphanDeliberation` | pilar2-distribuido/nct-coordinator/nct/coordinator.py:1206-1229 | Forgets the deliberation and queues its law if it still is in it |
| `NctCoordinator.NCTCoordinator.BecomeLeader` | pilar2-distribuido/nct-coordinator/nct/coordinator.py:1109-1127 | Resumes, recovers, checks the deadline and opens, in this order |
| `NctCoordinator.NCTCoordinator.StepDown` | pilar2-distribuido/nct-coordinator/nct/coordinator.py:1231-1251 | Lets go of memory and writes nothing |
| `NctCoordinator.NCTCoordinator.Tick` | pilar2-distribuido/nct-coordinator/nct/coordinator.py:1254-1258 | The deliberation, the deadline and the next opening, in this order |
| `RedisStore.VoxChainStore.SaveLaw` | pilar2-distribuido/common/storage/redis_store.py:113-136 | One write: the fields given, over what the record held |
| `RedisStore.VoxChainStore.SetLawStatus` | pilar2-distribuido/common/storage/redis_store.py:147-148 | One write of one field |
| `RedisStore.VoxChainStore.SetLawAction` | pilar2-distribuido/common/storage/redis_store.py:150-151 | One write of one field |
| `RedisStore.VoxChainStore.SetLawRequestedBy` | pilar2-distribuido/common/storage/redis_store.py:293-294 | One write of one field |
| `RedisStore.VoxChainStore.EnqueueLaw` | pilar2-distribuido/common/storage/redis_store.py:154-155 | One write at the end of the queue |
| `RedisStore.VoxChainStore.RemoveFromQueue` | pilar2-distribuido/common/storage/redis_store.py:157-158 | One write: every occurrence goes |
| `RedisStore.VoxChainStore.MarkTextHashDiscarded` | pilar2-distribuido/common/storage/redis_store.py:181-182 | One write into the set of discarded texts |
| `RedisStore.VoxChainStore.NextWindowNumber` | pilar2-distribuido/common/storage/redis_store.py:192-193 | One write: the next number, never given before |
| `RedisStore.VoxChainStore.SaveWindow` | pilar2-distribuido/common/storage/redis_store.py:197-224 | One write of the window record |
| `RedisStore.VoxChainStore.SetWindowResult` | pilar2-distribuido/common/storage/redis_store.py:238-246 | One write: the result, and the nonce and winner only if given |
| `RedisStore.VoxChainStore.TrySealWindow` | pilar2-distribuido/common/storage/redis_store.py:248-261 | Wins exactly if nobody holds the guard, and otherwise writes nothing |
| `RedisStore.VoxChainStore.ReleaseWindowSeal` | pilar2-distribuido/common/storage/redis_store.py:266-275 | One write: the guard is free |
| `RedisStore.VoxChainStore.SetActiveWindow` | pilar2-distribuido/common/storage/redis_store.py:277-278 | One write of the pointer |
| `RedisStore.VoxChainStore.ClearActiveWindow` | pilar2-distribuido/common/storage/redis_store.py:283-284 | One write of the pointer |
| `RedisStore.VoxChainStore.SaveDifficultyState` | pilar2-distribuido/common/storage/redis_store.py:319-330 | One write of the ratchet of a scope |
| `RedisStore.VoxChainStore.PushWindowAuthor` | pilar2-distribuido/common/storage/redis_store.py:490-503 | One write: the author first, the history cut to its length |
| `RedisStore.VoxChainStore.SetCooldown` | pilar2-distribuido/common/storage/redis_store.py:512-518 | One write of the cooldown |
| `RedisStore.VoxChainStore.SaveDeliberation` | pilar2-distribuido/common/storage/redis_store.py:414-415 | One write of the announcement |
| `RedisStore.VoxChainStore.ClearDeliberation` | pilar2-distribuido/common/storage/redis_store.py:427-428 | One write |
| `RedisStore.VoxChainStore.SetDeliberationDecision` | pilar2-distribuido/common/storage/redis_store.py:433-435 | One write of one answer |
| `RedisStore.VoxChainStore.ClearDeliberationDecisions` | pilar2-distribuido/common/storage/redis_store.py:437-438 | One write |
| `RedisStore.VoxChainStore.SaveDeliberationResult` | pilar2-distribuido/common/storage/redis_store.py:450-452 | One write of the outcome |
| `RedisStore.VoxChainStore.SetSilentDeliberations` | pilar2-distribuido/common/storage/redis_store.py:447-448 | One write of the count |
| `RedisStore.VoxChainStore.AppendBlock` | pilar2-distribuido/common/storage/redis_store.py:545-577 | Appends exactly if the chain is empty or the block names its tip, and otherwise writes nothing |
| `RedisStore.VoxChainStore.GetChain` | pilar2-distribuido/common/storage/redis_store.py:586-587 | Reads the blocks of the listed hashes, in order |
| `Chain.ValidateChainLinks` | pilar2-distribuido/common/blockchain/chain.py:26-44 | Succeeds exactly if every hash and link holds, and otherwise names the first block that breaks and why |
| `Chain.ValidateChain` | pilar2-distribuido/common/blockchain/chain.py:47-60 | Succeeds exactly if the links hold and every nonce answers its base, and otherwise names the first that does not |
| `Chain.TipDeterminesChain` | pilar2-distribuido/common/blockchain/chain.py:26-44 | Two valid chains of one length with one tip are the same chain |
| `Chain.ExtendChain` | pilar2-distribuido/common/blockchain/chain.py:26-60 | A block that names the tip and answers its base extends a valid chain to a valid one |
| `Chain.BlockRoundTrip` | pilar2-distribuido/common/blockchain/block.py:58-75 | A block survives its round trip through the text of Redis |
| `Chain.SealBlock` | pilar2-distribuido/common/blockchain/block.py:78-97 | Sealing changes nothing that is hashed, and the hash is valid |
| `Store.AppendExtends` | pilar2-distribuido/common/storage/redis_store.py:545-577 | An append that passes extends the chain that is read back by exactly its block |
| `Store.StoringIsHarmless` | pilar2-distribuido/common/storage/redis_store.py:560-581 | Storing a block changes no other, even under an existing key |
| `SplitBrain.ChainSurvives` | pilar2-distribuido/common/storage/redis_store.py:545-591 | With any number of leaders interleaving write by write, the chain validates after every move and is only ever extended |
| `SplitBrain.CasAccepts` | pilar2-distribuido/common/storage/redis_store.py:545-577 | A block built on a tip read earlier is appended exactly if it names the tip, and a valid chain stays valid, the empty one included |
| `SealGuard.OneBlockUnlessReleased` | pilar2-distribuido/nct-coordinator/nct/coordinator.py:913-1010 | Any number of leaders seal at most one block per window as long as each guard that goes, by hand or by time to live, is of a window without block that nobody can still append to, or of one that nobody will try to seal any more |
| `SealGuard.OverLasts` | pilar2-distribuido/nct-coordinator/nct/coordinator.py:1129-1182 | A window that nobody has in hand and the pointer does not offer, or whose deadline is over, with nobody between a verified nonce and the guard, stays so over any run: no leader tries to seal it again |
| `SealGuard.LapsesAreHarmless` | pilar2-distribuido/common/storage/redis_store.py:248-261 | If windows are shorter than the 3600 seconds of a guard, guards may lapse: a window gets two blocks only after a release by a successor, or from a leader that verified a nonce before the deadline and tries the guard after the lapse |
| `SealRelease.CarefulIff` | pilar2-distribuido/nct-coordinator/nct/coordinator.py:913-1182 | In any world with one block per window, a move keeps that in every careful future exactly if each guard it lets go is of a window without block that nobody can still append to, or of one that nobody will try to seal any more |
| `SealRelease.CarelessReleaseDoubles` | pilar2-distribuido/nct-coordinator/nct/coordinator.py:913-1182 | Letting go of any other guard can be continued, without letting go of a further one, to two blocks: whoever has the window in hand or takes it over seals it, after another window has moved the tip if need be, beside the block it has, the one in flight, or that of a stalled leader |
| `SealRelease.StalledLeaderSealsTwice` | pilar2-distribuido/nct-coordinator/nct/coordinator.py:913-1182 | From the empty store: a leader opens a window, takes the guard and stalls, a successor reads pointer, record, tip and guard, frees the guard and seals, the first reads the new tip and appends, and the window has two blocks |
| `SealGuard.AppendIsExclusive` | pilar2-distribuido/common/storage/redis_store.py:545-577 | An append leaves every guard held by at most one leader that can still append: it makes the other blocks in flight stale, because its hash is one no block of the chain had |
| `HandlerMoves.NonceIsMoves` | pilar2-distribuido/nct-coordinator/nct/coordinator.py:913-995 | The first writes of handle_nonce_response are the moves verify, guard, read the tip and append, refused appends and taken guards included |
| `HandlerMoves.ResumeHoldsIff` | pilar2-distribuido/nct-coordinator/nct/coordinator.py:1129-1182 | Taking over ends with a window exactly if the stored pointer leads to one without result, the last block is not of it and its record parses; the guard is then free and the record describes what is in memory |
| `HandlerMoves.ResumeIsMoves` | pilar2-distribuido/nct-coordinator/nct/coordinator.py:1129-1182 | Whenever taking over ends with a window, it was the moves of reading the pointer, the record, the tip and the guard, and of releasing the guard if there is one |
| `HandlerMoves.ResumeElseIsOther` | pilar2-distribuido/nct-coordinator/nct/coordinator.py:1145-1165 | If there is nothing to resume, or the block is there already, taking over only writes what leaves chain and guards alone and sets no pointer |
| `HandlerMoves.OpeningIsMoves` | pilar2-distribuido/nct-coordinator/nct/coordinator.py:703-731 | Numbering a window, recording it and setting the pointer are the moves reserve, save and point, and the two writes between leave chain and guards alone |
| `HandlerMoves.ClosingIsOther` | pilar2-distribuido/nct-coordinator/nct/coordinator.py:996-1029 | Closing a sealed window, or giving its law back, leaves chain and guards alone, keeps what is recorded and sets no pointer |
| `Challenge.VerifyNonceIsLeadingZeros` | pilar2-distribuido/common/blockchain/challenge.py:65-74 | A nonce passes exactly if its digest has that many leading zero nibbles |
| `Challenge.HarderNonceIsEasierNonce` | pilar2-distribuido/common/blockchain/challenge.py:40-74 | A nonce for more zeros is one for fewer |
| `Challenge.SolveMiniChallenge` | pilar2-distribuido/common/blockchain/challenge.py:107-117 | The first nonce below the limit that solves the challenge, or none below it |
| `Challenge.WindowNumberOfId` | pilar2-distribuido/nct-coordinator/nct/coordinator.py:703-713 | The text of a window id determines its number |
| `Miner.CheckPrefix` | pilar1-minero/cpu/src/brute_force.py:10-15 | The loop compares nibble by nibble, and runs out of digest exactly for a longer prefix that agrees with all of it |
| `Miner.NibbleTestIsPrefixTest` | pilar1-minero/cpu/src/brute_force.py:4-15 | Up to 32 zeros the nibble test is the textual test of the verifier; beyond, nothing passes either |
| `Miner.BruteForce` | pilar1-minero/cpu/src/brute_force.py:17-42 | The first hit of the range with its hash, or none in the range |
| `Miner.HitIsVerified` | pilar1-minero/cpu/src/brute_force.py:10-42 | The nonces the miner reports are exactly those the coordinator accepts |
| `Turns.SelectNextLaw` | pilar2-distribuido/common/queue.py:52-113 | A turn exists whenever some law is openable, and goes to an openable law |
| `Turns.HeadLosesOnlyToOthers` | pilar2-distribuido/common/queue.py:52-113 | The oldest openable law loses the turn to another author only, and only after having had the last turn or over quota |
| `Turns.OldestIsServed` | pilar2-distribuido/common/queue.py:36-113 | A law that stays the oldest openable one is chosen within the wait bound, whatever others propose |
| `Turns.EveryPositionIsServed` | pilar2-distribuido/common/queue.py:36-113 | A law with p openable laws ahead is chosen within p + 1 times the wait bound |
| `Turns.DefaultWaitBound` | pilar2-distribuido/common/queue.py:36-50 | With the default quota the bound is six turns |
| `Categories.NormalizeCategory` | pilar2-distribuido/common/blockchain/categories.py:63-74 | The result is always a valid category |
| `Categories.ValidatedIsNormal` | pilar2-distribuido/common/blockchain/categories.py:63-91 | The category a proposal is accepted with is the one every later reading gives |
| `Categories.AgendaRoundTrip` | pilar2-distribuido/common/blockchain/categories.py:94-113 | An agenda survives being joined with commas and parsed again |
| `Categories.CoversIsSyntaxFree` | pilar2-distribuido/common/blockchain/categories.py:116-127 | Coverage depends only on the parsed agenda and the normalised category |
| `Difficulty.DifficultyBracket` | pilar2-distribuido/common/blockchain/difficulty.py:154-172 | 16^n <= power times target < 16^(n+1), exactly where no bound acts |
| `Difficulty.DifficultyMonotone` | pilar2-distribuido/common/blockchain/difficulty.py:154-172 | More power never lowers the difficulty |
| `Difficulty.SpaceSustainsItsDifficulty` | pilar2-distribuido/common/blockchain/difficulty.py:133-152 | The space dimensioned for n sustains n, from the minimum upwards |
| `Difficulty.SustainedDifficultyFits` | pilar2-distribuido/common/blockchain/difficulty.py:133-152 | The space needed for what a space sustains fits in it exactly if the space for the minimum does |
| `Difficulty.WindowSecondsBounds` | pilar2-distribuido/common/blockchain/deliberation.py:183-198 | The duration never exceeds the larger bound, and with power to measure never falls below the minimum |
| `Difficulty.WindowSecondsInBoundsIff` | pilar2-distribuido/common/blockchain/deliberation.py:183-198 | It is within both bounds exactly if the bounds, cut to seconds, are in order |
| `Difficulty.LongerThanTheMaximum` | pilar2-distribuido/common/blockchain/deliberation.py:183-198 | A minimum of an hour under a maximum of a minute: an hour with power to measure, and a minute without |
| `Difficulty.WindowSecondsMonotone` | pilar2-distribuido/common/blockchain/deliberation.py:183-198 | More zeros or less power never shorten the window, except, exactly, that losing all power does where the bounds are out of order |
| `Ratchet.DifficultyRatchet.Restore` | pilar2-distribuido/common/blockchain/difficulty.py:202-216 | The object reads a saved state up to the first field that does not parse |
| `Ratchet.DifficultyRatchet.Update` | pilar2-distribuido/common/blockchain/difficulty.py:218-238 | The object rises at once and falls one zero after enough low measurements in a row |
| `Ratchet.RestoredSaved` | pilar2-distribuido/common/storage/redis_store.py:309-330 | What one process saves another restores, whatever it remembered |
| `Ratchet.NeverBelowRecent` | pilar2-distribuido/common/blockchain/difficulty.py:218-238 | After every update n is at least each of the last decay_windows measurements |
| `Ratchet.LowersSlowly` | pilar2-distribuido/common/blockchain/difficulty.py:218-238 | k updates lower n by at most (k + initial streak) / decay_windows |
| `Ratchet.FailoverIsInvisible` | pilar2-distribuido/nct-coordinator/nct/coordinator.py:614-648 | Updates spread over any number of processes with restore, update and save give the sequence of a single process |
| `Availability.EligibleWorkers` | pilar2-distribuido/common/blockchain/availability.py:216-272 | The table-driven loops collect exactly the live workers whose policy agrees |
| `Availability.Live` | pilar2-distribuido/common/blockchain/availability.py:216-272 | One report per identifier: the last, in the place of the first |
| `Availability.ConvokedIsAcceptingOrPrevetoed` | pilar2-distribuido/common/blockchain/availability.py:78-150 | Deliberation convokes those who would mine and, besides, exactly those whose only objection is a veto of this law |
| `Availability.StandaloneCountedIffMines` | pilar2-distribuido/worker/worker_pkg/standalone_worker.py:96-120 | A standalone is counted exactly if its own handler would mine |
| `Availability.TeamCountedIffPoolMines` | pilar2-distribuido/worker/worker_pkg/pool_coordinator/coordinator.py:469-485 | A team with a stored policy is counted exactly if its pool would mine; with an unknown decision the count reads a refusal and the pool keeps its policy; without one the pool mines everything and the count goes by the agenda |
| `Availability.UnknownDecisionIsNotCounted` | pilar2-distribuido/worker/worker_pkg/pool_coordinator/coordinator.py:449-459 | A stored policy with an unknown decision that names nothing is never counted, while its pool goes on as before |
| `Availability.UncountedPoolMines` | pilar2-distribuido/worker/worker_pkg/pool_coordinator/coordinator.py:673-705 | A team with an agenda and no stored policy, that the quorum leaves out and whose pool mines |
| `Deliberation.Convocados` | pilar2-distribuido/common/blockchain/deliberation.py:126-175 | The loops list exactly the voters of the teams and of the lone miners, ordered |
| `Deliberation.Biggest` | pilar2-distribuido/common/blockchain/deliberation.py:178-180 | The largest power of the list, and one of it |
| `Deliberation.EffectiveDecisions` | pilar2-distribuido/common/blockchain/deliberation.py:200-212 | An answer counts before a default, and neither outside the voters |
| `Deliberation.AcceptingMoreIsMonotone` | pilar2-distribuido/common/blockchain/deliberation.py:215-235 | Turning one answer into accept never closes an open outcome, drops nobody and adds nobody else |
| `Deliberation.EarlyEndIsFinal` | pilar2-distribuido/common/blockchain/deliberation.py:238-247 | Once everybody has answered no default matters and the law is judged |
| `Deliberation.BiggestIsASearcher` | pilar2-distribuido/common/blockchain/deliberation.py:178-180 | The biggest voter never exceeds the effective power of the network |
| `Quorum.QuorumPowerIsConvokedPower` | pilar2-distribuido/common/blockchain/availability.py:216-272 | The workers the quorum counts and the voters deliberation convokes have the same total power |
| `Quorum.QuorumIffSomebodyDecides` | pilar2-distribuido/common/blockchain/availability.py:275-312 | A quorum of one exists exactly if somebody would be convoked |
| `Fragments.FragmentRange` | pilar2-distribuido/worker/worker_pkg/pool_coordinator/coordinator.py:65-75 | The loop yields the consecutive tiles of the range, and fails exactly for a size that is not positive |
| `Fragments.TilesCover` | pilar2-distribuido/worker/worker_pkg/pool_coordinator/coordinator.py:65-75 | Every number of the range is in a tile |
| `Fragments.TilesDisjoint` | pilar2-distribuido/worker/worker_pkg/pool_coordinator/coordinator.py:65-75 | Tiles do not overlap, and each begins where the last ended |
| `Pool.PoolCoordinator.RegisterMiner` | pilar2-distribuido/worker/worker_pkg/pool_coordinator/coordinator.py:257-269 | A new miner with a name no other has |
| `Pool.PoolCoordinator.HandleHeartbeat` | pilar2-distribuido/worker/worker_pkg/pool_coordinator/coordinator.py:271-276 | Refreshes a known miner and answers whether it is known |
| `Pool.PoolCoordinator.PurgeStaleMiners` | pilar2-distribuido/worker/worker_pkg/pool_coordinator/coordinator.py:283-302 | Drops silent miners and puts their fragments of live windows at the front of the queue |
| `Pool.PoolCoordinator.TakeFragment` | pilar2-distribuido/worker/worker_pkg/pool_coordinator/coordinator.py:338-362 | The first fragment still in time, dropping the expired ones before it |
| `Pool.PoolCoordinator.GetNextTask` | pilar2-distribuido/worker/worker_pkg/pool_coordinator/coordinator.py:304-330 | Hands a fragment to a registered miner, over the one it had |
| `Pool.PoolCoordinator.GetAutoMinerFragment` | pilar2-distribuido/worker/worker_pkg/pool_coordinator/coordinator.py:332-336 | A fragment for the coordinator's own miner, none while it waits |
| `Pool.PoolCoordinator.DiscardFragments` | pilar2-distribuido/worker/worker_pkg/pool_coordinator/coordinator.py:371-388 | Forgets the fragments of a window, queued and handed out |
| `Pool.PoolCoordinator.SubmitResult` | pilar2-distribuido/worker/worker_pkg/pool_coordinator/coordinator.py:390-418 | Publishes the first nonce of a window that is neither won nor closed, and discards its work |
| `Pool.PoolCoordinator.HandleWindowClosed` | pilar2-distribuido/worker/worker_pkg/pool_coordinator/coordinator.py:168-182 | Marks the window closed and discards its work |
| `Pool.PoolCoordinator.HandleChallenge` | pilar2-distribuido/worker/worker_pkg/pool_coordinator/coordinator.py:487-540 | Drops other windows and queues the tiles of an accepted challenge, or changes nothing |
| `Pool.PoolCoordinator.DropInactiveWindows` | pilar2-distribuido/worker/worker_pkg/pool_coordinator/coordinator.py:420-451 | Keeps only the work of the window the store calls active |
| `PoolRuns.FragmentsConserved` | pilar2-distribuido/worker/worker_pkg/pool_coordinator/coordinator.py:283-388 | From its challenge to its end or deadline, however miners come, go and fall silent, each tile of a window is in exactly one place: queued, with one miner, with the coordinator's miner, or swept |
| `PoolRuns.OneWindowOneNonce` | pilar2-distribuido/worker/worker_pkg/pool_coordinator/coordinator.py:371-540 | Over any run all work belongs to one window, neither won nor closed, and no window gets two nonces published |
| `PoolRuns.PoolScansEverything` | pilar2-distribuido/worker/worker_pkg/pool_coordinator/coordinator.py:283-388 | Over any life of a window, when nothing is queued, some fragment handed out or swept holds a nonce exactly if a linear scan of the whole space finds one |
| `PoolRuns.Sweep` | pilar2-distribuido/worker/worker_pkg/pool_coordinator/coordinator.py:542-563 | A miner brings back the first nonce of its fragment with its hash, or none if there is none |
| `NctLease.PunctualHolderStays` | pilar2-distribuido/common/storage/redis_store.py:616-672 | A holder that renews sooner than lifetime less threshold is never displaced, whoever tries, elects or renews |
| `NctLease.DisplacedIff` | pilar2-distribuido/common/storage/redis_store.py:625-658 | An election takes the lease of a live holder exactly if the answered lifetime is down to the threshold |
| `NctLease.OverlappingElections` | pilar2-distribuido/common/storage/redis_store.py:646-672 | However many elections overlapped with GET and SET apart, once every node that believes it leads has renewed, at most the holder of the key still leads |
| `NctLease.LeaderKey.TryAcquire` | pilar2-distribuido/common/storage/redis_store.py:616-623 | Takes the key exactly if nobody has it |
| `NctLease.LeaderKey.Elect` | pilar2-distribuido/common/storage/redis_store.py:625-658 | The three rules of the election |
| `NctLease.LeaderKey.Renew` | pilar2-distribuido/common/storage/redis_store.py:660-672 | Extends the key for its holder only |
| `NctLease.NCTNode.constructor` | pilar2-distribuido/nct-coordinator/main.py:55-135 | A node starts as leader exactly if it is primary and gets the key |
| `NctLease.NCTNode.MonitorTick` | pilar2-distribuido/nct-coordinator/nct/monitor.py:76-99 | A follower that heard nothing for the timeout runs, and leads, consumes and believes so exactly if it wins |
| `NctLease.NCTNode.MaybePublishHeartbeat` | pilar2-distribuido/nct-coordinator/nct/coordinator.py:1260-1278 | A leader that is due renews, and stops leading, consuming and believing exactly if the key is not its own |
| `NctLease.NCTNode.StepDown` | pilar2-distribuido/nct-coordinator/nct/coordinator.py:1231-1251 | The coordinator stops, its queues close and its monitor starts watching |
| `NctLease.NCTNode.HandleHeartbeat` | pilar2-distribuido/nct-coordinator/nct/monitor.py:60-63 | Remembers the instant and nothing else |
| `NctLease.NCTNode.NotifyStepdown` | pilar2-distribuido/nct-coordinator/nct/monitor.py:68-74 | The monitor watches from now on |
| `PoolLease.DecodeInvertsEncode` | pilar2-distribuido/worker/worker_pkg/pool_coordinator/election.py:70-90 | Decoding gives back rank and holder exactly for the known ranks, also when the holder contains the separator |
| `PoolLease.OneWinnerIff` | pilar2-distribuido/worker/worker_pkg/pool_coordinator/election.py:108-169 | At most one candidate wins an epoch in every run exactly if the claim lives at least as long as an epoch |
| `PoolLease.DesignatedStays` | pilar2-distribuido/worker/worker_pkg/pool_coordinator/coordinator.py:199-255 | No move of an elected coordinator changes the lease of a designated one |
| `PoolLease.ElectedNeverTakes` | pilar2-distribuido/worker/worker_pkg/pool_coordinator/coordinator.py:199-255 | Over any run, the lease of a designated coordinator is in no elected one's hands until it lapses or is released |
| `PoolLease.DesignatedDisplaces` | pilar2-distribuido/worker/worker_pkg/pool_coordinator/coordinator.py:228-237 | A designated coordinator takes its pool back from an elected one at its next renewal |
| `PoolLease.Leadership.RenewLeadership` | pilar2-distribuido/worker/worker_pkg/pool_coordinator/coordinator.py:214-255 | Renews a free, own or lower lease, and otherwise stops leading and waits |
| `PoolLease.Leadership.ReleaseLeadership` | pilar2-distribuido/worker/worker_pkg/pool_coordinator/coordinator.py:595-614 | Frees the lease only if it is its own |
| `PoolLease.Leadership.MaybeStartElection` | pilar2-distribuido/worker/worker_pkg/pool_coordinator/coordinator.py:643-671 | Runs exactly if no other of its rank or higher holds the lease, and otherwise waits |
| `PoolLease.Leadership.CollectElection` | pilar2-distribuido/worker/worker_pkg/pool_coordinator/coordinator.py:721-732 | A won election makes it lead and stop waiting |
| `Bully.OneLeader` | pilar2-distribuido/worker/worker_pkg/bully.py:94-146 | For any number of candidates and any invalid claims, whoever has processed a message that counts is the coordinator if it wrote the first, and otherwise a miner of who did |
| `Bully.PoolBully.HandleMessage` | pilar2-distribuido/worker/worker_pkg/bully.py:120-146 | Heartbeats and verified claims of others make a candidate a miner, its own claim makes it the coordinator |
| `Bully.PoolBully.SolvePow` | pilar2-distribuido/worker/worker_pkg/bully.py:158-187 | The claim it prepares verifies |
| `Bully.PoolBully.Tick` | pilar2-distribuido/worker/worker_pkg/bully.py:94-116 | A candidate publishes its claim or starts a search, a coordinator beats, a miner gives up on silence |
| `Bully.PoolBully.TransitionTo` | pilar2-distribuido/worker/worker_pkg/bully.py:201-220 | What each change of role does to the leader it follows |
| `Bully.PoolBully.BecomeMiner` | pilar2-distribuido/worker/worker_pkg/bully.py:326-329 | Follows the given leader |
| `Teams.TeamsAgree` | pilar2-distribuido/voxchain_api/services/teams_store.py:140-317 | After any operations, worker:team maps w to t exactly if t exists and w is its coordinator or a member, team:owner maps o to t exactly if t exists and o founded it, and no coordinator is a member of its team |
| `Teams.DissolvesExactly` | pilar2-distribuido/voxchain_api/services/teams_store.py:278-298 | Dissolving frees exactly the workers indexed to the team, and its founder |
| `Teams.RowsAreConsistent` | pilar2-distribuido/common/storage/redis_store.py:353-387 | The rows the coordinator reads from indexed records satisfy the hypothesis of the quorum theorem |
| `Teams.TeamsStore.TeamOf` | pilar2-distribuido/voxchain_api/services/teams_store.py:111-125 | The team somebody founded, dropping an index that points at none |
| `Teams.TeamsStore.CreateTeam` | pilar2-distribuido/voxchain_api/services/teams_store.py:140-194 | Refuses a second team or a worker that has one, and otherwise writes record and indexes |
| `Teams.TeamsStore.JoinTeam` | pilar2-distribuido/voxchain_api/services/teams_store.py:234-252 | Refuses an unknown team or a worker that has one, and otherwise writes set and index |
| `Teams.TeamsStore.LeaveTeam` | pilar2-distribuido/voxchain_api/services/teams_store.py:254-276 | Refuses the coordinator, and otherwise removes from set and index |
| `Teams.TeamsStore.DetachWorker` | pilar2-distribuido/voxchain_api/services/teams_store.py:300-317 | Removes a member and only reports a coordinator |
| `Teams.TeamsStore.DissolveTeam` | pilar2-distribuido/voxchain_api/services/teams_store.py:278-298 | Deletes the index of every worker of the team, its record, and the index of its founder |

## Left out

- NctFailover.FailoverIsInvisible: says nothing of a window over which a process was started as leader, because such a process does not hold it (`InvisibleIff`).
- NctSafety.FailoverSafety: assumes one leader at a time; for leaders that overlap only what `SplitBrain` states is claimed.
- SealRelease.CarefulIff: a window nobody can solve is doubled by nobody, so the exact condition is for worlds in which every recorded window has some nonce, and every challenge of one difficulty has one: a window of that difficulty is what moves the tip away where a successor would otherwise find the block.
- SealGuard.LapsesAreHarmless: clocks that drift apart are not modelled; all leaders and the time to live of Redis share one.
- HandlerMoves.ResumeIsMoves: a record that does not parse is given up after the guard is freed; the moves record only windows whose texts parse.
- SplitBrain.ChainSurvives: the writes of overlapping leaders other than reserving a number, saving a window, setting the pointer, the guard and the append are any writes that leave chain, guards, counter and what is recorded of a window alone, and clear the pointer or leave it.
- NctLease.PunctualHolderStays: how the TTL command rounds to seconds is a parameter with a bound on its error.
- NctLease.NCTNode.MonitorTick: the election is one step here; elections with GET and SET apart are `OverlappingElections`.
- NctLease.LeaderKey.Elect: GET and SET are one step, as in `MonitorTick`; `OverlappingElections` has them apart.
- PoolRuns.FragmentsConserved: assumes one delivery of the challenge of each window; a repeated one queues its tiles again. A fragment counts as swept once its miner got another.
- Bully.OneLeader: assumes one common order of broadcasts, subscriptions before the first message, and no leader timeout; reelection is not claimed to make progress.
- PoolLease.OneWinnerIff: looking at the epoch again and claiming it are one step.
- RedisStore.VoxChainStore.SetLawStatus: of a law without a record Redis would create one with this field alone, and here nothing changes. The invariants show that a lone leader only writes to records that exist.
- RedisStore.VoxChainStore.SetLawAction: the same.
- RedisStore.VoxChainStore.SetLawRequestedBy: the same.
- RedisStore.VoxChainStore.SetSilentDeliberations: the same.
- RedisStore.VoxChainStore.SetWindowResult: the same, of a window without a record.
- Availability.TeamCountedIffPoolMines: a stored text that is no JSON object is read as missing by the count and leaves the pool as it was; here it is missing for both.
- Miner.BruteForce: the search without an upper bound, the GPU miner, and a missing `n_zeros_required` in a challenge.
- Redelivered proposals, and promulgations that reuse a law id: `_enqueue_promulgacion` overwrites the record.
- Exceptions of Redis and of the measurements, and the fallbacks they lead to; a record that cannot be resumed is modelled, through `GiveBack`.
- The time to live of the seal guard is a step that may happen between handlers of a lone leader, and anywhere among many.
- The cache of the miner population: each evaluation reads the population it is given.
- Signatures, revocation and proposer standing: one boolean of a message each. The coordinator does not look at the participants of a window when a nonce arrives, and neither does the model.
- JSON, gzip and ISO texts of instants: uninterpreted.
- `set_coordinator_url` of a team that no longer exists, which leaves a record with nothing else in it.
- Threads inside a method: methods are atomic. The auto-miner thread of a pool is the two steps of taking a fragment and coming back.
- The wiring of a pool lease to the pool's HTTP server and to the bully's retreat, keepalives, metrics and health.
- The availability notice, `RedisReader.get_next_law`, `espacio_insuficiente`: presentation, or not what the coordinator decides by.
- RabbitMQ, HTTP servers, Kubernetes and Docker, the frontend, ECDSA and the other library cryptography.
