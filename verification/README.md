# SonicChain: concurrent block authoring and validation, verified

SonicChain executes the transactions of a block on several threads without locks around
transactions. A master tags every transaction with a worker. Workers execute against one shared
state in which the first thread to touch a key owns it. A transaction that runs into somebody
else's key is handed on at most once and otherwise becomes an orphan, which the master executes
at the end. A validator then replays the block concurrently and must come to the same state.

This project models the parts that make that work and proves that it does:

| files | what they hold |
|---|---|
| `Storage`, `Program`, `Transactions`, `Sums` | keys, values and stores; a call as a tree of storage accesses; transactions, tags, runs; sums |
| `TaintState`, `SharedState`, `TwoLooks` | the shared state: accesses in two looks under any interleaving, the state object, and authoring with such accesses |
| `Dispatch`, `Runtimes`, `RuntimeCalls`, `CacheRefinement` | the caching and the direct runtime, the calls as statements over either, and how the two relate |
| `Protocol`, `Bookkeeping`, `Sequences`, `Undisturbed`, `Books*` | authoring as a transition system and what every reachable state's queues, pools and counters satisfy |
| `Serializability`, `Authoring`, `AuthoringTheorems`, `Attempts`, `Progress` | what authoring promises over all schedules |
| `Validation`, `Determinism`, `ValidationProgress` | validation as a transition system, and its agreement with authoring |
| `StateEquality`, `Executor`, `RealTasks` | comparing final states, the executors, tasks that carry the real calls |
| `Balances`, `Staking`, `Calls`, `Effects`, `CallEffects`, `Accesses`, `Ledgers` | the eight calls, what each does and touches, access lists and invariants |
| `Traversal`, `Components`, `Distribution`, `Scheduling`, `Refinement`, `DistributedRuns` | the connected-components distributer, how evenly it spreads, and what runs of its pools are |
| `Pool`, `Threads`, `WorkerRuns`, `MasterRuns` | the pool vector, the master's and a worker's own loops, and these loops in the transition systems |

Concurrency is a state machine over single steps (one message, one storage access, one committed
key). A schedule is any sequence of labels, and a label that is not enabled does nothing, so the
theorems hold for every interleaving; a missed `try_recv` is such a label. Transactions forwarded
to a worker may be taken from its queue in any order, which includes every order in which senders
can deliver them.

What a task needs, and the theorems assume: transaction ids are unique; every transaction is
tagged with a worker that exists; initial taints, if any, are worker ids; the orphan pool and the
queues are empty when a task begins. What the transactions need (`TaskSafe`) is a store invariant
from which none of them panics and which each re-establishes, and that a call neither fails with a
logic error after its first write nor expects to own a key it has not accessed. `Calls` and
`Ledgers` show that the balances and staking calls have all this.

States are compared as the code compares them and also "absent key = default value": authoring
leaves an entry for every key it has claimed, even one it only read, while validation does not.
`state_eq` sees that difference, so `author_and_validate` can say false of a correct run: a transfer
by an account without an entry is enough (`RealTasks.AbsentTransferFails`).
`StateEquality.ComparesExactly` says exactly when it does.

One property the calls do not have is stated with its exact condition. `bond` and `set_controller`
accept the default account as the controller of another account. Such a ledger becomes the default
one when it is emptied, while its controller stays bound, and `validate`, `nominate` and `chill`
then reach their "Ledger must exist" panic. `Ledgers.PanicExactly` says that from a sound store a
call opens the way to this exactly if it succeeds in naming the default account, and
`Ledgers.PanicReached` shows the shortest way.

Where the code and its comments differ the code is followed: an existing entry without an owner is
claimed on access although the comment on `read` and `write` speaks of existing keys as owned or
refused, and an authoring report has two counts although its comment names three.

## Model

| member | source | states |
|---|---|---|
| TaintState.ClaimsExactly | state/src/lib.rs:259-376 | an atomic access is granted exactly to the key's owner or to whoever comes first, who then owns it, and is otherwise told the owner; no other key's entry changes |
| TaintState.TakeStep | state/src/lib.rs:259-376 | one turn of any thread, a first look, a second look or an owner storing a value, is one atomic own-it-claim-it-or-learn-the-owner access or no visible change; never a panic; owners are kept |
| TaintState.TurnsAreFree | state/src/lib.rs:259-376 | any thread may begin, finish or store whatever the others are in the middle of |
| TaintState.TwoLooksLinearizable | state/src/lib.rs:259-376 | over every schedule of any number of threads each access linearizes to the atomic one at some instant, no `panic!` or `expect` branch is reached, and a key never changes hands |
| TwoLooks.TwoLooksSimulated | state/src/lib.rs:259-376 | authoring with every access in two looks, any thread acting in between, is at every point where some schedule of the transition system with atomic accesses brings it |
| TwoLooks.TwoLooksSerializable | executor/src/concurrent/mod.rs:101-128 | so its finished runs too leave the values of executing the produced block one by one |
| TwoLooks.FirstLookWaits | state/src/lib.rs:259-376 | an uncached key without an owner really takes two looks: the first leaves everything as it was |
| TwoLooks.AtomicRealized | state/src/lib.rs:259-376 | conversely every schedule with atomic accesses is one with two looks |
| SharedState.State.Read | state/src/lib.rs:259-318 | undisturbed, `read` is the atomic claim: value and claimed key, or the owner and no change; no value changes |
| SharedState.State.Write | state/src/lib.rs:320-376 | undisturbed, `write` is the atomic claim with the new value, or the owner and no change |
| SharedState.State.UnsafeInsertGenesisValue | state/src/lib.rs:198-205 | the value is stored and the taint wiped |
| Dispatch.AdvanceCoherent | runtime/src/lib.rs:198-275 | one access of a dispatch in flight claims only free keys, changes nobody else's values, does not panic, and what is left to do still amounts to the whole call on the worker's view |
| Dispatch.CommitCoherent | runtime/src/lib.rs:226-232 | storing one cached value leaves the dispatch meaning what it meant, and acts on the worker's own keys only |
| Dispatch.OthersKeepCoherent | runtime/src/lib.rs:247-275 | whatever another thread does to the state leaves a dispatch in flight undisturbed |
| Runtimes.ConcurrentRuntime.Read | runtime/src/lib.rs:247-254 | a cached key is answered from the cache without touching the state; any other access claims the key or returns its owner |
| Runtimes.ConcurrentRuntime.Write | runtime/src/lib.rs:256-264 | a granted write changes the cache only; a refused one changes nothing |
| Runtimes.ConcurrentRuntime.CommitCache | runtime/src/lib.rs:226-232 | all cached values end up in the state under the runtime's id whatever the order of storing, every stored key was already its own, and no key changes owner |
| Runtimes.SequentialRuntime.Write | runtime/src/lib.rs:326-329 | writes at once, never refused |
| RuntimeCalls.CacheOwned | runtime/src/lib.rs:226-275 | during any call on the concurrent runtime the state's values stay as they are and every cached key is owned |
| RuntimeCalls.DispatchConcurrent | runtime/src/lib.rs:198-223 | starts and ends with an empty cache; the cache reaches the state exactly if the call ended well |
| RuntimeCalls.DispatchSequential | runtime/src/lib.rs:304-307 | runs the call straight on the state |
| RuntimeCalls.TransferBy | runtime/src/balances.rs:92-111 | the statements of `transfer` perform exactly the accesses, failures and panics of the call's access tree, on either runtime |
| RuntimeCalls.BondBy | runtime/src/staking.rs:42-61 | the same for `bond` |
| RuntimeCalls.BondExtraBy | runtime/src/staking.rs:67-82 | the same for `bond_extra` |
| RuntimeCalls.UnbondBy | runtime/src/staking.rs:88-110 | the same for `unbond` |
| RuntimeCalls.SetControllerBy | runtime/src/staking.rs:117-139 | the same for `set_controller` |
| RuntimeCalls.ChangeRoleBy | runtime/src/staking.rs:145-213 | the same for `validate`, `nominate` and `chill`, which differ in the role they set and in what they do to the nominations |
| CacheRefinement.PerformFollows | runtime/src/lib.rs:198-275 | access by access the cached run sees the values the direct run has in its state |
| CacheRefinement.CachedRefinesDirect | runtime/src/lib.rs:198-223 | for every call, origin and state: a dispatch that is not tainted has the outcome and leaves the values of the sequential dispatch; one that is tainted or ends in a logic error changes no value; the cache ends empty |
| CacheRefinement.DirectIsExec | runtime/src/lib.rs:315-337 | the sequential runtime never reports a taint and executes the call on the plain values |
| CacheRefinement.StagesAreTheRuntime | runtime/src/lib.rs:198-223 | the protocol's dispatch, stage by stage and undisturbed, does what the runtime object does |
| Balances.Reserve | runtime/src/balances.rs:52-60 | reserving keeps the account's total, fails exactly when too little is free, and does not overflow a total that fits |
| Balances.Unreserve | runtime/src/balances.rs:62-70 | unreserving keeps the account's total, fails exactly when too little is reserved, and does not overflow a total that fits |
| Balances.ReserveUndone | runtime/src/balances.rs:52-70 | each undoes the other |
| Calls.EveryCallDisciplined | runtime/src/lib.rs:32-49 | no call returns a logic error after its first write, and every access with "must be owned" is to a key accessed before |
| Effects.TransferEffect | runtime/src/balances.rs:85-112 | outcome, resulting store and accessed keys of a transfer from any store, self-transfers included |
| Effects.BondEffect | runtime/src/staking.rs:37-61 | the same for `bond` |
| Effects.BondExtraEffect | runtime/src/staking.rs:63-82 | the same for `bond_extra` |
| Effects.UnbondEffect | runtime/src/staking.rs:84-110 | the same for `unbond` |
| Effects.SetControllerEffect | runtime/src/staking.rs:113-139 | outcome and resulting store of `set_controller` |
| Effects.RoleEffect | runtime/src/staking.rs:142-213 | outcome and resulting store of `validate`, `nominate` and `chill` |
| CallEffects.TransferDoes | runtime/src/balances.rs:92-111 | a dispatched transfer: when it fails and why, what both balances are afterwards, self-transfers included, and that nothing else changes |
| CallEffects.BondDoes | runtime/src/staking.rs:42-61 | a dispatched bond: refusals, the amount set aside, the binding, the new ledger with role Chilled, nothing else |
| CallEffects.BondExtraDoes | runtime/src/staking.rs:67-82 | a dispatched bond_extra: refusals, amount moved from free to reserved and onto the ledger, nothing else |
| CallEffects.UnbondDoes | runtime/src/staking.rs:88-110 | a dispatched unbond: refusals, amount off the ledger and back to free, nothing else |
| CallEffects.SetControllerDoes | runtime/src/staking.rs:117-139 | a dispatched set_controller: the binding so far cleared, the new one made, the ledger naming it, nothing else |
| CallEffects.ValidateDoes | runtime/src/staking.rs:145-161 | a dispatched validate: the role of the stash the origin controls becomes Validator, and only its ledger changes |
| CallEffects.NominateDoes | runtime/src/staking.rs:167-186 | a dispatched nominate: role Nominator and exactly the given targets |
| CallEffects.ChillDoes | runtime/src/staking.rs:192-213 | a dispatched chill: role Chilled, and the nominations cleared exactly if there were any to clear |
| CallEffects.AccessListsAre | runtime/src/staking.rs:37-213 | the keys each of the eight calls declares, no more and no fewer |
| Effects.AccessListsExact | runtime/src/staking.rs:37-213 | exactly `transfer`, `bond`, `bond_extra` and `unbond` stay within their declared access list in every state |
| Accesses.TransferTouches | runtime/src/balances.rs:92-111 | the accesses of a transfer, in order and up to where it ends |
| Accesses.BondTouches | runtime/src/staking.rs:42-61 | the same for `bond` |
| Accesses.BondExtraTouches | runtime/src/staking.rs:67-82 | the same for `bond_extra` |
| Accesses.UnbondTouches | runtime/src/staking.rs:88-110 | the same for `unbond` |
| Accesses.SetControllerTouches | runtime/src/staking.rs:117-139 | the same for `set_controller` |
| Accesses.RoleTouches | runtime/src/staking.rs:145-213 | the same for the three role calls |
| Accesses.ClashSaysIfTouched | runtime/src/lib.rs:32-49 | a call that is refused an access is handed on exactly if it has touched nothing before and an orphan otherwise, for every call, runtime and state; the one exception, the second access of `set_controller`, is part of the statement |
| Ledgers.Conserved | runtime/src/balances.rs:92-111 | from any store at all, no call that does not panic changes the sum of free and reserved over all accounts |
| Ledgers.Keeps | runtime/src/staking.rs:42-213 | from any store in which reserved equals bonded and all balances fit, a call panics exactly if it changes the role of a stash without a ledger; reserved stays equal to bonded, and every bound controller stays bound to an existing ledger unless a default controller is named |
| Ledgers.SoundExactly | runtime/src/staking.rs:42-213 | a call keeps soundness from every sound store without panicking if and only if it does not make the default account the controller of another account |
| Ledgers.PanicExactly | runtime/src/staking.rs:42-213 | from any sound store, some later calls that name no default controller themselves end in a panic if and only if this call succeeded in naming one; chilling, unbonding everything and any role change are such calls |
| Ledgers.PanicReached | runtime/src/staking.rs:145-154 | for every stash, a bond of nothing to the default account followed by that account's `validate` panics |
| Ledgers.ControllerTakenOver | runtime/src/staking.rs:53-58 | from a sound store a second stash that has not bonded succeeds in taking over a controller, with any amount it can afford; the first keeps its ledger, which still names the controller, and loses the binding |
| Ledgers.RunCallsSolvent | runtime/src/staking.rs:42-110 | over every sequence of calls whatever, and whoever signs them: reserved equal to bonded, total issuance constant and within 128 bits at every point; nothing overflows, `unreserve` never fails, and the one panic left is a role change without a ledger |
| Ledgers.RunCallsSound | runtime/src/staking.rs:117-213 | over every sequence that names no default controller: no panic at any point, every bound controller bound to an existing ledger throughout |
| Protocol.ExecState | executor/src/concurrent/master.rs:349-375 | the master's execution of an orphan is straight execution on the values |
| WorkerRuns.OrphanIsTheRuntime | runtime/src/lib.rs:315-337 | and it is the sequential runtime's dispatch, down to the taints it wipes |
| WorkerRuns.ReplayIsTheRuntime | executor/src/concurrent/worker.rs:134-193 | each step of a validating worker is the sequential runtime's next access |
| WorkerRuns.DistributesAsChecked | executor/src/concurrent/master.rs:165-184 | validation as a transition system panics over a block's tags exactly if the master's loop does |
| BooksKept.BreakQuiet | executor/src/concurrent/master.rs:288-304 | when the counters add up, nothing is in a queue or in hand |
| BooksSettle.SettleForwardBooks | executor/src/concurrent/worker.rs:316-323 | handing a transaction to another worker keeps every queue, pool, counter and report consistent |
| BooksHear.MasterReceiveBooks | executor/src/concurrent/master.rs:245-286 | hearing any message keeps them consistent, and no `expect`, `assert_ne!` or `panic!` fires |
| Serializability.RunByWorker | executor/src/concurrent/master.rs:274-283 | if each worker's transactions stay on keys of its own, running all in one order gives each worker's keys what its transactions alone give them |
| Serializability.OrderPreserved | executor/src/concurrent/master.rs:259-283 | after the collection the pool's transactions of a worker are those it executed, in that order |
| Authoring.CollectedData | executor/src/concurrent/master.rs:291-304 | after the collection the state is what the pool in its final order gives |
| Authoring.StepInv | executor/src/concurrent/worker.rs:196-336 | every step of every thread keeps the whole invariant of authoring, panics excluded |
| Authoring.ReachableInv | executor/src/concurrent/master.rs:131-151 | every state of every schedule satisfies it |
| AuthoringTheorems.NothingLost | executor/src/concurrent/master.rs:245-295 | at every point of every run pool and orphans together are a permutation of what was submitted, ids unique, and no panic site has been reached |
| AuthoringTheorems.Quiescence | executor/src/concurrent/master.rs:291-304 | whenever the loop may break: all queues empty, nobody busy, the three counters add up to the submitted number, and only the farewell and the orphans can follow |
| AuthoringTheorems.OrphanPhaseAlone | executor/src/concurrent/master.rs:349-375 | after the break only the master changes the state |
| AuthoringTheorems.OrderIsPreserved | executor/src/concurrent/master.rs:259-283 | after the break of any run, per worker, pool order is execution order |
| AuthoringTheorems.Serializable | executor/src/concurrent/mod.rs:101-128 | whatever the interleaving, the final values are those of executing the produced block one by one |
| AuthoringTheorems.ExactlyOnce | executor/src/concurrent/worker.rs:283-336 | every submitted transaction has been executed exactly once, by a worker or by the master, and no other |
| Attempts.AttemptsBounded | executor/src/concurrent/worker.rs:283-336 | at most one hand-over, two worker attempts and one master attempt per transaction in every run; after the break exactly one attempt more than hand-overs |
| Attempts.OwnershipKept | state/src/lib.rs:259-376 | a key's owner, once set, stays for the rest of the concurrent phase, however the run goes on |
| Attempts.CachedKeysOwned | runtime/src/lib.rs:226-275 | at every point what a worker has cached or has still to commit is on keys it owns, and its next access meets no "must be owned" failure |
| Progress.StepDecreases | executor/src/concurrent/worker.rs:196-336 | every step taken strictly lowers a measure of the work left |
| Progress.StepsBounded | executor/src/concurrent/worker.rs:196-336 | whatever the schedule, at most `TaskCost` steps are ever taken, linear in the accesses of the transactions and in the workers |
| Progress.WaitFree | executor/src/concurrent/worker.rs:196-336 | no worker waits for another: whatever the others are doing, one with a transaction in hand can go on with it and one without can take what is in its queues, the forwarded ones in any order |
| Progress.NeverStuck | executor/src/concurrent/master.rs:233-305 | until the master returns some step is enabled |
| Progress.CanFinish | executor/src/concurrent/master.rs:131-151 | every run, however far it has got, can be completed in no more steps than the work left |
| Determinism.EventInv | executor/src/concurrent/worker.rs:134-193 | every step of validation keeps each worker on course to what its transactions alone give |
| Determinism.ValidationConfluent | executor/src/concurrent/master.rs:159-214 | every interleaving of validation leaves exactly the entries and values of the workers' part of the block, then the orphans, one by one, and none panics |
| Determinism.AuthoredConfined | executor/src/concurrent/master.rs:131-151 | what the workers did in any authoring run each can do again on keys of its own |
| Determinism.Deterministic | executor/src/concurrent/master.rs:131-214 | any interleaving of authoring and any interleaving of validating its block, from the same values, end with the same value for every key |
| ValidationProgress.ReplayWaitFree | executor/src/concurrent/worker.rs:134-193 | a validating worker can always go on, whatever the others are doing |
| ValidationProgress.EventDecreases | executor/src/concurrent/worker.rs:134-193 | every step of validation lowers the work left |
| ValidationProgress.CanValidate | executor/src/concurrent/master.rs:186-213 | every validation can be completed in no more steps than the work left |
| StateEquality.StateEqExact | state/src/lib.rs:41-47 | one-sided containment and equal key count are exactly equality of the maps, taints aside |
| StateEquality.StateEqEquivalence | state/src/lib.rs:41-47 | hence an equivalence |
| StateEquality.ComparesEqual | executor/src/lib.rs:60-80 | a run and the validation of its block compare equal if and only if authoring left entries for the keys the block leaves entries for, and no others |
| StateEquality.ReachableEntries | state/src/lib.rs:259-376 | at every point of every run the state has an entry for exactly the initial keys and those the workers have accessed, denied accesses included, and after the break also those the orphans wrote |
| StateEquality.ComparesExactly | executor/src/lib.rs:60-80 | a run and the validation of its block compare equal if and only if the block leaves an entry for every key a worker accessed on that run, in whichever attempt |
| StateEquality.PresentComparesEqual | executor/src/lib.rs:47-81 | so they do on every run in which each key the workers' attempts access is present from the start; what the master's attempts at orphans access makes no difference |
| StateEquality.PreparedComparesEqual | executor/src/lib.rs:47-81 | so they do on every run of a task from whose transactions alone it is clear that each key any attempt can access is present from the start |
| StateEquality.UnwrittenKeyFails | executor/src/lib.rs:76-80 | they do not on any run in which a worker's transaction accesses a key for which the block leaves no entry |
| Executor.ConcurrentExecutor.ApplyState | executor/src/concurrent/mod.rs:146-150 | every given entry replaces what was there |
| Executor.SubmittedIsSafe | executor/src/types.rs:60-63 | unique, new, disciplined and safe transactions make a valid and safe task under any distributer that only tags, with the same bodies in the same order |
| Executor.ConcurrentExecutor.AuthorBlock | executor/src/concurrent/mod.rs:101-128 | the block of a complete run is a permutation of what was in the pool and submitted, the pool as it ends up and then the orphans, and the dump has the values of executing the block one by one from the state before |
| Executor.ConcurrentExecutor.ValidateBlock | executor/src/concurrent/mod.rs:136-144 | the dump of a complete validation is exactly what the workers' part of the block and then the orphans give one by one; for a block that authoring produced from the same values it has the authored values |
| Executor.ConcurrentExecutor.AuthorAndValidate | executor/src/lib.rs:47-81 | true exactly if both dumps have the same entries; from a clean executor the block is a permutation of the submitted transactions, and the answer true exactly if it leaves an entry for each key the workers accessed on the run, so whenever those keys were in the given state; the executor is clean afterwards |
| Executor.SequentialExecutor.ApplyTransaction | executor/src/sequential/mod.rs:25-42 | outcomes and final values of the transactions one by one, up to a panic; none from sound ledgers |
| RealTasks.CallsAreSafe | runtime/src/lib.rs:141-146 | tasks of balances and staking calls over sound ledgers have all the authoring theorems need |
| RealTasks.DeclaredArePrepared | runtime/src/balances.rs:86-91 | with everything that `transfer`, `bond`, `bond_extra` and `unbond` declare in the initial state, no attempt touches a new key |
| RealTasks.AbsentTransferDiffers | executor/src/lib.rs:76-80 | a task of one transfer by an account the state has no entry for: the comparison fails on every run and every validation |
| RealTasks.AbsentTransferFails | executor/src/lib.rs:76-80 | and such a run exists: one worker, an empty state, any origin, destination and value but 0 |
| RealTasks.AuthoringConserves | executor/src/concurrent/master.rs:131-151 | authoring such tasks, whatever the interleaving, keeps total issuance and ends with sound ledgers |
| Traversal.Graph.Visit | executor/src/concurrent/tx_distribution.rs:97-105 | marks a node unless it has a mark, and says which |
| Traversal.Graph.Traverse | executor/src/concurrent/tx_distribution.rs:107-145 | terminates although nodes are queued repeatedly; returns exactly the unmarked transactions reachable through unmarked nodes, each once, and marks exactly what is reachable |
| Traversal.Graph.Shrinks | executor/src/concurrent/tx_distribution.rs:111-142 | why it terminates: a turn marks a node, or brings the first unmarked node of the queue nearer |
| Components.BuildGraph | executor/src/concurrent/tx_distribution.rs:209-236 | one node per declared key, linked both ways with exactly the transactions that declare it |
| Components.ReachedIsConnected | executor/src/concurrent/tx_distribution.rs:107-145 | once earlier traversals are complete, reaching is being connected through shared declared keys |
| Components.MarkedReachesNothing | executor/src/concurrent/tx_distribution.rs:107-145 | from a start that is already marked nothing is found |
| Components.FindComponents | executor/src/concurrent/tx_distribution.rs:238-249 | the components are exactly the classes of the transitive closure of sharing a declared key, each transaction in exactly one |
| Components.ApartExactly | executor/src/concurrent/tx_distribution.rs:209-249 | two transactions are not connected exactly when some set of transactions contains one of them, not the other, and shares no declared key with those outside |
| Components.TogetherExactly | executor/src/concurrent/tx_distribution.rs:238-249 | two transactions are in one component exactly when they are connected |
| Distribution.AssignComponents | executor/src/concurrent/tx_distribution.rs:251-282 | the loop gives the last largest component to the first least loaded worker until none is left |
| Distribution.GreedyPlaces | executor/src/concurrent/tx_distribution.rs:256-292 | every component ends up whole with one worker, nothing twice |
| Distribution.TagAll | executor/src/concurrent/tx_distribution.rs:303-316 | every transaction is tagged for the worker in whose bucket it is, found by id |
| Distribution.Distribute | executor/src/concurrent/tx_distribution.rs:203-322 | same pool, same order, every entry tagged for a given worker, connected transactions alike |
| Distribution.RoundRobin | executor/src/concurrent/tx_distribution.rs:349-360 | same pool, same order, workers in turn |
| Scheduling.LargestFirstBound | executor/src/concurrent/tx_distribution.rs:256-282 | largest first to the least loaded of m workers: every load at most 4/3 - 1/(3m) times the largest load of any other assignment |
| Scheduling.BigJobsFit | executor/src/concurrent/tx_distribution.rs:256-282 | when three jobs of the last one's size exceed the best load, the last job still fits within it |
| Scheduling.GreedyBound | executor/src/concurrent/tx_distribution.rs:256-282 | the loop's loads: within 4/3 - 1/(3m) and 2 - 1/m of every assignment of whole components, and no two further apart than the largest component |
| Scheduling.DistributionBound | executor/src/concurrent/tx_distribution.rs:203-322 | the same in numbers of tagged transactions |
| Refinement.NeverTainted | executor/src/concurrent/worker.rs:308-323 | with transactions that share a declared key on one worker, no dispatch ever meets a taint |
| Refinement.SeparatedIsSequential | executor/src/concurrent/tx_distribution.rs:203-322 | then nothing is forwarded or orphaned on any schedule, the block is the pool as submitted, and the final values are those of submission order |
| Refinement.FinalEntries | state/src/lib.rs:308-312 | the final state has an entry for exactly the initial keys and those accessed in submission order |
| Refinement.SeparatedComparesExactly | executor/src/lib.rs:76-80 | then authoring and validation compare equal if and only if every accessed key has an entry after executing the pool in submission order |
| DistributedRuns.ComponentsRunSequentially | executor/src/concurrent/tx_distribution.rs:203-322 | so it is for every pool distributed by connected components, from an untainted state, with calls that keep to their access lists |
| DistributedRuns.ComponentsCompareExactly | executor/src/lib.rs:47-81 | and the exact condition for the comparison carries over |
| Pool.VecPool.Get | executor/src/pool.rs:183-185 | the first match, or none anywhere |
| Pool.VecPool.Remove | executor/src/pool.rs:31-38 | takes out the first match and keeps the order of the others |
| Pool.VecPool.RemoveAt | executor/src/pool.rs:163-165 | takes out that element and nothing else |
| Pool.VecPool.PushBatch | executor/src/pool.rs:152-154 | appends all, in order |
| Pool.VecPool.Insert | executor/src/pool.rs:156-161 | removing it again restores the pool |
| Threads.MasterThread.ConcurrentPhase | executor/src/concurrent/master.rs:316-344 | each worker's queue gets exactly its transactions in pool order, then the end of the distribution |
| Threads.MasterThread.Hear | executor/src/concurrent/master.rs:245-286 | one message changes pool, orphans and counters as the protocol's master step does, and panics exactly where that does |
| Threads.HeardIsTheStep | executor/src/concurrent/master.rs:245-286 | which is the master's side of the transition system |
| Threads.MasterThread.CollectionPhase | executor/src/concurrent/master.rs:225-306 | hears messages in order of arrival, and ends where all workers have reported and the forwarded are accounted for by local executions and orphans, at the first such point and nowhere else |
| Threads.MayBreakIsTheStep | executor/src/concurrent/master.rs:288-304 | this is the condition under which the transition system may break |
| MasterRuns.HeardAlongTheRun | executor/src/concurrent/master.rs:245-286 | hearing the messages of any run one by one gives the pools and counters the run has given the master |
| MasterRuns.CountersAddUpExactly | executor/src/concurrent/master.rs:288-304 | on the messages of any run the counters add up if and only if all queues are empty and all workers idle; then every transaction has been heard of |
| Threads.MasterThread.DistributeBlock | executor/src/concurrent/master.rs:165-184 | each worker gets its part of the block in block order, the orphans are kept in order, and anything else panics |
| Threads.MasterThread.ExecuteOrphanPool | executor/src/concurrent/master.rs:349-375 | leaves the values of executing the orphans one by one |
| Threads.WorkerThread.ExecuteOrForward | executor/src/concurrent/worker.rs:283-336 | what is told to the master and handed to whom, by result of the dispatch, status and corruption |
| Threads.SettlingSends | executor/src/concurrent/worker.rs:308-333 | the protocol's settling step sends exactly that |
| Threads.WorkerThread.DepleteMasterQueue | executor/src/concurrent/worker.rs:223-261 | every assigned transaction counted once, and the report sent last with the two counts |
| WorkerRuns.DepletingIsARun | executor/src/concurrent/worker.rs:223-261 | what the loop does is a run of the transition system in which only this worker moves: same state, messages to the master, hand-overs and counts |
| Threads.WorkerThread.RunValidate | executor/src/concurrent/worker.rs:134-193 | leaves the values of executing the assigned transactions one by one |

## Left out

- Thread spawning, parking, joining, `Terminate`, and the messages that only set a task up.
- Failing sends: channels are sequences that always accept. Only the transition system interleaves; worker ids are 0, 1, ... in order.
- Signatures: the pool accepts valid transactions only.
- Encoding of keys and values: keys are a storage map and an account, values are typed, and a value of another map's type reads as the default.
- Logging, delays, durations, and the counting of outcomes for the log.
- `Master::run_validate`, which computes buckets and discards them; `unsafe_taint`, `unsafe_duplicate` and the test-only runs.
- Arithmetic beyond 128 bits is a panic, as in a build with overflow checks; wrapping in a build without them is not modelled. The ledger theorems show that neither happens.
- A call's access tree has a bound on its depth, which counts as a panic when exceeded; the eight calls stay within theirs.
- Reference-counted graph nodes are numbers, and their marks an array: aliasing of nodes is by number.
- Unwinding: a panic is a flag or a result, after which nothing is said.
- `run_author` of a worker after its report is in the transition system only (`Protocol.Apply`), not a loop of `Threads`.
- Executor.ConcurrentExecutor.AuthorBlock: the threads' interleaving is a parameter, a schedule that completes the task; that one exists from every point on is Progress.CanFinish.
- Executor.ConcurrentExecutor.ValidateBlock: likewise for the events of a validation, with ValidationProgress.CanValidate.
- StateEquality.PreparedComparesEqual: one direction; the exact condition, about the run, is StateEquality.ComparesExactly.
- Threads.MasterThread.CollectionPhase: the messages arrive as a given sequence; that on those of a run it ends exactly when nothing is left is MasterRuns.CountersAddUpExactly.
- Threads.WorkerThread.DepleteMasterQueue: says what happens with no other thread in between, which WorkerRuns.DepletingIsARun shows to be one of the schedules; the others are the subject of Authoring.StepInv.
- Threads.WorkerThread.RunValidate: likewise, with Determinism.EventInv.
- The wrappers of the sequential executor around `apply_transaction`.
