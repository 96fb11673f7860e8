# The execution graph: scheduler, plan compiler, growth and budget

JEV runs the work of a task as a graph of nodes. Workers claim nodes under leases,
report how the work went, and the graph propagates readiness, retries, skips,
timeouts and cancellation. A flat plan is compiled into such a graph; a loop of
model phases (plan, implement, execute, review, verify, repair) grows it cycle by
cycle; and every node spends from its agent's budget through reservations. This
project models those four parts and proves what they promise over all inputs and
all runs.

How it is organised:

- **Graphs and shape**: `Dag`, `GraphShape` (Kahn's algorithm, the shape check, the
  topological order), `Nodes`, `Readiness` (propagation as a fixpoint).
- **Scheduler on values**: `Scheduler` (one graph, every operation as a `Move`),
  `Invariants`, `GraphRuns`, `StatusRules` (what the statuses say), `Requests` (what a
  stored node takes over from the request for it, and which requests are accepted),
  `Deadlock`, `StuckRun` and `StuckGraph` (when a graph can get stuck, a run that does, and
  what comes of it), `Attempts`, `Drain`, `Frontier`, `Completions`; `Store` (all graphs,
  every exported operation that writes as an `Op`, one transaction each, and what its
  caller is told), `Fencing`, `Activity`, and `Answers` (each operation from its caller's side).
- **Scheduler on objects**: `Rows`, `GraphTable`, `StoreRows`, `JevStore`, `Executor`:
  classes whose fields are updated in place, one method per operation, each proved to
  make exactly the step the value level specifies. `StoreSteps` connects the two.
  `Worker` puts the store and the ledger together: claim, hold, work, settle, report;
  `NodeRuns` says what one run of a node comes to.
- **Plans**: `Planner` (the compiler), `Paths`, `Workspaces` (what a write does, and when
  two of them commute), `Commuting`, `PlanMeaning`, `PlanKinds` and `StepEffects` (what waits
  for what, and what each step does, by the kinds in the plan), `Overlays`, `Stretches`,
  `Traces` and `PlanTraces` (exactly which plans compiling preserves), `PlanRuns`, and
  `Engine`, the sequential reference.
- **Growth**: `ModelKeys`, `ModelGraph` (what the next action is), `ModelShape`,
  `ModelWires`, `ModelGrowth`, `ModelAccept`, `ModelLoop`, `ModelRuns`, `ModelBounds`,
  `ModelIdle`, `ModelVerdicts` (exactly what is decided and asked for), `Replan`, and
  `ModelDriver`, the driver itself.
- **Budget**: `Books` (the ledger), `Billing` (a node's hold and settlement),
  `BillingOutcomes` (exactly what is granted and refused), `BillingStore` (the same on tables updated in place), and `Holdings`, the store and the
  ledger together over whole runs.

`Sound` and `Structured` say that stored graphs are well shaped and acyclic with
increasing positions; every operation keeps them. A graph is `Quiet` when its nodes are
at a readiness fixpoint and the stored status is the derived one; every operation keeps
that too, except retrying a node its dependencies doom. `Live` adds that counters are in
range and that what ran had its dependencies settled. A `History` remembers whether a
graph was ever cancelled or reopened; a run is fair when no node is reopened after its
graph was cancelled, and a fair run keeps a graph `Live` and never retries a doomed node.
These premises can be met: `Invariants.Initial` is the graph creation stores, and it is
`Live`; `ModelBounds.StartIsCreatable` and `Activity.FromEmptyStore` start from concrete
states. Timestamps are integers the caller supplies, and nothing is assumed about
them. Money is in integer minor units. The model's answers, the work inside a node,
the verifier's record and the tenant's hourly ceiling are arbitrary inputs.

## What the code does where its comments say more

- A retry does not propagate (src/jev.js:468-472). Retrying a node whose dependencies
  doom it leaves it ready although no one may claim it. The next operation that propagates
  skips it, if it is still doomed then (`Deadlock.NextPropagationSkips`); until one does, it
  stays as it is (`Deadlock.NoPropagationNoSkip`). Without such a retry no run can get stuck
  (`Deadlock.NoReachableDeadlock`), and with one the graph is stuck exactly when nothing
  else runs or can be claimed (`Deadlock.RetryDeadlocksIff`). It takes a node reopened after
  its graph was cancelled (`Deadlock.LiveNeverRetriesDoomed`);
  `StuckRun.ACancelledGraphCanGetStuck` runs a graph of four nodes into it. A drain of that
  graph claims nothing and leaves work over (`StuckGraph.DrainLeavesWork`), and one of its
  nodes ran and is skipped (`StuckGraph.RanAndIsSkipped`).
- Expansion propagates over the whole union, so the promise never to modify an existing
  node (src/jev.js:201-203) is kept exactly when the graph was at a readiness fixpoint
  (`GraphRuns.ExpandKeepsExisting`), which it is unless a doomed node was retried
  (`Deadlock.ExpansionAfterRun`). The stuck graph can be expanded, and a ready node of it is
  skipped then (`StuckGraph.ExpansionCanRewrite`).
- Cancelling a graph releases no reservation, a cancelled node never changes again, and
  sweeps look at running nodes only (src/jev.js:602-739, `Fencing.CancelledIsForGood`). So
  what is held for a cancelled node is settled by its own worker or, if that has stopped,
  by nobody (`Holdings.CancelStrands`, `Holdings.NobodyGivesBack`).
- Reopening a node revives only the nodes skipped directly because of it
  (src/jev.js:565-572, `GraphRuns.ReopenRevivesOnlyItsOwn`); nodes skipped further down
  stay skipped.
- A node waiting for its dependencies to settle is still skipped when one of them is
  skipped (src/jev-domain.js:251-253). So a review sees the failure of a final step
  only: `ModelRuns.ReviewSeesFinishedWork` says exactly what it can rely on.
- Cancelling a graph whose producer has succeeded and was never expanded leaves its
  derived status running, because that test comes first (src/jev-domain.js:335,
  `GraphRuns.CancelStopsIff`).
- The repair after a failed verification is accepted exactly when every node of the graph
  succeeded or some node is unsettled (`ModelRuns.VerifiedRepairAcceptedIff`); without
  reopening none is unsettled by then. A review that passed over a failed final step leaves
  the graph failed, and the repair is refused.
- The comment on replanning says a failed task can be replanned; expansion refuses a
  failed graph (`Replan.ReplanAcceptedIffOpen`).
- One active graph per task is checked only when a graph is created. It is kept by an
  operation exactly when the operation does not grow or reopen a finished graph while
  its task has another one in progress (`Activity.OneActiveUnlessClash`), in every store
  that operations make from the empty one (`Activity.FromEmptyStore`).
- A step of a kind the compiler does not know waits for everything before it, but
  later writes do not wait for it (`PlanMeaning.UnknownKindHoldsNothingBack`), although
  the comment calls it a barrier.
- A copy is not ordered after the write of its source
  (`PlanMeaning.CopyMayRunBeforeItsSource`), and two spellings of one file are not
  compared (`PlanMeaning.SpellingsAreNotCompared`). A plan is preserved exactly when, in
  every stretch between two barriers that the list can get through, all orders the graph
  allows need the same files and fill each file from the same place
  (`PlanTraces.PreservedIff`); for plans without copies, which all app plans are, exactly
  when the final writes of each file agree (`Stretches.CopyFreePreservedIff`).
- A plan whose step id ends in white space compiles, but the expansion made from it is
  refused: keys are trimmed where they are stored and not where they are listed
  (`ModelAccept.ExecutionAcceptedIffTidy`).
- A direct charge ignores open reservations, so it can use headroom they were promised;
  it keeps every promise covered exactly when it is refused or had room beside them
  (`Books.RecordKeepsCoveredIff`). What is spent still never passes the limit.
- The hold of a node does outlive its work in one case: when the node finished and
  direct charges have meanwhile used the headroom it was promised, the capture is
  refused and the refusal is swallowed (`Billing.HoldSurvivesIff`).
- The comment on settling says a failed node is charged what was measured; a failed
  execution has no output to measure, so its whole hold is released.
- Settling a node against a reservation that was captured before reports money as
  captured without spending it again (`Billing.SettlementSpendsWhatItReports`).

## Model

| member | source | states |
|---|---|---|
| `GraphShape.AssertAcyclic` | src/jev-domain.js:136-178 | accepts a well-shaped graph exactly when no chain of dependencies closes on itself; otherwise reports, in order, exactly the keys on a cycle or downstream of one |
| `GraphShape.UnplacedMeetsCycle` | src/jev-domain.js:154-177 | whatever order the queue is kept in, what the removal of free nodes leaves over is exactly what meets a cycle |
| `GraphShape.AssertGraphShape` | src/jev-domain.js:89-129 | accepts exactly the acceptable lists (non-empty, trimmed keys present and distinct, dependencies known, filed, not repeated, not the node itself, no cycle) and gives a true reason for each refusal |
| `GraphShape.TopologicalOrder` | src/jev-domain.js:185-211 | returns every key once with dependencies first, and the lexicographically least such order under (position, key); refuses exactly the graphs the shape check refuses |
| `GraphShape.PlacedFirst` | src/jev-domain.js:185-211 | at each place, of all the nodes not placed yet whose dependencies are, it places the one stored first, and of those stored at one place the one whose key comes first |
| `Basics.TextLessIs` | src/jev-domain.js:185-211 | one key comes before another where it ends first or has the smaller character at the first difference |
| `Basics.TrimCuts` | src/jev.js:110-112 | trimming a key cuts all white space off both ends and nothing else |
| `Dag.GreedyIsLeast` | src/jev-domain.js:185-211 | always placing the least free node gives a topological permutation no later than any other |
| `Dag.GreedyUnique` | src/jev-domain.js:185-211 | there is only one such order |
| `Readiness.SettleMeaning` | src/jev-domain.js:236-276 | propagation ends at a fixpoint: a waiting node is skipped exactly when a chain of waiting nodes leads to it from one with a dooming dependency, a pending one becomes ready exactly when nothing holds it back, and nothing else moves |
| `Readiness.SettleOrderIndependent` | src/jev-domain.js:236-276 | the fixpoint does not depend on the order the nodes are visited in |
| `Readiness.SettleOfStable` | src/jev-domain.js:236-276 | propagating again changes nothing |
| `Rows.ApplyReadiness` | src/jev-domain.js:236-276 | the loop over mutable records terminates and reaches that fixpoint |
| `Rows.OnePass` | src/jev-domain.js:240-274 | one pass never moves away from the fixpoint, and only a pass that changes nothing ends the loop |
| `Rows.DeriveGraphStatus` | src/jev-domain.js:324-352 | computes the status a graph with these nodes is specified to have, an unexpanded succeeded producer first |
| `Rows.MayClaim` | src/jev-domain.js:286-302 | a node is claimable exactly when it is ready and every dependency still allows it |
| `Rows.FirstToClaim` | src/jev-domain.js:286-302 | finds the claimable node of the class that is least by (order, key), or reports that there is none |
| `StatusRules.MayRunIsClaimable` | src/jev-domain.js:213-302 | claimable means: ready, and every node it lists has succeeded or, if it waits for them only to settle, has failed or timed out |
| `StatusRules.WaitsOnlyForWork` | src/jev-domain.js:236-276 | after any run from creation that retried no doomed node, nothing a waiting node lists is skipped or cancelled, or failed or timed out where success is needed, and a pending one lists something unsettled |
| `StatusRules.StatusSays` | src/jev-domain.js:324-352 | what each stored status means: pending, nothing was ever claimed or settled; succeeded, all have and nothing is owed; cancelled or failed, all is settled, not all of it well, nothing is owed, and some or none of it was cancelled; running, anything else |
| `Invariants.MoveKeepsLive` | src/jev.js:209-739 | every operation keeps the whole invariant of a graph, except reopening a node after its graph was cancelled |
| `Invariants.CreatedIsLive` | src/jev.js:101-187 | a graph as created satisfies it |
| `Requests.CreatedAsAsked` | src/jev.js:101-173 | a created graph has the caller's task, tenant and time and one node for each request, in order, with the trimmed key and the request's own kind, dependencies, mode, payload, class, time limit, price and attempts, under fresh ids |
| `Requests.ExpandedAsAsked` | src/jev.js:243-300 | an expansion adds one such node for each request, after all there were |
| `Requests.CreatableIff` | src/jev.js:109-130 | a graph can be created exactly from requests that are named, by different names, list only one another, none twice and not themselves, and close no circle |
| `Requests.ExpandableIff` | src/jev.js:221-271 | and grown, unless it failed or was cancelled, exactly by requests of which that holds among themselves and the nodes there are |
| `Requests.FirstClaimSetsDeadline` | src/jev.js:343-353 | whatever happens before, the first claim gives a node the time its request asked for from that moment, and no limit where it asked for none |
| `Requests.RetriedAsAsked` | src/jev.js:451-472 | a node is claimed at most as often as its request asked for, once at least, plus once per reopening; a failure that may be retried puts it back exactly while it was claimed less often, and fails it otherwise |
| `GraphRuns.NoDeadlock` | src/jev-domain.js:236-352 | a graph at a readiness fixpoint has unsettled nodes exactly when one is running or claimable, and is then active |
| `Deadlock.MoveKeepsStable` | src/jev.js:451-486 | an operation leaves the graph at a readiness fixpoint exactly when it does not retry a node its dependencies doom |
| `Deadlock.NoReachableDeadlock` | src/jev.js:209-739 | so every graph any run from creation can reach, reopenings after a cancel included, has unsettled nodes exactly when one is running or claimable, unless the run retried a doomed node |
| `Deadlock.RetryDeadlocksIff` | src/jev.js:462-476 | whatever happened before, a retry leaves the graph deadlocked exactly when the node's dependencies keep it from being claimed and no other node is running or claimable |
| `Deadlock.QuietRetryDeadlocksIff` | src/jev.js:462-476 | at a readiness fixpoint, exactly when they doom it and no other node is running or claimable |
| `Deadlock.NextPropagationSkips` | src/jev-domain.js:236-276 | an operation that propagates skips every waiting node, ready ones included, that what it wrote dooms |
| `Deadlock.NoPropagationNoSkip` | src/jev.js:468-472 | any other operation but a cancel leaves a ready node that its dependencies doom exactly as it was |
| `Deadlock.LiveNeverRetriesDoomed` | src/jev-domain.js:236-276 | in a graph no node of which was reopened after a cancel, no operation retries a doomed node |
| `Deadlock.FairRunsRetryNoDoomed` | src/jev.js:209-739 | nor does any fair run |
| `StuckRun.ACancelledGraphCanGetStuck` | src/jev.js:451-739 | a run that does: a graph of four nodes, cancelled and reopened, ends active with unsettled nodes none of which runs or may be claimed |
| `StuckGraph.DrainLeavesWork` | src/jev-executor.js:328-394 | a drain of that graph claims nothing and leaves a node unsettled |
| `Store.StepKeepsQuiet` | src/jev.js:101-739 | an operation on the store leaves every graph quiet exactly when it retries no doomed node |
| `Store.StoreNeverDeadlocks` | src/jev.js:101-739 | after any operations on any graphs, unless one retried a doomed node, no graph of the store is stuck |
| `Store.FairOpsRetryNoDoomed` | src/jev.js:542-586 | operations that reopen no node of a cancelled graph never retry one |
| `GraphRuns.RanOnSettledWork` | src/jev.js:331-369 | without reopening, everything a node that ever ran depends on, however indirectly, itself ran to an end and was neither skipped nor cancelled |
| `GraphRuns.SkippedNeverRan` | src/jev-domain.js:243-272 | after any run from creation that reopens nothing in a cancelled graph, a skipped node never ran |
| `StuckGraph.RanAndIsSkipped` | src/jev.js:542-739 | a run with such a reopening after which a skipped node did |
| `GraphRuns.ClaimsAreBounded` | src/jev.js:343-353 | in any run a node is claimed at most the attempts it had left plus once per reopening, and its deadline, once set, never moves |
| `GraphRuns.AttemptsAreCapped` | src/jev.js:343-345 | in any run a node's attempts never pass its ceiling, and a waiting or skipped node has one left |
| `Attempts.ClaimsBalance` | src/jev.js:311-586 | over any run, by any number of workers, the claims made and the attempts left add up to the attempts there were and those that reopenings and expansions added |
| `Attempts.ClaimsWithinAllowance` | src/jev.js:311-586 | so no run claims more often than that |
| `Attempts.StoppedIsSettled` | src/jev-executor.js:328-387 | however workers interleave, unless one retried a doomed node, nothing runs and nothing can be claimed exactly when every node is settled |
| `GraphRuns.SuccessStaysFinal` | src/jev.js:404-437 | a succeeded node is never changed again, in any run |
| `GraphRuns.ExpandKeepsExisting` | src/jev.js:201-309 | expansion adds exactly the nodes asked for, and leaves every existing node exactly as it was if and only if the graph was at a readiness fixpoint |
| `Deadlock.ExpansionAfterRun` | src/jev.js:201-309 | so it does after any run from creation that retried no doomed node, and the union is quiet again |
| `StuckGraph.ExpansionCanRewrite` | src/jev.js:201-309 | a run, and an expansion accepted after it, that turns an existing ready node into a skipped one |
| `GraphRuns.SweepClearsStalled` | src/jev.js:630-704 | after a sweep of any graph no running node is past its lease or deadline; a stalled node times out, fails, is retried, or is skipped where it is doomed, exactly as its deadline and attempts say; a running node that was not stalled is untouched |
| `GraphRuns.SweptAreHandedBack` | src/jev.js:630-704 | in a graph that was not reopened after a cancel, no stalled node is skipped by its own sweep |
| `GraphRuns.CancelStopsIff` | src/jev.js:712-739 | cancelling ends every unsettled node; the graph becomes cancelled exactly when a cancelled node results and no succeeded producer is owed its expansion, and stays running exactly when one is |
| `GraphRuns.ReopenRevivesOnlyItsOwn` | src/jev.js:565-577 | reopening a node leaves every node skipped for another reason exactly as it was; one skipped for it stays skipped exactly when it is still doomed, and otherwise waits, ready exactly when nothing holds it back |
| `Drain.DrainSettlesEverything` | src/jev-executor.js:328-387 | whatever the work answers, claiming and resolving on a graph nobody else holds makes at most as many claims as there are attempts left, and ends with every node settled exactly when the graph was not deadlocked to begin with; a quiet graph never is |
| `Drain.CleanRunFollowsTopologicalOrder` | src/jev-domain.js:185-211 | one worker without failures claims nodes exactly in the order `topologicalOrder` gives for the stored graph |
| `Executor.ExecuteNextNode` | src/jev-executor.js:130-319 | claims the first claimable node if there is one and records its answer; otherwise leaves the graph alone and says so |
| `Executor.DrainGraph` | src/jev-executor.js:328-394 | the loop makes exactly the rounds it is specified to make, lists the nodes it claimed in order, and reports running into the step ceiling exactly when every step claimed a node |
| `Executor.RoundSays` | src/jev-executor.js:130-319 | a turn takes, of the nodes that may run, the one stored first, and leaves it succeeded with the answer's output, put back or failed, as the answer and its attempts say; there is none only where the graph is closed or no node may run |
| `Executor.UnexhaustedIsSettled` | src/jev-executor.js:363-394 | a drain that stops before its ceiling leaves a node unsettled exactly when the graph was deadlocked to begin with |
| `Executor.RunStatusSays` | src/jev-executor.js:387-394 | a run is reported completed, cancelled or failed exactly when its graph has come to that, and otherwise as having hit the ceiling or as incomplete, as it did |
| `Executor.IncompleteOwes` | src/jev-executor.js:363-394 | a drain that stops before its ceiling, on a graph that was not stuck, is reported incomplete exactly when a success still owes the graph more work |
| `Frontier.FrontierHasRun` | src/jev-domain.js:286-302 | without reopening, when a node that waits on every sink of a set of nodes is claimed, every member of the set has run to an end, and what its when-succeeded members list has succeeded |
| `Completions.MoveKeepsRunsOnSuccess` | src/jev-domain.js:286-302 | whatever is done to a graph, a when-succeeded node that is running lists only succeeded nodes |
| `Completions.SuccessesAreOrderly` | src/jev.js:331-437 | the order in which any run completes nodes never completes a when-succeeded node before what it lists |
| `Worker.AcceptedIffStillHeld` | src/jev.js:404-486 | however much later and whatever else happens in between, a worker's report is accepted exactly when its lease is still held |
| `Worker.LeaseStaysPut` | src/jev.js:343-348 | over any run a lease is carried only by the node it was issued for |
| `Worker.SweepTakesWhenDue` | src/jev.js:343-353 | a sweep takes a claimed node back exactly when its lease, of a second at least, has run out or its deadline has come; the first claim sets the deadline |
| `Worker.RenewalExtends` | src/jev.js:378-389 | an accepted renewal moves the end of the lease and nothing else, and sweeps wait for the new end |
| `Worker.ReportIsAccepted` | src/jev-executor.js:130-319 | a report made with nobody in between is accepted |
| `Worker.ExecuteNextNode` | src/jev-executor.js:130-319 | claims, holds, works, settles and reports in that order: a refused hold fails the node for good, a failure releases the hold, a success captures what it cost; the store and the ledger end exactly where those transactions take them, and nothing is touched when there is no node |
| `Worker.RunLeavesNoHold` | src/jev-executor.js:179-275 | on books no direct charge has upset, running a node leaves no new hold open, keeps every promise covered, and spends exactly what the finished work is charged, within what was held |
| `NodeRuns.RunsTo` | src/jev-executor.js:130-319 | a worker's undisturbed run takes a node of its own task and tenant, counts one attempt, and ends it failed for good if its price could not be held, succeeded with the work's output if it finished, and otherwise put back or failed as the work says and the attempts allow; no other graph is touched |
| `NodeRuns.CostsAsAsked` | src/jev-budget.js:53-122 | running a node holds exactly the price its request named, is refused exactly where that does not fit, and spends what was measured up to that price, or the price if nothing was |
| `NodeRuns.StepAsPlanned` | src/jev-planner.js:178-201 | a plan step's node has the step's kind, class, time and price, and as many attempts as the sequential engine makes |
| `Fencing.StepKeepsFenced` | src/jev.js:343-348 | issued leases stay behind the counter and no two nodes ever carry the same one |
| `Fencing.SettledIffLost` | src/jev.js:404-739 | an operation accepts an outcome for a lease exactly when the lease was held before it and is not held after |
| `Fencing.LostStaysLost` | src/jev.js:343-348 | a lease no longer held is never held again |
| `Fencing.AtMostOneOutcome` | src/jev.js:404-739 | over any run, with no assumption about clocks, a lease has at most one accepted outcome among completion, failure, sweep and cancellation |
| `Fencing.ToldDidMeansSettled` | src/jev.js:404-486 | a caller is told its completion or failure was accepted exactly when that settled the lease it presented |
| `Fencing.UnacceptedChangesNothing` | src/jev.js:404-586 | an operation on a node that is not accepted changes nothing at all |
| `Fencing.SettledOtherwiseIsVoid` | src/jev.js:451-739 | failing, sweeping and cancelling leave no node carrying the lease |
| `Fencing.VoidedNeverHonoured` | src/jev.js:378-486 | however long the run, whoever presents a voided lease is turned away |
| `Fencing.SuccessIsForGood` | src/jev.js:404-437 | a succeeded node keeps its status, output and lease through any run |
| `Fencing.CancelledIsForGood` | src/jev.js:602-739 | a cancelled node stays as it is through any run, and no sweep ever takes it |
| `Fencing.CompletedAgainIsRepeated` | src/jev.js:409-411 | the worker that completed a node is told so again however often and however late it asks |
| `Activity.StepKeepsIds` | src/jev.js:101-309 | graph and node ids are never shared and never reused |
| `Activity.OnlyGrowthReactivates` | src/jev.js:209-586 | whatever was done to a graph before, once finished it becomes active again only by being expanded or reopened |
| `Activity.GrowthReactivates` | src/jev.js:209-586 | and then it always does |
| `Activity.MoveKeepsSteady` | src/jev.js:209-739 | every operation, reopening after a cancel included, keeps what that needs: as long as a graph holds no cancelled node it satisfies the whole invariant |
| `Activity.OneActiveUnlessClash` | src/jev.js:132-136 | an operation keeps each task to one active graph exactly when it does not grow or reopen a finished graph beside one in progress |
| `Activity.FromEmptyStore` | src/jev.js:101-739 | any operations from an empty store on keep ids and leases apart, give each lease at most one outcome, leave each task one active graph unless one grows or reopens a finished graph beside it, and, unless one retries a doomed node, never deadlock |
| `GraphTable.GraphRow.Claim` | src/jev.js:343-356 | writes to the records exactly what the claim's step specifies |
| `GraphTable.GraphRow.Fail` | src/jev.js:451-486 | likewise for a failure, retried or not, with its propagation |
| `GraphTable.GraphRow.Reopen` | src/jev.js:542-586 | likewise for reopening and the nodes it revives |
| `GraphTable.GraphRow.Sweep` | src/jev.js:630-704 | likewise for the sweep of one graph, returning exactly the stalled nodes |
| `GraphTable.GraphRow.Grow` | src/jev.js:221-300 | likewise for the pushes and the propagation of an expansion |
| `GraphTable.GraphRow.Cancel` | src/jev.js:712-739 | likewise for cancellation |
| `StoreRows.KeysAreNew` | src/jev.js:229-240 | keys refused before the union is looked at are keys the shape check would refuse |
| `StoreRows.MayGrow` | src/jev.js:209-271 | an expansion goes ahead exactly when the graph has neither failed nor been cancelled, something is asked for, and the union has an acceptable shape |
| `StoreRows.Candidates` | src/jev.js:331-336 | lists exactly the active graphs in scope, oldest first, older entries first among equals |
| `StoreRows.FirstOfferServes` | src/jev.js:331-340 | the first candidate with something to hand out is the graph the claim is specified to serve |
| `StoreRows.SweepGraphs` | src/jev.js:630-704 | every graph in scope is swept and no other is touched; exactly the reservations of swept nodes are released |
| `JevStore.Jev.CreateTaskGraph` | src/jev.js:101-187 | does exactly the step specified for it and tells its caller what that step tells |
| `JevStore.Jev.ExpandGraph` | src/jev.js:209-309 | likewise, refusing unknown, failed and cancelled graphs and unacceptable unions without writing |
| `JevStore.Jev.ClaimNextNode` | src/jev.js:321-369 | likewise, returning the one node it hands out: the next node of the graph to serve, now running under a lease never issued before |
| `JevStore.Jev.RenewNodeLease` | src/jev.js:378-389 | likewise |
| `JevStore.Jev.CompleteNode` | src/jev.js:404-437 | likewise, telling a worker that completes twice apart from one whose lease is not current |
| `JevStore.Jev.FailNode` | src/jev.js:451-486 | likewise |
| `JevStore.Jev.ReopenNode` | src/jev.js:542-586 | likewise, declining nodes that have not failed and graphs that were cancelled |
| `JevStore.Jev.CancelGraph` | src/jev.js:712-739 | likewise |
| `JevStore.Jev.SweepStalledNodes` | src/jev.js:602-704 | likewise over all graphs in scope, and every open reservation of a swept node is released while accounts, ledger rows and all other reservations stay as they are |
| `StoreSteps.NodeOpEffect` | src/jev.js:378-586 | an operation on a node moves the one graph that has the node or nothing |
| `StoreSteps.ClaimMeaning` | src/jev.js:321-369 | a claim moves only the graph it serves and hands out one id |
| `Answers.HandedWasFirst` | src/jev.js:321-369 | a node handed out is ready with dependencies that let it run, in an active graph of the task and tenant asked for, of the class asked for, and goes before every other such node, older graphs first and then by position; it now runs under a new lease of a second at least, one attempt more, and nothing else changed |
| `Answers.ClaimAnswered` | src/jev.js:321-369 | a caller that names itself gets a node exactly when there is such a node, and nothing otherwise; one that does not is refused |
| `Answers.NodeOpAnswered` | src/jev.js:378-586 | renewing, completing and failing are accepted exactly for a node that runs under the lease presented, reopening exactly for one that failed or timed out in a graph not cancelled; what each makes of the node, and that it leaves other graphs, and when declined everything, as it was |
| `Answers.UnknownNodeAnswered` | src/jev.js:378-586 | an operation on a node nobody knows is refused and changes nothing |
| `Answers.CreateAnswered` | src/jev.js:101-187 | a graph is created exactly for a named task without an active graph and requests that fit; what it then holds |
| `Answers.ExpandAnswered` | src/jev.js:209-309 | a stored graph grows exactly when it has not failed or been cancelled and the requests fit; what it then holds, and that no other graph changes |
| `Answers.CancelAnswered` | src/jev.js:712-739 | cancelling a known graph cancels exactly its unsettled nodes and touches no other graph |
| `Answers.UnknownGraphAnswered` | src/jev.js:209-739 | an operation on a graph nobody knows is refused and changes nothing |
| `Answers.SweepAnswered` | src/jev.js:630-704 | a sweep leaves graphs of other tenants, and graphs without an overdue node, as they were; elsewhere every overdue node times out, fails or is handed back, as its deadline and attempts say, and no other running node is touched |
| `Answers.SweptAre` | src/jev.js:630-704 | the nodes a sweep reports are exactly the overdue ones of the graphs it is for |
| `Planner.GraphFromExecutionPlan` | src/jev-planner.js:132-216 | the compiler's loop yields exactly the dependencies specified step by step, refuses exactly the uncompilable plans, and names a truly repeated step or a true shape error |
| `PlanKinds.ListsByKind` | src/jev-planner.js:32-53 | by the kinds in the plan, whatever they are: a step that does not write lists every earlier one; a write lists exactly the latest command, service, smoke test, deployment or package (in games: project set-up, command, engine action, playtest, build or package) and the writes since then whose place interferes with its own |
| `PlanKinds.SettlingStepsHold` | src/jev-planner.js:32-53 | a step of those kinds waits for every earlier step and every later step for it |
| `PlanKinds.WritesAreLoose` | src/jev-planner.js:179-191 | a write that interferes with no write of its stretch from step j on does not wait for j, directly or through others |
| `PlanKinds.DeclaredIsListed` | src/jev-planner.js:166-175 | a step that declares its dependencies lists exactly those, without empty or repeated names |
| `PlanKinds.CompilesIff` | src/jev-planner.js:132-216 | a plan that declares no dependencies compiles exactly when it has steps, their names are not blank and differ by more than white space around them, and no step waits for one whose name has any |
| `PlanMeaning.ListedExactly` | src/jev-planner.js:149-205 | a step lists an earlier one exactly when it is a barrier, or that one is the latest barrier, or both are writes of one stretch whose paths interfere; and it lists nothing else |
| `PlanMeaning.KeptUnlessApart` | src/jev-planner.js:132-216 | every pair of steps stays ordered except two writes of one stretch with paths that do not interfere |
| `PlanMeaning.CompilingPreservesMeaning` | src/jev-planner.js:132-216 | where no two steps clash of which neither waits for the other, which is enough but not always needed, every order the compiled graph allows gives exactly what running the list in order gives, workspace or failure, with barriers arbitrary |
| `PlanMeaning.CanonicalIsFaithful` | src/jev-planner.js:110-124 | plans without copies whose written paths are canonical are among those it holds for |
| `Stretches.CutsHold` | src/jev-planner.js:155-196 | every order the graph allows does each barrier at its own place in the list, and between two of them the steps the list has there |
| `Stretches.CopyFreePreservedIff` | src/jev-planner.js:132-216 | for a plan without copies, every order the graph allows shows every barrier, and leaves at the end, exactly what the list does, if and only if in every stretch the list can get through the final writes of each file agree |
| `Stretches.FaithfulFinalsAgree` | src/jev-planner.js:132-216 | which they do where no two steps clash of which neither waits for the other |
| `Stretches.PairPreservedIff` | src/jev-planner.js:132-216 | for a plan of two steps, copies included, the orders the graph allows come to what the list comes to on every workspace if and only if the steps are kept in order or do not clash |
| `PlanTraces.PreservedIff` | src/jev-planner.js:132-216 | for any plan without declared dependencies, copies included: every order the graph allows shows every barrier, and leaves at the end, exactly what the list does, if and only if in every stretch the list can get through those orders need the same files and fill each file they write from the same place |
| `PlanTraces.StepByStep` | src/jev-planner.js:132-216 | plans no two loose steps of which clash are among those; for plans without copies it comes to their final writes agreeing |
| `Traces.SameEffectIff` | src/game-executor.js:160-181 | two orders of the same writes and copies come to the same on every workspace, failures included, if and only if they fail on all of them or need the same files and fill each file from the same place |
| `Traces.SucceedsIff` | src/game-executor.js:160-181 | writes and copies succeed in turn exactly when no two of them, and none and the workspace, need a file and a folder in one place, and the files copied before they are written are there |
| `PlanMeaning.CopyMayRunBeforeItsSource` | src/jev-planner.js:121-124 | a plan on which it fails: a copy run before the write of its source |
| `PlanMeaning.SpellingsAreNotCompared` | src/jev-planner.js:110-119 | another: two spellings of one file, where the list's last write loses |
| `PlanMeaning.UnknownKindHoldsNothingBack` | src/jev-planner.js:155-177 | a step of an unknown kind waits for everything before it, but a later write in the same stretch does not list it |
| `Paths.CanonicalInterference` | src/jev-planner.js:110-119 | on canonical paths the comparison of strings is exactly the overlap of locations |
| `Paths.InterfereIffOverlap` | src/jev-planner.js:115-119 | the comparison of strings is exactly the comparison of segment lists |
| `Paths.SpellingsOf` | src/jev-planner.js:110-112 | the spellings compared as one path are exactly those with either slash, one "./" before it or none, and any number of slashes after it |
| `Paths.LocateRefuses` | src/app-web-executor.js:15-24 | a path is refused exactly when it is absolute, rises above the workspace anywhere on its way, or ends at a first name that begins with two dots |
| `StepEffects.FileWritten` | src/app-web-executor.js:52-57 | a step that writes a file leaves its content at its path, with folders above it and nothing else changed, and fails exactly where the path is refused or something stands in the way |
| `StepEffects.FolderMade` | src/app-web-executor.js:59-63 | likewise for a step that makes a folder |
| `StepEffects.FileCopied` | src/game-executor.js:169-181 | likewise for a copy, which leaves at its destination the file that is at its source and fails where there is none |
| `StepEffects.OtherDone` | src/app-web-executor.js:49-70 | any other kind does what its runtime makes of it, and a kind the runtime does not know fails |
| `Workspaces.ChangesCommuteIff` | src/app-web-executor.js:52-67 | two writes come to the same in either order on every workspace, failures included, if and only if they do not clash: different contents in one place, a copy of what the other brings, copies of apart sources to one place |
| `Overlays.AppliedIs` | src/app-web-executor.js:52-67 | writes that read nothing succeed one after another exactly when no two of them, and none and the workspace, make a file and a folder of one place; they then overlay it in turn |
| `Commuting.SortByCommuting` | src/execution-engine.js:29-97 | an order all of whose inversions commute does what counting upwards does |
| `PlanRuns.RunsAreAllowed` | src/jev-domain.js:286-302 | the order in which any run completes the nodes of a compiled graph is one the graph allows |
| `PlanRuns.RunsPreserveMeaning` | src/jev-planner.js:132-216 | any number of workers, with failures, retries, cancellations and reopenings on the way, that complete every node of a plan that meets this exact condition leave the workspace the list leaves |
| `PlanRuns.CleanRunFollowsTheList` | src/jev-domain.js:185-211 | one worker without failures claims the nodes of a plan without declared dependencies exactly in list order |
| `Engine.ExecutionEngine.Run` | src/execution-engine.js:23-104 | the sequential engine passes exactly the steps the specification passes, does to the workspace what they do, and stops only for a reason |
| `Engine.FreshRunDoesTheList` | src/execution-engine.js:29-97 | a run from the start does the whole list in order |
| `Engine.RemainingAre` | src/execution-engine.js:29-97 | a run taken up again has exactly the steps to do that have not passed, in list order |
| `ModelGraph.GraphCycles` | src/jev-model-graph.js:93-117 | collects exactly the cycle numbers the keys carry, each under the first pattern that matches |
| `ModelGraph.NextModelGraphAction` | src/jev-model-graph.js:409-500 | returns a decision that follows from those numbers and the statuses alone |
| `ModelKeys.OneRole` | src/jev-model-graph.js:89-91 | a key has at most one role, so reading keys cannot confuse cycles or families |
| `ModelKeys.PatternsReadRole` | src/jev-model-graph.js:89-117 | the key patterns read from a key exactly the cycle its role has |
| `ModelKeys.MatchExecIs` | src/jev-model-graph.js:89-117 | a key is read as work of cycle n exactly when it is "exec", digits that spell n, a colon, and anything |
| `ModelKeys.MatchTailIs` | src/jev-model-graph.js:89-117 | and as another family's n-th exactly when it is the family's prefix and digits that spell n |
| `ModelShape.CyclesAreContiguous` | src/jev-model-graph.js:93-117 | the cycles read from a grown graph are 1 to k without a gap, the producers 0 to r |
| `ModelShape.DecisionIsSensible` | src/jev-model-graph.js:409-500 | whatever is decided concerns the cycle in hand and is justified by a succeeded producer or verdict |
| `ModelVerdicts.DecisionIs` | src/jev-model-graph.js:409-500 | exactly what is decided on a graph of the grown shape: the next cycle's work when its producer has succeeded; else what the latest succeeded review asks for, a repair unless there is one or the limit is reached, a verification unless there is one, its evidence once it has succeeded, or a stop; and nothing without one |
| `ModelVerdicts.VerdictIs` | src/jev-model-graph.js:443-451 | a verdict is what the succeeded review of its cycle answered with |
| `ModelVerdicts.FirstAskedFor` | src/jev-model-graph.js:141-166 | what a model graph starts with |
| `ModelVerdicts.AskedFor` | src/jev-model-graph.js:183-387 | what each decision asks the graph to grow by, request by request: the plan's own requests under the cycle's names, the sources waiting for the producer, and a review of exactly the sinks; a repair; a verification carrying the record; a repair after a verification that did not pass, unless there is one or the limit is reached; and nothing otherwise |
| `ModelVerdicts.RecordIsReported` | src/jev-model-graph.js:371-387 | once a verification was asked for with what the verifier recorded, every later report on its cycle is that record, whatever happens in between: passed, nothing more is asked for; not passed, a repair, unless there is one or the limit is reached |
| `ModelAccept.ExecutionAcceptedIffTidy` | src/jev-model-graph.js:183-238 | a plan's nodes fit an open graph exactly when no step id ends in white space |
| `ModelAccept.RepairAccepted` | src/jev-model-graph.js:246-259 | a repair that is new fits exactly when the graph is open |
| `ModelAccept.VerifyAccepted` | src/jev-model-graph.js:371-387 | so does a verification |
| `ModelGrowth.UnionAcyclic` | src/jev.js:258-271 | a union has no cycle when its old part and its new part have none |
| `ModelLoop.CycleKeepsGrown` | src/jev-model-graph.js:183-238 | an accepted cycle of work leaves a graph of the grown shape with one cycle more |
| `ModelLoop.WorkKeepsGrown` | src/jev.js:321-486 | nothing workers, sweeps and operators do disturbs that shape |
| `ModelRuns.ExecutionAccepted` | src/jev-model-loop.js:420-459 | an expansion chosen for a succeeded producer has fresh keys and is accepted exactly when no step id ends in white space |
| `ModelRuns.ReviewGrowthAccepted` | src/jev-model-graph.js:440-487 | a repair or verification chosen for a succeeded review is always accepted |
| `ModelRuns.OpenIffSucceededOrUnsettled` | src/jev-domain.js:330-352 | once a verification is in it, the graph is open exactly when every node succeeded or some node is unsettled |
| `ModelRuns.OpenIffAllSucceeded` | src/jev-domain.js:330-352 | without reopening, once a verification has succeeded no node is unsettled, and the graph is open exactly when every node succeeded |
| `ModelRuns.VerifiedRepairAcceptedIff` | src/jev-model-loop.js:551-622 | the repair a failed verification asks for is accepted exactly when every node succeeded or some node is unsettled, which without reopening none is |
| `ModelRuns.ReviewSeesFinishedWork` | src/jev-model-graph.js:201-224 | without reopening, when the review of cycle n is claimed every step of the cycle has run to an end, every step another one lists has succeeded, and so has the producer |
| `ModelBounds.LoopIsBounded` | src/jev-model-loop.js:121-230 | whatever the models answer and however workers, operators (who may cancel and reopen) and driver interleave, at most max(1, limit) cycles execute, at most max(0, limit - 1) are repaired, and the driver grows the graph only boundedly often |
| `ModelBounds.ClaimsWithinGranted` | src/jev-model-loop.js:121-230 | every claim of such a run is one of the attempts its nodes were granted |
| `ModelIdle.IdleIffNoVerdict` | src/jev-model-loop.js:205-230 | with every node settled and the graph neither failed nor cancelled, the driver has nothing to do exactly when the review of the cycle in hand succeeded without a verdict |
| `ModelIdle.NeverIdlesSilently` | src/jev-model-loop.js:216-230 | after any interleaving of workers, operators and driver, some node is running or claimable, or the graph has failed, or an operator cancelled some node, or the driver has something to do, or a review gave no verdict |
| `ModelDriver.PlanGrowth` | src/jev-model-loop.js:420-622 | what each chosen action asks the graph to grow by, if anything |
| `ModelDriver.AdvanceModelGraph` | src/jev-model-loop.js:121-230 | makes at most one transition: runs one node, waits for workers, or acts on a decision, exactly as the specified step does |
| `Replan.ReplanAcceptedIffOpen` | src/jev-model-graph.js:286-359 | a replan is accepted exactly when the graph has neither failed nor been cancelled |
| `Replan.ReplanAsked` | src/jev-model-graph.js:286-359 | a replan is asked for exactly when every rework has succeeded and the cycle it is for has neither replan nor rework; it waits for exactly the nodes nothing else waits for to settle, and the rework for it |
| `Replan.ReplanSeesEverythingSettled` | src/jev-model-graph.js:329-340 | however the graph runs on without reopening, the replan is claimed only once every node present at its creation has run to an end |
| `Books.RunKeepsCovered` | src/billing.js:52-230 | over any interleaving of reserve, capture, release and sweep, what is spent plus every open reservation never exceeds the limit |
| `Books.CoveredIsWithinLimit` | src/billing.js:84-90 | with promises covered, no agent has spent more than its limit |
| `Books.CaptureNeverHitsLimit` | src/billing.js:138-157 | so the limit check inside a capture never fires |
| `Books.RecordKeepsCoveredIff` | src/agent-manager.js:335-360 | a direct charge keeps every promise covered exactly when it is refused or had room beside every open reservation |
| `Books.RunKeepsWithinLimit` | src/agent-manager.js:335-404 | with direct charges interleaved, what is spent never exceeds the limit |
| `Books.LedgerAgrees` | src/billing.js:157-189 | over any run an agent's spend moves only with its ledger rows, a captured reservation has exactly one row, any other none, and captured plus released is what was reserved |
| `Books.ReplayAddsNothing` | src/billing.js:77-90 | presenting a key again, at any later time and with any amount, adds nothing |
| `Books.SweepGivesBack` | src/jev.js:602-615 | releasing a node's reservations releases exactly those of its own attempts and spends nothing |
| `Books.PrefixIsOwn` | src/jev.js:602-611 | a node's key prefix matches its own reservations' keys and no other node's |
| `BillingOutcomes.ReserveRefusedIff` | src/billing.js:74-110 | a reservation under a fresh key is refused exactly when taking it on would commit the agent beyond its limit, and is otherwise taken on as asked |
| `BillingOutcomes.ReserveTurnsAway` | src/billing.js:52-82 | exactly when it is refused for its amount, its key, its agent or the hourly ceiling, in that order; a key presented before is answered with what it was given |
| `BillingOutcomes.CaptureRefusedIff` | src/billing.js:128-189 | an open reservation is captured, for the amount given or whole, unless that is negative, more than was reserved, or would commit the agent beyond its limit |
| `BillingOutcomes.CaptureOnlyOpen` | src/billing.js:128-134 | capturing again, or what was released, changes nothing |
| `BillingOutcomes.ReleaseOnlyOpen` | src/billing.js:220-230 | a release gives back exactly the named reservation if it is open, and refuses what was captured |
| `BillingOutcomes.RecordRefusedIff` | src/agent-manager.js:335-404 | a direct charge is refused exactly when what is spent would pass the limit, or for its amount, its agent or the hourly ceiling |
| `BillingOutcomes.HoldRefusedIff` | src/jev-budget.js:53-100 | a node without a price may run exactly while there is headroom, one with a price exactly when it still fits, and it is then held under this attempt's key |
| `BillingOutcomes.SettledAlone` | src/jev-budget.js:144-184 | undisturbed, a settlement spends exactly what was measured or all that the limit leaves, reports the rest as unrecorded, and spends the whole reservation where nothing was measured |
| `BillingOutcomes.SettledUnheld` | src/jev-budget.js:144-184 | without a reservation, all that was measured is charged directly as far as the limit leaves room, unless the ceiling refuses it, and the rest is reported |
| `BillingOutcomes.ReleasedAre` | src/jev.js:602-615 | releasing what was held for some nodes gives back exactly the open reservations of their attempts |
| `Billing.HoldIsBacked` | src/jev-budget.js:53-100 | a node is let run only with headroom or with a reservation under its own attempt's key, and every promise stays covered |
| `Billing.SettlementAccountsForAll` | src/jev-budget.js:144-184 | what is measured is captured or reported as unrecorded, to the last unit, whatever other callers do meanwhile |
| `Billing.SettlementSpendsWhatItReports` | src/jev-budget.js:144-184 | the agent's spend rises by exactly what is reported captured exactly when the reservation was still open or nothing was to be captured from it |
| `Billing.SettlementKeepsWithinLimit` | src/jev-budget.js:144-184 | the limit still holds, including when the charge for an overrun is refused |
| `Billing.AloneRecordsAllItCan` | src/jev-budget.js:160-180 | undisturbed, nothing is left unrecorded while there is headroom |
| `Billing.HoldSurvivesIff` | src/jev-executor.js:230-275 | a hold outlives its node exactly when the node finished and the capture no longer fits beside the other open reservations |
| `Billing.HoldNeverSurvives` | src/jev-executor.js:230-275 | while others only reserve, capture, release and sweep, in any order, it never does |
| `Holdings.RunKeepsAccounted` | src/jev-executor.js:130-319 | over any interleaving of any number of workers, operators, sweeps and other spending, every open hold of a node's attempt belongs to a worker that has not settled, to an attempt that still runs and a sweep can take back, or to one stranded by a cancel after its worker stopped or by a worker that stopped after its lease was lost |
| `Holdings.NothingLeftHeld` | src/jev.js:602-704 | so without cancels and such stops, once no worker is at work and no lease is held, no node's hold is open |
| `Holdings.SweepLeaves` | src/jev.js:602-704 | what the sweep of the stored tables leaves of the reservations is what these runs suppose |
| `Holdings.CancelStrands` | src/jev.js:712-739 | cancelling a running node whose worker has stopped leaves its hold open with no one to settle it |
| `Holdings.NobodyGivesBack` | src/jev.js:602-739 | and it stays open whatever happens later |
| `BillingStore.BillingTables.ReserveSpend` | src/billing.js:52-110 | updates the tables exactly as the reservation specifies |
| `BillingStore.BillingTables.CaptureSpend` | src/billing.js:128-189 | likewise for a capture |
| `BillingStore.BillingTables.ReleaseSpend` | src/billing.js:220-230 | likewise for a release |
| `BillingStore.BillingTables.RecordSpend` | src/agent-manager.js:335-404 | likewise for a direct charge |
| `BillingStore.BillingTables.ReleaseSwept` | src/jev.js:602-615 | releases exactly the open reservations of the swept nodes and changes nothing else |
| `BillingStore.BillingTables.CloseNodeHold` | src/jev-budget.js:111-122 | captures or releases a node's hold exactly as specified |
| `BillingStore.BillingTables.SettleNodeSpend` | src/jev-budget.js:144-184 | makes the settlement's transactions in order, with other callers' in between, and returns what the specification returns |

## Left out

- The store backends: each transaction is one atomic step.
- Fields no property needs: user and plan ids, descriptions, tool scopes, started and
  finished times, error records, audit rows, checkpoints, messages, the blackboard and
  the run projections (`syncRun`).
- The reads `claimableGraphWork` and `graphForTask`: what a claim would find is
  `Answers.ClaimAnswered`.
- The flat node table: each graph holds its own records, which is what filtering the
  table by graph id gives; a sweep therefore goes graph by graph.
- Payloads are opaque except for whether a node owes an expansion and the evidence a
  verification carries; a node's output is opaque except for the plan and the decision.
- A dependency mode other than the two known ones, and non-string keys, cannot be
  written down in the model.
- Text: trimming covers the common white space, strings are ordered by character value,
  and absolute paths count as leaving the workspace.
- Plan normalisation: a plan comes as a list of steps with kinds from an enumeration,
  or not at all; splitting a budget over steps adds only easy members.
- Cost estimates of model nodes (their budget is 0 here), `chargeProvider`, and the
  conversion between major and minor units.
- Worker.ExecuteNextNode: does not model the callback that renews leases, nor the path of
  model nodes, whose settlement is modelled on the ledger alone.
- Executor.ExecuteNextNode: works on one graph row and claims under one constant lease;
  the choice among a task's graphs and the fresh lease are those of
  `JevStore.Jev.ClaimNextNode`, which `Worker.ExecuteNextNode` calls.
- Executor.DrainGraph: likewise one graph row; a drain of a task with one active graph.
- ModelDriver.AdvanceModelGraph: does not model the first call, which creates the graph;
  its runs start from the created one.
- PlanMeaning.CompilingPreservesMeaning: its condition, checked pair by pair, is sufficient
  only; the exact one is that of `PlanTraces.PreservedIff`.
- The driver's reading of the graph and the expansion that follows are one step; two
  drivers racing on one graph are not modelled.
- Bookkeeping of a replan outside the graph (instruction versions).
- HTTP, pages, authentication, notifications, providers, processes and timers.
