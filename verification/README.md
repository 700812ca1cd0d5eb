# Verification of the Compose orchestration logic

A Dafny model of the parts of this repository that decide in which order, how often and on what containers and
cloud resources work is done, with proofs of what those decisions guarantee. Everything is stated for all
projects, all engine states, all interleavings of goroutines and all outcomes of calls.

## What is modelled

**The dependency scheduler** (`local/compose/dependencies.go`). `DependencyGraph.dfy` is the graph object with its
two-way adjacency and the depth-first cycle check. `Traversal.dfy` is `run` as a step machine: a status for every
vertex and a table of goroutines, each about to call, having succeeded, looking at the vertices that follow, or
ended. A schedule is a list of moves, so a statement about every feasible schedule is one about every interleaving;
the direction is a parameter. `Termination.dfy`, `ExactlyOnce.dfy` and `Visit.dfy` add the weight that falls with
every step, the exact condition for single calls, and the traversal on the graph object itself.

That every service is visited once is **false** in general: two dependencies may both have recorded success before
either looks at their common dependent, which is then started twice (lines 95 and 105-107). The exact condition is
proved for each vertex: on acyclic graphs it is called once at most in every interleaving iff neither it nor anything
it awaits, directly or not, awaits two others; and single calls are certain if recording, checking and starting are
one step.

**Convergence of containers** (`local/compose/convergence.go`). `ContainerEngine.dfy` is the engine: containers by
id, calls it must refuse, calls it may refuse. `Convergence.dfy` is the pool of goroutines that calls of
`ensureService` start, `ConvergencePlan.dfy` what they are started for, `EnsureService.dfy` the code as written, tied
to the two. The other `Convergence*`, `Captures`, `Completion` and `CaptureExactness` files hold the results;
`EnsureOutcome.dfy` states what a run leaves in terms of the listing and the configuration alone, and that at no moment
a container has gone before its replacement is there and connected.

The closures started in the loop at lines 94-117 refer to the loop variable, and `go.mod` (line 3) asks for Go 1.15,
in which one variable serves all iterations. A goroutine therefore works on the element the variable holds when it
starts, its own or a later one. One-step convergence is **false** under this reading: a stale container followed by
an up-to-date one can be missed although everything succeeds. So is idempotence: of two stopped containers the first
one's goroutine may start the second, everything succeeds, and a second run still has the first to start. For both the
exact condition is proved, for every capture and schedule: convergence iff no up-to-date kept container follows a
diverged one, idempotence (`Idempotence.dfy`) iff moreover none but the last has to be started. What does not depend
on it (the number of containers, names, numbers, other services) is proved without a condition. Torn reads of the
shared variable are not modelled.

`Propagation.dfy` puts forced recreation on top of the traversal machine; `Lifecycle.dfy` is `setDependentLifecycle`
with its sharing of extension objects: a service without extensions gets a new object that the graph's copy of it does
not see, so the flag is lost, and when exactly that matters is proved.

`ServiceView.dfy` and `ProjectCreate.dfy` put several calls on one listing together, with all their goroutines in one
pool. `CreateMachine.dfy` is `Create` as one machine: the traversal, the calls it makes, the flags they read and set,
and the goroutines they start, interleaved in any way; a call returns when all its goroutines have. A run projects to
one of the traversal with its flags and to one of the pool. An error-free `Create` leaves every service at its scale and
has replaced containers of exactly the services the forcing rule says; removing orphans between the listing and the
traversal changes nothing about that.

That `Create` ends without error is **false** in general even on an engine that refuses only what it must
(`Willing.dfy`): two goroutines may be given the same kept container, and a service called twice may have to make,
remove or replace one container twice. `CreateExactness.dfy` proves the exact condition, with the names it asks for free
and the labels it reads parsable. All runs end without error iff for each service, with the flag it finds when it is
called (its own from the start, or that of a recreated service it awaits if its copy can see it),

- whenever two kept containers need work, both only have to be started, and
- if the service, or something it awaits, directly or not, awaits two others, it has nothing to do but to start kept
  containers.

So a stale container can make `Create` fail at a dependent that is itself up to date. The failing runs that are built
are runs of the machine, in which every call waits for what its service awaits.

`Teardown.dfy` is the list that `Stop` and `Down` share between callbacks, with reading and storing as separate steps.
That the list ends up holding exactly the orphans is **false** in general: a callback that read early and stores late
puts back what others have taken out. `Overlap.dfy` proves the exact condition, for every acyclic graph and listing:
the orphans and nothing else remain in all error-free runs iff every service with a listed container is ordered with
all others by what they await, and nobody awaits it or nothing it awaits, directly or not, awaits two others. Both ways
to fail are built as schedules: one through two services that do not await each other, one through a repeated callback
below a service whose late store is read by a callback above it. `HandedOnce.dfy` proves when each container is given
to one callback only: iff no service with a listed container may be called twice. Callbacks that never overlap leave
the orphans and hand out each container once on any graph (`Teardown.SerialLeavesTheOrphans`).

**The ECS template** (`ecs/`). `EcsTemplate.dfy` gives the writes of `convert` with every property that can hold a
reference; `EcsConvert.dfy` is the code filling the resource map. `EcsReferences.dfy`, `EcsClosedness.dfy` and
`EcsAcyclicity.dfy` prove that references stay inside the template and when they form cycles, `EcsOverwrites.dfy`
that of services whose names normalise alike the last one's resource stays. `EcsSpecified.dfy` says what each resource
has to be, property by property and without the writers; `EcsWiring.dfy` and `EcsWiredTemplate.dfy` prove that the
template is exactly that. Logical names are strings, normalised as
in the code, and kinds of resources are told apart by how their names end. `EcsLimits.dfy` has task sizes and
rolling-update percentages.

**Smaller pieces.** `Ports.dfy` and `PortTexts.dfy` (published ports as ranges and as texts that are read back),
`StackEvents.dfy`, `StackFailures.dfy` and `StackWait.dfy` (waiting for a stack), `Selection.dfy` (restricting a project
to named services).

Go maps appear as lists or sets in an arbitrary order. The network, clocks and files appear as parameters: what was
found in an AWS account, what a poll returns, whether a call is refused, whether a secret can be read.

## Model

| member | source | states |
|---|---|---|
| `DependencyGraph.Graph.NewGraph` | local/compose/dependencies.go:155-173 | the graph object represents the project: one vertex a service, edges exactly the dependencies on services of the project, Children and Parents inverse to each other |
| `DependencyGraph.Graph.AddVertex` | local/compose/dependencies.go:186-193 | a fresh unconnected vertex under its key, every other vertex untouched; the graph stays valid iff the key was free or its old vertex had no neighbour but itself |
| `DependencyGraph.Graph.AddEdge` | local/compose/dependencies.go:195-219 | fails iff an end is missing; otherwise adds exactly this edge to Children and its inverse to Parents, which stay inverse to each other, however often it is called |
| `DependencyGraph.Graph.GraphOfProject` | local/compose/dependencies.go:162-170 | the two adjacency relations of the object are the dependency relation of the project and its transpose; dependencies on unknown names are no edges |
| `DependencyGraph.Graph.UpdateStatus` | local/compose/dependencies.go:258-263 | one status changes, no other status and no edge |
| `DependencyGraph.Graph.FilterChildren` | local/compose/dependencies.go:269-284 | exactly the children with the given status |
| `DependencyGraph.Graph.FilterParents` | local/compose/dependencies.go:290-305 | exactly the parents with the given status |
| `DependencyGraph.Graph.Leaves` | local/compose/dependencies.go:225-238 | exactly the vertices without children |
| `DependencyGraph.Graph.Roots` | local/compose/dependencies.go:244-256 | exactly the vertices without parents |
| `DependencyGraph.Graph.HasCycles` | local/compose/dependencies.go:307-327 | reports a cycle iff the dependencies have one; the reported path is a walk whose last vertex occurs on it before; a negative answer yields a topological numbering |
| `DependencyGraph.Visit` | local/compose/dependencies.go:329-348 | an error names a real cycle; without one no walk from the vertex is unbounded, although what recursive calls return is thrown away; ends because the discovered path grows |
| `Digraph.RankedIsAcyclic` | local/compose/dependencies.go:307-348 | a relation with a topological numbering has no cycle |
| `Digraph.BoundedIsRanked` | local/compose/dependencies.go:345-347 | if all walks are bounded there is a topological numbering |
| `Digraph.TransposeRanks` | local/compose/dependencies.go:46-61 | acyclicity, with its numbering, carries over to the reversed direction |
| `Traversal.StepInv` | local/compose/dependencies.go:90-112 | every step of every goroutine keeps the invariant, including that an uncalled vertex with nothing unfinished before it is still on some list to be looked at |
| `Traversal.Reachable` | local/compose/dependencies.go:73-112 | the invariant holds after every schedule |
| `Traversal.OrderIsRespected` | local/compose/dependencies.go:93-107 | in every interleaving the callback runs on a vertex only after a successful call on everything it awaits; the vertices at the target status are closed under awaiting |
| `Traversal.InvokedNeedsAll` | local/compose/dependencies.go:93-107 | the same along walks: everything awaited transitively has succeeded |
| `Traversal.ReachUnderFailure` | local/compose/dependencies.go:81-112 | at rest, with any outcomes: called are exactly the vertices all of whose transitively awaited vertices succeeded, and an error is returned iff some call failed |
| `Traversal.FirstErrorIsKept` | local/compose/dependencies.go:81-88 | after any schedule the error kept is that of a goroutine iff its failure is in the schedule with no failure before it; there is none iff nothing failed |
| `Traversal.FirstErrorStays` | local/compose/dependencies.go:81-88 | once a failure is kept no later move replaces it |
| `Traversal.Completes` | local/compose/dependencies.go:81-112 | an acyclic run without failing call comes to rest only with every vertex called and at the target status |
| `Termination.StepDecreases` | local/compose/dependencies.go:90-112 | every step lowers the summed weight of the goroutines, duplicate calls included |
| `Termination.EveryScheduleEnds` | local/compose/dependencies.go:90-112 | no schedule of an acyclic graph is longer than the weight of the initial state |
| `Termination.NothingGetsStuck` | local/compose/dependencies.go:90-112 | a goroutine that has not returned can always take a step, and one that does not fail |
| `ExactlyOnce.AtomicScheduleCallsOnce` | local/compose/dependencies.go:105-107 | if recording a success and starting what follows are not interrupted, no vertex is called twice, and each once if nothing fails |
| `ExactlyOnce.SingleAwaitCallsOnce` | local/compose/dependencies.go:90-112 | if no vertex awaits two others, no interleaving calls one twice |
| `ExactlyOnce.TwoAwaitedCallTwice` | local/compose/dependencies.go:93-107 | a vertex that awaits two others is called twice, at the same time, by some failure-free schedule |
| `ExactlyOnce.RepeatedCall` | local/compose/dependencies.go:93-107 | so is one that awaits, directly or not, a vertex awaiting two others |
| `ExactlyOnce.UnrepeatedIsSingle` | local/compose/dependencies.go:90-112 | any other vertex is called once at most in every interleaving, and nobody looks at it again afterwards |
| `ExactlyOnce.OnceIffNoneBelowAwaitsTwo` | local/compose/dependencies.go:90-112 | on acyclic graphs, for each vertex: every interleaving calls it once at most iff neither it nor anything it awaits, directly or not, awaits two others |
| `ExactlyOnce.OnceIffSingleAwaited` | local/compose/dependencies.go:90-112 | on acyclic graphs every interleaving calls at most once iff no vertex awaits more than one other |
| `Visit.Step` | local/compose/dependencies.go:90-112 | a step taken on the graph object is a step of the machine, with the same statuses and goroutines afterwards |
| `Visit.RecordSuccess` | local/compose/dependencies.go:105-107 | the status recorded is the target of the direction; next are exactly the vertices that await this one |
| `Visit.Run` | local/compose/dependencies.go:79-86 | running goroutines in any order until none is left is a feasible schedule, which it reports |
| `Visit.Visit` | local/compose/dependencies.go:73-87 | refuses iff the project has a cycle, calling nothing; otherwise ends at rest after a schedule of the direction's machine and returns the error of the first goroutine that failed in it, none iff none did |
| `Visit.DependenciesFirst` | local/compose/dependencies.go:63-71 | for a project: going up dependencies come first, going down dependents come first |
| `EnsureService.NextContainerNumber` | local/compose/convergence.go:154-167 | fails iff a number label does not parse; otherwise the next number |
| `ConvergencePlan.NextNumberIsLeast` | local/compose/convergence.go:154-167 | the next number, itself positive and above every parsed one, is the least such number |
| `ConvergencePlan.ScaleIsAsked` | local/compose/convergence.go:169-185 | the scale is the configured one if that is not 0, otherwise the replicas if given, otherwise 1; it is ruled out iff a custom name is set and that number exceeds 1 |
| `EnsureService.FilterService` | local/compose/containers.go:41-50 | the containers of the service in their order |
| `EnsureService.OfServiceInOrder` | local/compose/containers.go:41-50 | every container of the service once, in the order of the listing |
| `EnsureService.FilteredIsInSync` | local/compose/convergence.go:78 | filtering a true listing of the project gives a true listing of the service |
| `EnsureService.Converger.Do` | local/compose/convergence.go:198-226 | a call that succeeds was possible and has its effect on the engine; a refused one changes nothing |
| `EnsureService.Converger.EnsureScale` | local/compose/convergence.go:44-75 | goroutines for exactly the missing or the surplus containers; fails only when some are missing and a label does not parse |
| `EnsureService.Converger.StartKept` | local/compose/convergence.go:94-117 | the goroutines for the kept containers, each given an element the loop variable holds from its iteration on |
| `EnsureService.Converger.Wait` | local/compose/convergence.go:119 | goroutines in any order with any refusals: a feasible schedule of the machine, run until all have returned |
| `EnsureService.Converger.EnsureService` | local/compose/convergence.go:77-120 | on any listing that is true of this service: rejects before any call exactly in the two error cases, in terms of the configuration's fields; if the service cannot be hashed returns with the goroutines for missing and surplus containers started and not waited for; otherwise is a complete run of the machine; success leaves exactly as many containers as the configuration asks for; other services' containers are untouched in any case |
| `EnsureService.OtherServicesKept` | local/compose/convergence.go:77-120 | whatever a run for one service does, every other service has the same containers, and a listing true of it stays true |
| `EnsureService.Converger.EnsureServices` | local/compose/create.go:65-99 | one listing that is true of every service, out of date on other containers or not; each service converged once in any order: if all succeed every service has as many containers as its configuration asks for, and containers of no service of the project are untouched |
| `EnsureService.AllShown` | local/compose/create.go:65-95 | the listing of the whole project is true of every service, and still is after orphans have been removed |
| `EnsureService.Converger.CreateMobyContainer` | local/compose/convergence.go:252-271 | creation and the connections to the networks, each of which may fail, are steps of the machine's script |
| `EnsureService.Converger.RecreateContainer` | local/compose/convergence.go:198-222 | the code as written, call by call, is a run of the machine's script to its end, each early return included; the flagging of dependents that follows is Lifecycle.ForceDependents |
| `Convergence.StepInv` | local/compose/convergence.go:44-120 | every call by every goroutine, refused or not, keeps the invariant on what each has made and what has become of every container |
| `Convergence.Reachable` | local/compose/convergence.go:44-120 | the invariant holds after every schedule |
| `ConvergencePlan.PlanAt` | local/compose/convergence.go:44-117 | the planned work position by position: creations, removals, then the kept containers |
| `ConvergencePlan.WorkFacts` | local/compose/convergence.go:44-117 | removals concern surplus, replacements and restarts kept containers, and creations numbers from the next one on |
| `ConvergencePlan.PlanStarts` | local/compose/convergence.go:77-117 | from a true listing the goroutines start on containers as they are |
| `ConvergenceResults.OthersUntouched` | local/compose/convergence.go:77-120 | at every moment of every run containers of other services are exactly as before |
| `ConvergenceResults.NewOnesAreOurs` | local/compose/convergence.go:198-226 | every new container is the service's, has its hash, and takes over a listed name and number or lies above all numbers |
| `ConvergenceResults.TakenAway` | local/compose/convergence.go:62-73 | after success surplus and replaced containers are gone |
| `ConvergenceResults.IdsAfterSuccess` | local/compose/convergence.go:77-120 | after success the service consists of the kept containers not replaced and the ones made |
| `ConvergenceResults.SuccessIsInjective` | local/compose/convergence.go:198-226 | in a successful run no container is replaced twice |
| `ConvergenceResults.CountAfterSuccess` | local/compose/convergence.go:44-120 | success leaves exactly `scale` containers, whatever the closures captured |
| `ConvergenceNumbers.NumbersStayDistinct` | local/compose/convergence.go:154-167 | distinct container numbers stay distinct |
| `Captures.FateOfKept` | local/compose/convergence.go:94-117 | for any capture: after success a kept container is gone iff a goroutine that replaces was given it, and otherwise unchanged, except that it runs if a goroutine that starts was given it |
| `Captures.ReplacementOf` | local/compose/convergence.go:198-226 | for any capture: in the iteration of every diverged container a new one is made with the name and number of the container handed out |
| `Captures.CurrentIffStaleHandedOut` | local/compose/convergence.go:94-104 | after success all containers carry the current hash iff every stale kept one was handed to a goroutine that replaces |
| `Captures.StaleLastConverges` | local/compose/convergence.go:94-104 | with the shared loop variable success still means current if the stale containers come last |
| `EnsureOutcome.FateOfListed` | local/compose/convergence.go:44-120 | after success, in terms of the listing alone: containers from the asked-for number on are gone; one before is gone iff a pass of the loop that found one out of date was given it, and otherwise as it was, except that it runs if a pass that found one exited was given it |
| `EnsureOutcome.NewOnes` | local/compose/convergence.go:122-152 | every new container has the hash of the configuration and either the name and number of a listed one or a number above all listed ones and the name made of it |
| `EnsureOutcome.NumbersAreConsecutive` | local/compose/convergence.go:49-61 | the numbers of added containers begin right after the highest listed one and leave no gap |
| `EnsureOutcome.NewOnesAreConnected` | local/compose/convergence.go:252-271 | every new container has been connected to the networks of the service |
| `EnsureOutcome.NoneGoesBeforeItsReplacement` | local/compose/convergence.go:198-222 | at every moment of every run, whatever calls are refused: a listed container within the asked-for number is gone only if a new one with its name and number is there and has been connected |
| `ServiceView.ViewOf` | local/compose/convergence.go:44-120 | however goroutines of several services interleave, what one service sees is a schedule of its own goroutines on its own containers |
| `ProjectCreate.CallsShown` | local/compose/create.go:65-99 | a listing that is true of the services of the project is true of every service that is called |
| `ProjectCreate.RepeatedCallFails` | local/compose/create.go:65-99 | a service called twice on the one listing that has containers to make or remove, or whose last kept one has diverged: some goroutine fails, whatever was captured and however all interleave |
| `ProjectCreate.CreateScales` | local/compose/create.go:65-99 | from a listing true of the services called, orphans removed since or not: if no goroutine of any call fails every service called is at its scale, however often it was called and whatever interleaved |
| `CreateMachine.CStepInv` | local/compose/create.go:97-99 | every step of Create, the traversal, calls, their goroutines and flags interleaved, keeps the invariant: each call was made once by a goroutine of the traversal with the final flag, it replaces containers iff the forcing rule says so, and has succeeded only if all its goroutines have |
| `CreateMachine.CReachable` | local/compose/create.go:97-99 | the invariant holds after any interleaving |
| `CreateMachine.XRun` | local/compose/convergence.go:224-239 | forgetting the engine, a run is one of the traversal with its flags |
| `CreateMachine.PoolRun` | local/compose/convergence.go:44-120 | forgetting the traversal, a run is a schedule of the goroutines of all its calls, willing if the engine was |
| `CreateMachine.EveryServiceAtItsScale` | local/compose/create.go:65-99 | an error-free Create of an acyclic project leaves every service with exactly as many containers as its configuration asks for: the scale, else the replicas, else one |
| `CreateMachine.ReplacesIffMust` | local/compose/convergence.go:94-104 | it replaces containers of exactly the services the forcing rule says, flags lost on the way included |
| `CreateMachine.OnlyRepeatableTwice` | local/compose/create.go:97-99 | two calls are for one service only if it, or something it awaits, directly or not, awaits two others |
| `CreateMachine.CalledTwiceFails` | local/compose/create.go:97-99 | a run at rest in which a service with containers to make or remove, or whose last kept one has diverged, was called twice has failed, whatever the engine did |
| `CreateProgress.NextStep` | local/compose/create.go:97-99 | whatever has not come to rest has a next step on a willing engine |
| `CreateProgress.RunOut` | local/compose/create.go:97-99 | every run on a willing engine can be continued to its end, and what has failed stays failed |
| `Willing.HarmonyStep` | local/compose/convergence.go:44-120 | goroutines that give different names and work on different containers, or only start them, stay so that nothing stands in the way of the next call of any of them |
| `Willing.HarmoniousSucceed` | local/compose/convergence.go:44-120 | served by an engine that refuses only impossible calls all of them succeed, however they interleave |
| `CreateExactness.UndisturbedSucceed` | local/compose/create.go:97-99 | if every service is undisturbed with the flag it finds, no call fails at any moment of any run on a willing engine |
| `CreateExactness.Lift` | local/compose/create.go:97-99 | if no run fails, every failure-free schedule of the traversal is that of a run whose calls have all succeeded or not begun |
| `CreateExactness.ReplacedDisturbs` | local/compose/convergence.go:94-117 | a container one goroutine is to replace and another one to start: the start can come too late, and some run fails |
| `CreateExactness.ClashDisturbs` | local/compose/convergence.go:94-117 | two kept containers that need work, one of them diverged: the shared loop variable can give both goroutines the same one, and then some run fails |
| `CreateExactness.RepeatedDisturbs` | local/compose/create.go:97-99 | a service that may be called twice and has more to do than to start containers: some run fails |
| `CreateExactness.SucceedsIffUndisturbed` | local/compose/create.go:65-99 | on an engine that refuses only what it must, all runs of Create, flags spreading on the way, end without error iff for every service with the flag it finds when called two kept containers that need work only have to be started, and a service that may be called twice has nothing to do but to start containers |
| `Completion.CompleteAll` | local/compose/convergence.go:44-120 | when nothing in the engine stands in the way some schedule carries out all work |
| `CaptureExactness.SomeScheduleSucceeds` | local/compose/convergence.go:44-120 | for captures that do not collide there is a successful run |
| `CaptureExactness.StaleOneIsMissed` | local/compose/convergence.go:94-104 | a stale container before an up-to-date one: a run that succeeds and leaves the stale one |
| `CaptureExactness.ConvergesIffStaleAreLast` | local/compose/convergence.go:94-104 | all successful runs converge iff no up-to-date kept container follows a diverged one |
| `Idempotence.SecondRunDoesNothingIff` | local/compose/convergence.go:77-120 | for any captures of both runs: running again on a true listing plans nothing iff every kept container was replaced, or was up to date and ran or was started |
| `Idempotence.IdempotentIff` | local/compose/convergence.go:77-120 | a second run plans nothing after every successful first one, whatever both captured, iff no up-to-date kept container follows a diverged one and none but the last has to be started |
| `Propagation.MustSetIsClosed` | local/compose/convergence.go:229-239 | the services made to recreate are closed under the forcing rule, by which a flag set later reaches only services that had extensions |
| `Propagation.MustSetIsLeast` | local/compose/convergence.go:229-239 | and lie in every closed set |
| `Propagation.FlagIsFinal` | local/compose/convergence.go:96-99 | when a service is called its flag is the final one in every interleaving: set from the start, or by a recreated service it awaits if its copy can see it |
| `Propagation.ReadsTheTruth` | local/compose/convergence.go:96-98 | when a service reads its flag everything it awaits has left its mark, in every interleaving |
| `Propagation.RecreatedIsLeastFixpoint` | local/compose/convergence.go:224-239 | only services of the least fixpoint ever recreate, and after an error-free run exactly they have |
| `Propagation.RecreatesAsMeantIff` | local/compose/convergence.go:224-239 | an error-free run recreates what it would with extensions everywhere iff each of those services that is neither stale nor flagged from the start has extensions |
| `Propagation.PlanRecreatesIff` | local/compose/convergence.go:94-104 | a plan recreates a container iff one is kept and forced or one kept is stale |
| `Lifecycle.SetDependentLifecycle` | local/compose/convergence.go:229-239 | flags exactly the dependents; their earlier copies share the flag iff they had extensions; a service without any gets a new object its copies do not see |
| `Lifecycle.ForceDependents` | local/compose/convergence.go:224 | a copy made earlier is flagged afterwards iff it was or shares its extensions with a dependent; in the project the dependents are flagged besides; with extensions of their own everywhere exactly the dependents are added |
| `Teardown.Split` | local/compose/containers.go:52-64 | what belongs to the service and what does not, both in order |
| `Teardown.Orphans` | local/compose/create.go:77 | the containers of no service of the project, in order |
| `Teardown.PartsAddUp` | local/compose/containers.go:52-64 | splitting loses and duplicates nothing |
| `Teardown.PartsInOrder` | local/compose/containers.go:52-64 | each part holds every place of the list that belongs to it once, in the order of the list |
| `Teardown.SharedList.Callback` | local/compose/stop.go:45-50 | one undisturbed callback: the service's containers handed out, the rest stored |
| `Teardown.DReachable` | local/compose/down.go:56-61 | whatever reads and stores interleave, the shared list and everything split off lack only whole services |
| `Teardown.ListLacksOnlyServed` | local/compose/down.go:56-61 | the list lacks at most services one of whose callbacks has stored, and lacks them entirely; orphans are never lost |
| `Teardown.FirstCallbackGetsAll` | local/compose/down.go:57-58 | a callback that reads before its service has stored gets exactly all its containers; any callback gets all or none |
| `Teardown.EveryServiceIsServed` | local/compose/down.go:56-61 | an error-free run has given every service all its containers |
| `Teardown.NothingIsForgotten` | local/compose/down.go:56-68 | with orphans removed afterwards every listed container is reached |
| `Overlap.IndependentIsPutBack` | local/compose/down.go:56-61 | for two services that do not await each other, one with a listed container: some failure-free schedule comes to rest with that container, already handed out, still in the list |
| `Overlap.EnclosedIsPutBack` | local/compose/down.go:56-61 | the same for a service that is awaited and awaits, not necessarily directly, one awaiting two others: a repeated callback below puts its container back for a callback above |
| `Overlap.TakenReachable` | local/compose/down.go:56-61 | for a service ordered with all others below which none awaits two: once one of its callbacks has stored nobody holds or will store a list with its containers |
| `Overlap.ToTakeReachable` | local/compose/down.go:56-61 | for a service above all others: while the list holds its containers a callback of it is still to come |
| `Overlap.OrphansRemainIffSafe` | local/compose/down.go:56-68 | all error-free runs leave exactly the orphans iff every service with a listed container is ordered with all others, and nobody awaits it or nothing it awaits, directly or not, awaits two others |
| `HandedOnce.HandedReachable` | local/compose/down.go:56-61 | a container of a service called once at most has been handed out as often as it is listed, or not yet |
| `HandedOnce.RepeatedIsHandedTwice` | local/compose/down.go:56-61 | a service that may be called twice: some failure-free schedule hands its containers to two callbacks |
| `HandedOnce.HandedOnceIffUnrepeated` | local/compose/down.go:56-68 | all error-free runs hand out every container of the project once, and nothing else, iff no service with a listed container may be called twice |
| `EcsNames.NormalizedTwice` | ecs/cloudformation.go:286 | the twice normalised task-definition name is the name it was written under |
| `EcsNames.StripPicks` | ecs/cloudformation.go:551-553 | what stays of a name is every alphanumeric character once, in order |
| `EcsNames.PortsTellApart` | ecs/cloudformation.go:293-300 | different ports of a service have different listeners, target groups and ingresses |
| `EcsReferences.SecretValueIsOwn` | ecs/cloudformation.go:309-327 | a secret is referred to by a literal or by the resource created for a secret of the project |
| `EcsReferences.NetworkWritesAreGood` | ecs/awsResources.go:333-358 | a security group and its ingress refer only to what is written |
| `EcsReferences.MountTargetIsGood` | ecs/volumes.go:33-44 | mount targets refer to written file systems and groups, lower than themselves |
| `EcsReferences.TaskRoleIsGood` | ecs/cloudformation.go:471-502 | task roles refer to written file systems and access points |
| `EcsReferences.TaskDefinitionIsGood` | ecs/convert.go:42-169 | task definitions refer to written secrets, log group, volumes and roles |
| `EcsReferences.PortWritesAreGood` | ecs/cloudformation.go:293-307 | ingresses, target groups and listeners refer to written resources of lower level |
| `EcsReferences.ServicePropertiesAreGood` | ecs/cloudformation.go:258-287 | all properties of a service refer to written resources below the services |
| `EcsReferences.ScalingIsGood` | ecs/autoscaling.go:63-126 | scaling resources refer to their written service, cluster and each other, downwards |
| `EcsReferences.CapacityWriteIsGood` | ecs/ec2.go:72-115 | the chain from cluster to instance role refers downwards to written resources |
| `EcsReferences.EveryWriteIsGood` | ecs/cloudformation.go:137-188 | every reference of every write is to a written name of a lower level, or from a service to one it depends on |
| `EcsClosedness.WrittenIsComplete` | ecs/cloudformation.go:137-188 | every name some resource may refer to is written |
| `EcsClosedness.ReferenceFacts` | ecs/cloudformation.go:137-188 | in the finished template a reference goes to a lower resource of it, or from a service to a dependency |
| `EcsClosedness.OwnResource` | ecs/cloudformation.go:258-287 | with distinct normalised names each service's own resource survives |
| `EcsClosedness.ClosedIfResolved` | ecs/cloudformation.go:137-289 | if all dependencies resolve, every Ref, GetAtt and DependsOn names a resource of the template |
| `EcsClosedness.ClosedIffResolved` | ecs/cloudformation.go:137-289 | with distinct normalised service names, only then |
| `EcsOverwrites.LastServiceStays` | ecs/cloudformation.go:258-287 | of services whose names normalise alike the template holds the resource of the last |
| `EcsOverwrites.ClosedIffLinksResolve` | ecs/cloudformation.go:137-289 | for any names: every reference names a resource of the template iff the dependencies of the last service of each normalised name do |
| `EcsAcyclicity.CyclesAreOfServices` | ecs/cloudformation.go:190-289 | everything on a cycle of references is a service |
| `EcsAcyclicity.CyclicIffLinksAre` | ecs/cloudformation.go:137-289 | for any names and dependencies: references form a cycle iff the relation from each normalised name to the names its last service depends on does |
| `EcsAcyclicity.AcyclicIff` | ecs/cloudformation.go:137-289 | with distinct normalised names references are acyclic iff the project's dependencies are |
| `EcsAcyclicity.CollidingNamesMakeACycle` | ecs/cloudformation.go:543-553 | a service that is the last of its normalised name and depends on one whose name normalises alike refers to itself in the template |
| `EcsWiring.BalancerIsWired` | ecs/awsResources.go:424-476 | the security groups of an application balancer are the groups of exactly the networks that are not internal, a network balancer has none; the type follows from whether all ports speak HTTP |
| `EcsWiring.TaskDefinitionIsRight` | ecs/convert.go:42-169 | property by property, the atoms of a task definition are the secrets, volumes, log options and roles its service names, and no others |
| `EcsWiring.ServiceIsWired` | ecs/cloudformation.go:190-289 | a service is in the groups of exactly its networks and behind exactly its target groups, and waits for exactly its listeners, the services it depends on and the mount targets of its volumes |
| `EcsWiring.PortIsRight` | ecs/cloudformation.go:209-230 | the resources of a port: a way into each network of the service, a target group, and a listener from the balancer to that target group |
| `EcsWiredTemplate.TemplateIsAsSpecified` | ecs/cloudformation.go:137-188 | the finished template has a resource under a name iff one belongs there, and each resource holds, property by property, exactly the atoms that follow from the project and the account |
| `EcsWiredTemplate.LastServiceIsWired` | ecs/cloudformation.go:258-287 | under the name of a service the template holds what the last service of that normalised name has to be |
| `EcsWiredTemplate.BalancerIsInPublicGroups` | ecs/awsResources.go:424-476 | the template has a balancer iff none is found and some service has a port; an atom is among its security groups iff all ports speak HTTP and it is the group, found or created, of a network that is not internal |
| `EcsConvert.Converter.EnsureNetworks` | ecs/awsResources.go:333-358 | groups for exactly the networks without one, each remembered by reference |
| `EcsConvert.Converter.EnsureVolumes` | ecs/awsResources.go:360-422 | file systems for exactly the volumes without one; fails iff a throughput needed does not parse |
| `EcsConvert.Converter.EnsureLoadBalancer` | ecs/awsResources.go:424-466 | writes a balancer iff none is given and some service has a port; it is in the groups of exactly the networks that are not internal if all ports speak HTTP, and in none otherwise |
| `EcsConvert.Converter.CreateSecrets` | ecs/cloudformation.go:153-158 | fails iff an own secret cannot be read; own secrets are referred to by resource from then on |
| `EcsConvert.Converter.CreateMountTargets` | ecs/volumes.go:33-44 | one mount target for every volume and subnet |
| `EcsConvert.Converter.CreateTaskRole` | ecs/cloudformation.go:471-502 | a role exactly when there is a policy to put in it |
| `EcsConvert.Converter.CreateTaskDefinition` | ecs/convert.go:42-169 | fails iff no size fits, the cpu setting does not parse or an env file cannot be read, writing nothing |
| `EcsConvert.Converter.CreatePorts` | ecs/cloudformation.go:209-230 | ingresses, target group and listener of every port, and the names the service refers to |
| `EcsConvert.Converter.CreateService` | ecs/cloudformation.go:190-289 | fails iff the task definition does or the rolling limits cannot be met; otherwise writes the service's resources in order |
| `EcsConvert.Converter.CreateAutoscalingPolicy` | ecs/autoscaling.go:37-128 | fails iff the setting does not decode, both targets are set or the maximum is missing |
| `EcsConvert.Converter.CreateCapacityProvider` | ecs/ec2.go:37-118 | extends the cluster resource already in the template, only if some service needs EC2 |
| `EcsConvert.ClusterIsThere` | ecs/ec2.go:112-115 | until then nothing has overwritten the cluster resource |
| `EcsConvert.FailsMeans` | ecs/cloudformation.go:137-188 | a conversion fails iff a throughput needed does not parse, an own secret cannot be read, a service has no size, an unreadable env file, or rolling or scaling settings that cannot be met, or machines are needed and none is known |
| `EcsConvert.Converter.Convert` | ecs/cloudformation.go:137-188 | fails exactly under those conditions; otherwise the resource map is the template the theorems speak of, with every resource that belongs there, wired as the project and the account ask, and no other |
| `EcsLimits.ToLimits` | ecs/convert.go:353-403 | with gpus reserved what is asked for is passed on in units and mebibytes; otherwise the least size Fargate offers that covers it; an error iff the cpu setting that counts does not parse or nothing covers what is asked for |
| `EcsLimits.LimitsAreAsked` | ecs/convert.go:405-426 | limits count before reservations; a thousand units of cpu for a processor, a rest dropped; an error iff the setting that counts does not parse |
| `EcsLimits.EC2IffGpu` | ecs/convert.go:572-592 | machines are needed iff the first resource of kind gpus, or without one the first device that is just a gpu, has a positive count |
| `EcsLimits.RollingLimitsMean` | ecs/cloudformation.go:341-379 | a percentage that is given is taken; others are 100 and 200 without a parallelism, and with one the share of the replicas that remains or is there, rounded down |
| `EcsLimits.LargerRequestsGetLargerSizes` | ecs/convert.go:366-402 | whoever asks for more of either gets no less of both |
| `EcsLimits.RollingLimitsRespectParallelism` | ecs/cloudformation.go:360-376 | no more replicas go down or come up at a time than the parallelism; the percentages lie around 100, equally far up to rounding |
| `Ports.CompareIsTotal` | utils/formatter/container.go:115-129 | the comparison orders any two different ports one way |
| `Ports.CompareIsTransitive` | utils/formatter/container.go:115-129 | and is transitive |
| `Ports.Sort` | utils/formatter/container.go:42-44 | in place: a sorted permutation |
| `Ports.SortedGoUp` | utils/formatter/container.go:115-129 | in a sorted list container ports go up, then addresses, then host ports |
| `Ports.KeySplits` | utils/formatter/container.go:91-98 | host and protocol without slash are read back from a key |
| `Ports.StepShows` | utils/formatter/container.go:46-80 | each pass of the loop accounts for exactly the port it looked at, unless that goes through a key and has a slash in it |
| `Ports.ShownIffSeparable` | utils/formatter/container.go:34-98 | for every list: each published port is shown exactly as often as it occurs iff no port published as it is has a slash in its host or protocol |
| `Ports.SeparatedIffNoDuplicates` | utils/formatter/container.go:68-80 | if so, ranges of a host and protocol are disjoint, increasing and cannot be merged iff no port is published twice as it is |
| `PortTexts.PortsToStrings` | utils/formatter/container.go:34-89 | the ports are sorted; for every port, as often as it is published as often do the texts returned show it when read back, iff every protocol and every host joined to a key can be read |
| `Numerals.NumberReads` | utils/formatter/container.go:91-98 | a number that is printed is read back |
| `PortTexts.ReadsBackLine` | utils/formatter/container.go:56-89 | a reader of texts, defined on strings alone, gives back host, ports and protocol of every line whose protocol has no slash |
| `PortTexts.TextsShowIffReadable` | utils/formatter/container.go:34-98 | the exact condition, for every list, under which the texts show exactly what is published |
| `PortTexts.MappedLast` | utils/formatter/container.go:68-89 | texts of ports published under another number come after all ranges |
| `StackWait.ShowEvents` | ecs/wait.go:71-106 | unknown events in order, each shown once with the progress of the operation at that time |
| `StackWait.HandlePoll` | ecs/wait.go:60-117 | one turn of the loop: events, then the check of a creation without failure, deletion if it fails |
| `StackWait.WaitStackCompletion` | ecs/wait.go:32-120 | handles the polls up to and including the first one after completion; returns the first event with an unknown id whose status ends in _FAILED, or the error of the check if that came before, none iff neither occurred; stops early only when events cannot be read or the stack cannot be deleted after its check failed first |
| `StackFailures.FailureIsFirst` | ecs/wait.go:71-117 | the failure kept after any polls, over the delivered events alone: the first unknown one whose status ends in _FAILED, or the check if that failed before |
| `StackFailures.EventsAreShownRight` | ecs/wait.go:77-106 | an event is shown as done iff its status is the completion of the operation at that time, and as an error iff it ends in _FAILED |
| `StackFailures.LeftBecause` | ecs/wait.go:60-117 | why the loop is left early |
| `StackEvents.EveryEventOnce` | ecs/wait.go:71-75 | over any polls every delivered event id is written exactly once, ignored ones never |
| `StackEvents.FailuresAreKept` | ecs/wait.go:96-102 | a recorded failure is never replaced and deletion is never left |
| `StackEvents.DeletedAtMostOnce` | ecs/wait.go:107-117 | the stack is deleted at most once, only when creating and with no failure until then; what is kept is the first failure written |
| `Selection.AddServiceNames` | cli/cmd/compose/compose.go:137-150 | for names that reach no dependency cycle: collects exactly what is requested or transitively needed; fails iff something of that is undefined |
| `Selection.Project.Filter` | cli/cmd/compose/compose.go:116-135 | keeps exactly those services, each once and in order; changes nothing on error or without names |
| `Selection.KeptInOrder` | cli/cmd/compose/compose.go:116-135 | the services kept are the wanted ones at their places, each once and in order |
| `Selection.LookupFindsFirst` | cli/cmd/compose/compose.go:137-150 | a name stands for the first service of that name |
| `Selection.RanksOfAll` | cli/cmd/compose/compose.go:137-150 | on a project without dependency cycles no requested names reach one |
| `Selection.WantedByOne` | cli/cmd/compose/compose.go:137-150 | what one name asks for: itself and what its dependencies ask for |
| `Selection.RestrictionIsClosed` | cli/cmd/compose/compose.go:116-135 | a restricted project still holds everything its services depend on |

## Left out

- Visit.Visit: the children and parents of a vertex are kept as sets of vertices instead of maps; the key is the vertex's own.
- DependencyGraph.Graph.HasCycles: the search runs on the relation read off the object, not on its pointers; nothing changes the object meanwhile.
- EnsureService.Converger.EnsureService: goroutines are started before the first of them moves; as the plan depends only on the listing, any earlier start is one of the schedules. Connecting a created container to its networks is one step of the machine, refused if one of the connections is.
- Idempotence.IdempotentIff: compares with the engine as the first run left it; that the names it may ask for are free and the labels parse is used only to build the first run that leaves something to do.
- EcsAcyclicity.AcyclicIff: assumes distinct normalised service names and dependencies on services of the project, which EcsAcyclicity.CyclicIffLinksAre does not.
- Ports.SeparatedIffNoDuplicates: assumes that no port published as it is has a slash in its host or protocol; others are not shown as what they are (Ports.ShownIffSeparable).
- EcsAcyclicity.CyclicIffLinksAre: subnet ids are taken to end in hexadecimal digits, as AWS gives them.
- EcsConvert.Converter.Convert: properties that cannot hold a reference are left out, a balancer's type excepted; volumes have to be defined in the project and machines need a cluster of the template, since the code panics otherwise.
- EcsLimits.RollingLimitsRespectParallelism: without replicas and parallelism the code divides by zero; that input is excluded.
- StackWait.WaitStackCompletion: events come in the order of their timestamps; the text of progress events is not modelled, nor what a percent sign in a reason does to the error text.
- Selection.AddServiceNames: requested names that reach a dependency cycle are excluded; the code does not end on them.
- CreateExactness.SucceedsIffUndisturbed: assumes that the names asked for are free and that the number labels of kept containers parse, and leaves out scales a custom container name rules out, for which the call fails at once.
- The removal of orphans in `Create`: when waiting for it fails, `Create` returns no error and converges nothing (local/compose/create.go:86-88), since the error returned there is that of an earlier call.
- A negative scale, on which slicing panics.
- CreateMachine.CStepInv: a call begins all its goroutines at once and reads its flag once, which is final by then (Propagation.FlagIsFinal); that a service may fail to be hashed is part of EnsureService.Converger.EnsureService only.
- Health polling, waiting for dependencies, log attachment, image building, volumes and networks of the local engine.
- The compatibility check before a conversion, overlays, and the lookups in the AWS account.
- The Azure, Kubernetes and gRPC parts, the command line, terminal output, metrics and login.
