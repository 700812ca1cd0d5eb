/**
 * `ensureService` and what it calls, as they change the engine: each method is tied to the machine of
 * module Convergence, so what is proved of every schedule holds of every execution of these methods.
 */
module EnsureService {
  import opened Wrappers
  import opened Sequences
  import opened ContainerEngine
  import opened Convergence
  import opened ConvergencePlan
  import opened ConvergenceResults

  /** `nextContainerNumber`: fails exactly when some label is not a number. */
  method NextContainerNumber(actual: seq<Snapshot>) returns (next: Option<int>)
    ensures next == if AllParsable(actual) then Some(NextNumber(actual)) else None
  {
    var max := 0;
    for i := 0 to |actual|
      invariant AllParsable(actual[..i]) && max + 1 == NextNumber(actual[..i])
    {
      var n := actual[i].info.number;
      if n == None {
        assert !AllParsable(actual);
        return None;
      }
      assert actual[..i + 1][..i] == actual[..i];
      if n.value > max {
        max := n.value;
      }
    }
    assert actual[..|actual|] == actual;
    return Some(max + 1);
  }

  /** `Containers.filter` with `isService`: the service's containers, in order. */
  method FilterService(observed: seq<Snapshot>, project: string, service: string) returns (filtered: seq<Snapshot>)
    ensures filtered == OfService(observed, project, service)
  {
    filtered := [];
    for i := 0 to |observed|
      invariant filtered == OfService(observed[..i], project, service)
    {
      assert observed[..i + 1][..i] == observed[..i];
      if Belongs(observed[i].info, project, service) {
        filtered := filtered + [observed[i]];
      }
    }
    assert observed[..|observed|] == observed;
  }

  function OfService(observed: seq<Snapshot>, project: string, service: string): seq<Snapshot> {
    if observed == [] then []
    else
      var n := |observed| - 1;
      var rest := OfService(observed[..n], project, service);
      if Belongs(observed[n].info, project, service) then rest + [observed[n]] else rest
  }

  /** The service's containers, all of them, once each and in the order of the listing. */
  lemma {:induction false} OfServiceInOrder(observed: seq<Snapshot>, project: string, service: string) returns (at: seq<nat>)
    ensures PickedAt(OfService(observed, project, service), observed, at)
    ensures forall i: nat :: i in at <==> i < |observed| && observed[i].info.project == project && observed[i].info.service == service
  {
    if observed == [] {
      at := [];
    } else {
      var n := |observed| - 1;
      at := OfServiceInOrder(observed[..n], project, service);
      OneMorePicked(OfService(observed[..n], project, service), observed, at, n);
      if observed[n].info.project == project && observed[n].info.service == service {
        at := at + [n];
      }
    }
  }

  /** A listing of a whole project: every container of it, once, as it is. */
  ghost predicate ProjectListing(e: Engine, project: string, observed: seq<Snapshot>) {
    && (forall k :: 0 <= k < |observed| ==> observed[k].id in e && e[observed[k].id] == observed[k].info)
    && (forall i, k :: 0 <= i < k < |observed| ==> observed[i].id != observed[k].id)
    && (forall id :: id in e && e[id].project == project ==> ListedId(observed, id))
  }

  ghost predicate ListedId(list: seq<Snapshot>, id: Id) {
    exists k :: 0 <= k < |list| && list[k].id == id
  }

  /** What filtering keeps, and that it keeps each container once. */
  lemma {:induction false} OfServiceKeeps(observed: seq<Snapshot>, project: string, service: string)
    ensures forall x :: x in OfService(observed, project, service) <==> x in observed && Belongs(x.info, project, service)
    ensures (forall i, k :: 0 <= i < k < |observed| ==> observed[i].id != observed[k].id) ==>
              forall i, k :: 0 <= i < k < |OfService(observed, project, service)| ==>
                OfService(observed, project, service)[i].id != OfService(observed, project, service)[k].id
  {
    if observed != [] {
      var n := |observed| - 1;
      OfServiceKeeps(observed[..n], project, service);
      var rest := OfService(observed[..n], project, service);
      assert observed == observed[..n] + [observed[n]];
      assert forall i :: 0 <= i < |rest| ==> rest[i] in observed[..n];
    }
  }

  lemma FilteredIsInSync(c: Context, e: Engine, observed: seq<Snapshot>)
    requires ProjectListing(e, c.project, observed)
    ensures InSync(c, e, OfService(observed, c.project, c.service.name))
  {
    var actual := OfService(observed, c.project, c.service.name);
    OfServiceKeeps(observed, c.project, c.service.name);
    forall k | 0 <= k < |actual|
      ensures actual[k].id in e && e[actual[k].id] == actual[k].info
    {
      assert actual[k] in observed;
    }
    forall id | id in ServiceIds(e, c.project, c.service.name)
      ensures exists k :: 0 <= k < |actual| && actual[k].id == id
    {
      assert ListedId(observed, id);
      var k :| 0 <= k < |observed| && observed[k].id == id;
      assert observed[k] in actual;
    }
  }

  lemma NoMoves(s0: State)
    ensures Feasible(s0, []) && Exec(s0, []) == s0
  {
  }

  /** A goroutine after its next call. */
  function Next(j: Job, ok: bool, call: Call): Job {
    if !ok then j.(failed := true)
    else j.(pc := j.pc + 1, made := if call.CreateCall? then Some(call.id) else j.made)
  }

  /** The id a create call gives out is the one of the move. */
  lemma CreatesAsTold(j: Job, newId: Id)
    requires !Ended(j) && j.pc < |Script(j, newId)|
    ensures NextCall(j, newId).CreateCall? ==> NextCall(j, newId).id == newId
  {
  }

  /** A step of the only goroutine. */
  lemma AloneStep(s: State, j: Job, ok: bool, newId: Id, s': State)
    requires s.jobs == [j] && !Ended(j) && !Unparsable(j) && j.pc < |Script(j, newId)|
    requires var call := NextCall(j, newId);
      && s'.jobs == [Next(j, ok, call)]
      && (ok ==> Possible(s.engine, call) && s'.engine == Perform(s.engine, call))
      && (ok ==> (call.CreateCall? ==> call.id !in s.issued))
      && (ok ==> s'.issued == if call.CreateCall? then s.issued + {call.id} else s.issued)
      && (!ok ==> s'.engine == s.engine && s'.issued == s.issued && (call.ConnectCall? ==> j.c.service.networks > 0))
    ensures Enabled(s, Move(0, ok, newId)) && Apply(s, Move(0, ok, newId)) == s'
  {
    CreatesAsTold(j, newId);
    assert Apply(s, Move(0, ok, newId)).jobs == s'.jobs;
  }

  /** How many calls a goroutine makes if none is refused. */
  function Steps(w: Work): nat {
    match w case Create(_) => 2 case Remove(_) => 2 case Recreate(_) => 5 case Restart(_) => 1
  }

  function Left(j: Job): nat {
    if j.failed || j.pc >= Steps(j.work) then 0 else Steps(j.work) - j.pc
  }

  ghost function TotalLeft(jobs: seq<Job>): nat {
    if jobs == [] then 0 else TotalLeft(jobs[..|jobs| - 1]) + Left(jobs[|jobs| - 1])
  }

  lemma {:induction false} OneFewer(jobs: seq<Job>, i: nat, j: Job)
    requires i < |jobs| && Left(j) < Left(jobs[i])
    ensures TotalLeft(jobs[i := j]) < TotalLeft(jobs)
    decreases |jobs|
  {
    var n := |jobs| - 1;
    if i == n {
      assert jobs[i := j][..n] == jobs[..n];
    } else {
      assert jobs[i := j][..n] == jobs[..n][i := j];
      OneFewer(jobs[..n], i, j);
    }
  }

  predicate WithinScript(jobs: seq<Job>) {
    forall i :: 0 <= i < |jobs| ==> jobs[i].pc <= Steps(jobs[i].work)
  }

  predicate InRange(kept: seq<Snapshot>, capture: seq<nat>) {
    |capture| <= |kept| && forall k :: 0 <= k < |capture| ==> k <= capture[k] < |kept|
  }

  /** What the loop has started after as many iterations as there are captured positions. */
  function FirstWork(s: ServiceSpec, kept: seq<Snapshot>, capture: seq<nat>): seq<Work>
    requires InRange(kept, capture)
  {
    if capture == [] then []
    else
      var n := |capture| - 1;
      var rest := FirstWork(s, kept, capture[..n]);
      if Diverged(s, kept[n]) then rest + [Recreate(kept[capture[n]])]
      else if kept[n].info.state == Exited then rest + [Restart(kept[capture[n]])]
      else rest
  }

  lemma JobsSnoc(c: Context, works: seq<Work>, w: Work)
    ensures Jobs(c, works + [w]) == Jobs(c, works) + [Job(c, w, 0, None, false)]
  {
  }

  lemma JobsConcat(c: Context, a: seq<Work>, b: seq<Work>)
    ensures Jobs(c, a + b) == Jobs(c, a) + Jobs(c, b)
  {
  }

  lemma NeedySnoc(s: ServiceSpec, kept: seq<Snapshot>, n: nat)
    requires n < |kept|
    ensures Needy(s, kept[..n + 1]) == if Diverged(s, kept[n]) || kept[n].info.state == Exited then Needy(s, kept[..n]) + [n] else Needy(s, kept[..n])
  {
    assert kept[..n + 1][..n] == kept[..n];
  }

  lemma {:induction false} FirstIsNeedy(s: ServiceSpec, kept: seq<Snapshot>, capture: seq<nat>, t: nat)
    requires InRange(kept, capture)
    ensures |FirstWork(s, kept, capture)| == |Needy(s, kept[..|capture|])|
    ensures t < |FirstWork(s, kept, capture)| ==>
              var n := Needy(s, kept[..|capture|])[t];
              FirstWork(s, kept, capture)[t] == if Diverged(s, kept[n]) then Recreate(kept[capture[n]]) else Restart(kept[capture[n]])
  {
    if capture != [] {
      hide Diverged;
      hide Needy;
      var n := |capture| - 1;
      var before := FirstWork(s, kept, capture[..n]);
      assert kept[..|capture[..n]|] == kept[..n];
      FirstIsNeedy(s, kept, capture[..n], t);
      NeedySnoc(s, kept, n);
      if t < |before| {
        assert FirstWork(s, kept, capture)[t] == before[t];
        assert Needy(s, kept[..n + 1])[t] == Needy(s, kept[..n])[t];
      }
    }
  }

  lemma FirstIsKept(s: ServiceSpec, kept: seq<Snapshot>, capture: seq<nat>)
    requires Capture(kept, capture)
    ensures FirstWork(s, kept, capture) == KeptWork(s, kept, capture)
  {
    assert kept[..|capture|] == kept;
    FirstIsNeedy(s, kept, capture, 0);
    forall t | 0 <= t < |FirstWork(s, kept, capture)|
      ensures FirstWork(s, kept, capture)[t] == KeptWork(s, kept, capture)[t]
    {
      FirstIsNeedy(s, kept, capture, t);
    }
  }

  /** What `ensureScale` starts. */
  function ScaleWork(actual: seq<Snapshot>, scale: nat): seq<Work> {
    CreateWork(actual, scale) + RemoveWork(Surplus(actual, scale))
  }

  /** A run on what this listing shows of the service, from this engine. */
  ghost predicate IsRunOf(r: Run, c: Context, e0: Engine, issued: set<Id>, observed: seq<Snapshot>) {
    && r.Valid() && r.c == c && r.e0 == e0 && r.issued == issued
    && r.actual == OfService(observed, c.project, c.service.name) && Scale(c.service) == Some(r.scale)
  }

  /** What holds of every run that has come to its end. */
  lemma Outcome(r: Run)
    requires r.Valid()
    ensures r.Successful() <==> Succeeded(r.After())
    ensures r.Successful() ==> |r.Ids()| == r.scale
    ensures forall id :: id in r.e0 && !Belongs(r.e0[id], r.c.project, r.c.service.name) ==>
              id in r.After().engine && r.After().engine[id] == r.e0[id]
  {
    if r.Successful() {
      CountAfterSuccess(r);
    }
    forall id | id in r.e0 && !Belongs(r.e0[id], r.c.project, r.c.service.name)
      ensures id in r.After().engine && r.After().engine[id] == r.e0[id]
    {
      OthersUntouched(r, id);
    }
  }

  /** Another service has the same containers after a run as before, and a true listing of it stays true. */
  lemma OtherServicesKept(r: Run, c: Context, observed: seq<Snapshot>)
    requires r.Valid() && c.project == r.c.project && c.service.name != r.c.service.name
    ensures ServiceIds(r.After().engine, c.project, c.service.name) == ServiceIds(r.e0, c.project, c.service.name)
    ensures InSync(c, r.e0, observed) ==> InSync(c, r.After().engine, observed)
  {
    forall id: Id
      ensures id in ServiceIds(r.After().engine, c.project, c.service.name) <==> id in ServiceIds(r.e0, c.project, c.service.name)
      ensures id in ServiceIds(r.e0, c.project, c.service.name) ==> id in r.After().engine && r.After().engine[id] == r.e0[id]
    {
      OtherServiceKept(r, c, id);
    }
    if InSync(c, r.e0, observed) {
      forall k | 0 <= k < |observed|
        ensures observed[k].id in r.After().engine && r.After().engine[observed[k].id] == observed[k].info
      {
        assert observed[k].id in ServiceIds(r.e0, c.project, c.service.name);
      }
    }
  }

  lemma OtherServiceKept(r: Run, c: Context, id: Id)
    requires r.Valid() && c.project == r.c.project && c.service.name != r.c.service.name
    ensures id in ServiceIds(r.After().engine, c.project, c.service.name) <==> id in ServiceIds(r.e0, c.project, c.service.name)
    ensures id in ServiceIds(r.e0, c.project, c.service.name) ==> id in r.After().engine && r.After().engine[id] == r.e0[id]
  {
    if id in r.e0 {
      FateFacts(r, id);
      if !Belongs(r.e0[id], r.c.project, r.c.service.name) {
        OthersUntouched(r, id);
      }
    } else if id in r.After().engine {
      NewOnesAreOurs(r, id);
    }
  }

  /** The listing shows every one of these services as it is. */
  ghost predicate ShownFrom(e: Engine, project: string, services: seq<ServiceSpec>, from: nat, observed: seq<Snapshot>) {
    forall j :: from <= j < |services| ==>
      InSync(Context(project, services[j]), e, OfService(observed, project, services[j].name))
  }

  /** Every one of these services has as many containers as it is scaled to. */
  ghost predicate Scaled(e: Engine, project: string, services: seq<ServiceSpec>) {
    forall j :: 0 <= j < |services| ==> Asks(services[j], |ServiceIds(e, project, services[j].name)|)
  }

  predicate OfOneOf(x: Container, project: string, services: seq<ServiceSpec>) {
    exists j :: 0 <= j < |services| && Belongs(x, project, services[j].name)
  }

  predicate DistinctlyNamed(services: seq<ServiceSpec>) {
    forall i, j :: 0 <= i < j < |services| ==> services[i].name != services[j].name
  }

  /**
   * A listing of the whole project shows them all, and still does once orphans have been removed: containers
   * that are of none of these services.
   */
  lemma AllShown(e: Engine, e': Engine, project: string, services: seq<ServiceSpec>, observed: seq<Snapshot>)
    requires ProjectListing(e, project, observed) && OrphansRemoved(e, e', project, services)
    ensures ShownFrom(e', project, services, 0, observed)
  {
    forall j | 0 <= j < |services|
      ensures InSync(Context(project, services[j]), e', OfService(observed, project, services[j].name))
    {
      FilteredIsInSync(Context(project, services[j]), e, observed);
      StillInSync(Context(project, services[j]), e, e', OfService(observed, project, services[j].name));
    }
  }

  /** Some containers that are of none of these services have been removed, nothing else has changed. */
  ghost predicate OrphansRemoved(e: Engine, e': Engine, project: string, services: seq<ServiceSpec>) {
    && (forall id :: id in e' ==> id in e && e'[id] == e[id])
    && (forall id :: id in e && OfOneOf(e[id], project, services) ==> id in e')
  }

  lemma StillInSync(c: Context, e: Engine, e': Engine, actual: seq<Snapshot>)
    requires InSync(c, e, actual) && forall id :: id in e' ==> id in e && e'[id] == e[id]
    requires forall id :: id in e && Belongs(e[id], c.project, c.service.name) ==> id in e'
    ensures InSync(c, e', actual)
  {
    forall id | id in ServiceIds(e', c.project, c.service.name)
      ensures exists k :: 0 <= k < |actual| && actual[k].id == id
    {
      assert id in ServiceIds(e, c.project, c.service.name);
    }
  }

  /** A run on one of the services keeps the listing true of those still to come. */
  lemma StillShown(r: Run, services: seq<ServiceSpec>, i: nat, observed: seq<Snapshot>)
    requires r.Valid() && i < |services| && DistinctlyNamed(services) && r.c.service == services[i]
    requires ShownFrom(r.e0, r.c.project, services, i + 1, observed)
    ensures ShownFrom(r.After().engine, r.c.project, services, i + 1, observed)
  {
    hide InSync;
    forall j | i + 1 <= j < |services|
      ensures InSync(Context(r.c.project, services[j]), r.After().engine, OfService(observed, r.c.project, services[j].name))
    {
      OtherServicesKept(r, Context(r.c.project, services[j]), OfService(observed, r.c.project, services[j].name));
    }
  }

  /** A successful one leaves one more service at its scale, and the others as they are. */
  lemma OneMoreScaled(r: Run, services: seq<ServiceSpec>, i: nat)
    requires r.Successful() && i < |services| && DistinctlyNamed(services)
    requires r.c.service == services[i] && Scale(services[i]) == Some(r.scale) && Scaled(r.e0, r.c.project, services[..i])
    ensures Scaled(r.After().engine, r.c.project, services[..i + 1])
  {
    CountAfterSuccess(r);
    ScaleIsAsked(services[i]);
    forall j | 0 <= j < i
      ensures Asks(services[j], |ServiceIds(r.After().engine, r.c.project, services[j].name)|)
    {
      assert services[..i][j] == services[j];
      OtherServicesKept(r, Context(r.c.project, services[j]), []);
    }
  }

  /** One service being converged: the engine, and the error group's goroutines. */
  class Converger {
    var engine: Engine
    var issued: set<Id>
    var jobs: seq<Job>

    ghost function Now(): State
      reads this
    {
      State(engine, issued, jobs)
    }

    constructor (engine: Engine, issued: set<Id>)
      ensures Now() == State(engine, issued, [])
    {
      this.engine, this.issued, jobs := engine, issued, [];
    }

    /** A call to the engine, which may refuse any call and has to refuse an impossible one. */
    method Do(call: Call) returns (ok: bool)
      modifies this`engine, this`issued
      ensures ok ==> Possible(old(engine), call) && engine == Perform(old(engine), call)
      ensures ok ==> (call.CreateCall? ==> call.id !in old(issued))
      ensures ok ==> issued == if call.CreateCall? then old(issued) + {call.id} else old(issued)
      ensures !ok ==> engine == old(engine) && issued == old(issued)
    {
      ok := *;
      if !Possible(engine, call) || (call.CreateCall? && call.id in issued) {
        ok := false;
      }
      if ok {
        engine := Perform(engine, call);
        if call.CreateCall? {
          issued := issued + {call.id};
        }
      }
    }

    /** The loop that connects a new container to the service's networks. */
    method Connect(networks: nat, id: Id) returns (ok: bool)
      modifies this`engine, this`issued
      ensures engine == old(engine) && issued == old(issued) && (networks == 0 ==> ok)
    {
      ok := true;
      for n := 0 to networks
        invariant ok && engine == old(engine) && issued == old(issued)
      {
        ok := Do(ConnectCall(id));
        if !ok {
          return;
        }
      }
    }

    /** What a goroutine does next, on behalf of a service. */
    method Carry(c: Context, call: Call) returns (ok: bool)
      modifies this`engine, this`issued
      ensures ok ==> Possible(old(engine), call) && engine == Perform(old(engine), call)
      ensures ok ==> (call.CreateCall? ==> call.id !in old(issued))
      ensures ok ==> issued == if call.CreateCall? then old(issued) + {call.id} else old(issued)
      ensures !ok ==> engine == old(engine) && issued == old(issued) && (call.ConnectCall? ==> c.service.networks > 0)
    {
      if call.ConnectCall? {
        ok := Connect(c.service.networks, call.id);
      } else {
        ok := Do(call);
      }
    }

    /** The next step of goroutine `i`. */
    method StepJob(i: nat) returns (m: Move)
      requires i < |jobs| && !Ended(jobs[i]) && WithinScript(jobs)
      modifies this
      ensures Enabled(old(Now()), m) && Now() == Apply(old(Now()), m)
      ensures WithinScript(jobs) && TotalLeft(jobs) < TotalLeft(old(jobs))
    {
      var j := jobs[i];
      var newId: Id := *;
      var ok := false;
      var call := NextCall(j, newId);
      if !Unparsable(j) {
        ok := Carry(j.c, call);
      }
      m := Move(i, ok, newId);
      var j' := Next(j, ok, call);
      CreatesAsTold(j, newId);
      OneFewer(jobs, i, j');
      jobs := jobs[i := j'];
    }

    /** `errgroup.Wait`: the goroutines run in any order until all have returned. */
    method Wait() returns (ok: bool, ghost moves: seq<Move>)
      requires WithinScript(jobs)
      modifies this
      ensures Feasible(old(Now()), moves) && Now() == Exec(old(Now()), moves)
      ensures forall i :: 0 <= i < |jobs| ==> Ended(jobs[i])
      ensures ok <==> Succeeded(Now())
    {
      moves := [];
      while exists i :: 0 <= i < |jobs| && !Ended(jobs[i])
        invariant WithinScript(jobs)
        invariant Feasible(old(Now()), moves) && Now() == Exec(old(Now()), moves)
        decreases TotalLeft(jobs)
      {
        var i :| 0 <= i < |jobs| && !Ended(jobs[i]);
        var m := StepJob(i);
        Extend(old(Now()), moves, m);
        moves := moves + [m];
      }
      ok := forall i :: 0 <= i < |jobs| ==> Finished(jobs[i]);
    }

    /** `ensureScale`: goroutines for the missing containers or for the surplus, and what is left of the listing. */
    method EnsureScale(c: Context, actual: seq<Snapshot>, scale: nat) returns (ok: bool, kept: seq<Snapshot>)
      modifies this`jobs
      ensures ok <==> |actual| >= scale || AllParsable(actual)
      ensures !ok ==> jobs == [] && kept == actual
      ensures ok ==> kept == Kept(actual, scale)
      ensures ok ==> jobs == Jobs(c, ScaleWork(actual, scale))
    {
      kept, jobs := actual, [];
      if |actual| < scale {
        var next := NextContainerNumber(actual);
        if next == None {
          return false, actual;
        }
        for i := 0 to scale - |actual|
          invariant |jobs| == i
          invariant forall k :: 0 <= k < i ==> jobs[k] == Job(c, Create(next.value + k), 0, None, false)
        {
          jobs := jobs + [Job(c, Create(next.value + i), 0, None, false)];
        }
      }
      if |actual| > scale {
        for i := scale to |actual|
          invariant |jobs| == i - scale
          invariant forall k :: 0 <= k < i - scale ==> jobs[k] == Job(c, Remove(actual[scale + k]), 0, None, false)
        {
          jobs := jobs + [Job(c, Remove(actual[i]), 0, None, false)];
        }
        kept := actual[..scale];
      }
      ok := true;
    }

    /** The loop over the kept containers; `capture` is what its closures will find in the loop's variable. */
    method StartKept(c: Context, kept: seq<Snapshot>) returns (capture: seq<nat>)
      modifies this`jobs
      ensures Capture(kept, capture)
      ensures jobs == old(jobs) + Jobs(c, KeptWork(c.service, kept, capture))
    {
      capture := [];
      for i := 0 to |kept|
        invariant |capture| == i && InRange(kept, capture)
        invariant jobs == old(jobs) + Jobs(c, FirstWork(c.service, kept, capture))
      {
        var later: nat := *;
        if !(i <= later < |kept|) {
          later := i;
        }
        ghost var before := FirstWork(c.service, kept, capture);
        capture := capture + [later];
        assert capture[..i] == capture[..|capture| - 1];
        assert capture[..|capture| - 1] == capture[..i];
        if Diverged(c.service, kept[i]) {
          JobsSnoc(c, before, Recreate(kept[later]));
          jobs := jobs + [Job(c, Recreate(kept[later]), 0, None, false)];
        } else if kept[i].info.state == Exited {
          JobsSnoc(c, before, Restart(kept[later]));
          jobs := jobs + [Job(c, Restart(kept[later]), 0, None, false)];
        }
      }
      FirstIsKept(c.service, kept, capture);
    }

    /**
     * `ensureService` on a listing that shows the service's containers as they are. It fails before any call
     * when a custom container name rules the scale out, or when containers are missing and a number label
     * does not parse. When the service cannot be hashed it fails with the goroutines for missing and surplus
     * containers started and not waited for. Otherwise what it does is a run of the machine to its end.
     */
    method EnsureService(c: Context, observed: seq<Snapshot>, hashable: bool) returns (ok: bool, ghost r: Option<Run>)
      requires InSync(c, engine, OfService(observed, c.project, c.service.name)) && engine.Keys <= issued
      requires Scale(c.service).Some? ==> Scale(c.service).value >= 0
      modifies this
      ensures r.None? <==> Refuses(c.service, OfService(observed, c.project, c.service.name)) || !hashable
      ensures r.None? ==> !ok && engine == old(engine) && issued == old(issued)
      ensures r.None? && !Refuses(c.service, OfService(observed, c.project, c.service.name)) ==>
                exists n: nat :: Asks(c.service, n) && jobs == Jobs(c, ScaleWork(OfService(observed, c.project, c.service.name), n))
      ensures r.Some? ==> IsRunOf(r.value, c, old(engine), old(issued), observed) && r.value.After() == Now()
      ensures r.Some? ==> forall i :: 0 <= i < |jobs| ==> Ended(jobs[i])
      ensures ok <==> r.Some? && r.value.Successful()
      ensures ok ==> Asks(c.service, |ServiceIds(engine, c.project, c.service.name)|)
      ensures forall id :: id in old(engine) && !Belongs(old(engine)[id], c.project, c.service.name) ==>
                id in engine && engine[id] == old(engine)[id]
    {
      var actual := FilterService(observed, c.project, c.service.name);
      RejectedIff(c, observed);
      var scale := Scale(c.service);
      if scale == None {
        return false, None;
      }
      var scaled, kept := EnsureScale(c, actual, scale.value);
      if !scaled || !hashable {
        return false, None;
      }
      var capture := StartKept(c, kept);
      JobsConcat(c, ScaleWork(actual, scale.value), KeptWork(c.service, kept, capture));
      ghost var moves;
      ok, moves := Wait();
      ghost var run := Run(c, old(engine), old(issued), actual, scale.value, capture, moves);
      Outcome(run);
      r := Some(run);
    }

    /**
     * `ensureService` once for every service, one after the other, all on the one listing taken at the start:
     * if no call fails each service ends with as many containers as it is scaled to. The order is any order.
     */
    method EnsureServices(project: string, services: seq<ServiceSpec>, observed: seq<Snapshot>, hashable: bool) returns (ok: bool)
      requires ShownFrom(engine, project, services, 0, observed) && engine.Keys <= issued && DistinctlyNamed(services)
      requires forall i :: 0 <= i < |services| && Scale(services[i]).Some? ==> Scale(services[i]).value >= 0
      modifies this
      ensures ok ==> Scaled(engine, project, services)
      ensures forall id :: id in old(engine) && !OfOneOf(old(engine)[id], project, services) ==> id in engine && engine[id] == old(engine)[id]
    {
      hide InSync;
      hide Plan;
      hide Feasible;
      hide OfService;
      ok := true;
      for i := 0 to |services|
        invariant ok && engine.Keys <= issued
        invariant ShownFrom(engine, project, services, i, observed) && Scaled(engine, project, services[..i])
        invariant forall id :: id in old(engine) && !OfOneOf(old(engine)[id], project, services) ==>
                    id in engine && engine[id] == old(engine)[id]
      {
        ghost var r;
        ok, r := EnsureService(Context(project, services[i]), observed, hashable);
        if !ok {
          return;
        }
        RunInv(r.value);
        StillShown(r.value, services, i, observed);
        OneMoreScaled(r.value, services, i);
      }
      assert services[..|services|] == services;
    }

    /** A call made with no other goroutine running, and the step of the machine it is. */
    method StepAlone(c: Context, ghost s0: State, ghost moves: seq<Move>, ghost j: Job, newId: Id, call: Call)
      returns (ok: bool, ghost moves': seq<Move>)
      requires Feasible(s0, moves) && Exec(s0, moves) == State(engine, issued, [j])
      requires j.c == c && !Ended(j) && !Unparsable(j) && j.pc < |Script(j, newId)| && call == NextCall(j, newId)
      modifies this`engine, this`issued
      ensures Feasible(s0, moves') && Exec(s0, moves') == State(engine, issued, [Next(j, ok, call)])
    {
      ghost var before := State(engine, issued, [j]);
      ok := Carry(c, call);
      AloneStep(before, j, ok, newId, State(engine, issued, [Next(j, ok, call)]));
      Extend(s0, moves, Move(0, ok, newId));
      moves' := moves + [Move(0, ok, newId)];
    }

    /** `createMobyContainer` for a container that is replaced: the new one, and its networks. */
    method CreateMobyContainer(c: Context, ghost s0: State, ghost moves: seq<Move>, ghost j: Job, was: Snapshot, number: int, newId: Id)
      returns (ok: bool, ghost moves': seq<Move>, ghost j': Job)
      requires Feasible(s0, moves) && Exec(s0, moves) == State(engine, issued, [j])
      requires j == Job(c, Recreate(was), 2, None, false) && was.info.number == Some(number)
      modifies this`engine, this`issued
      ensures Feasible(s0, moves') && Exec(s0, moves') == State(engine, issued, [j'])
      ensures j'.work == j.work && if ok then j' == Job(c, Recreate(was), 4, Some(newId), false) else j'.failed
    {
      ok, moves' := StepAlone(c, s0, moves, j, newId, CreateCall(newId, Fresh(c, was.info.name, number)));
      if !ok {
        j' := j.(failed := true);
        return;
      }
      j' := j.(pc := 3, made := Some(newId));
      ok, moves' := StepAlone(c, s0, moves', j', newId, ConnectCall(newId));
      j' := Next(j', ok, ConnectCall(newId));
    }

    /** `recreateContainer` with nothing running beside it, call by call as it is written. */
    method RecreateContainer(c: Context, was: Snapshot) returns (ok: bool, ghost moves: seq<Move>)
      modifies this`engine, this`issued
      ensures var s0 := State(old(engine), old(issued), [Job(c, Recreate(was), 0, None, false)]);
        && Feasible(s0, moves)
        && Exec(s0, moves).engine == engine && Exec(s0, moves).issued == issued
        && Ended(Exec(s0, moves).jobs[0]) && (ok <==> Finished(Exec(s0, moves).jobs[0]))
    {
      hide Feasible;
      hide Exec;
      ghost var j := Job(c, Recreate(was), 0, None, false);
      ghost var s0 := State(engine, issued, [j]);
      var newId: Id := *;
      NoMoves(s0);
      ok, moves := StepAlone(c, s0, [], j, newId, StopCall(was.id));
      if !ok {
        return;
      }
      j := j.(pc := 1);
      ok, moves := StepAlone(c, s0, moves, j, newId, RenameCall(was.id, TemporaryName(was)));
      if !ok {
        return;
      }
      j := j.(pc := 2);
      if was.info.number == None {
        ghost var m := Move(0, false, newId);
        Extend(s0, moves, m);
        return false, moves + [m];
      }
      ok, moves, j := CreateMobyContainer(c, s0, moves, j, was, was.info.number.value, newId);
      if !ok {
        return;
      }
      ok, moves := StepAlone(c, s0, moves, j, newId, RemoveCall(was.id));
    }
  }

  /**
   * A custom name with more than one container asked for, or fewer listed than asked for with a number label
   * that does not parse.
   */
  ghost predicate Refuses(s: ServiceSpec, actual: seq<Snapshot>) {
    exists n :: Asks(s, n) &&
      ((s.containerName != "" && n > 1) || (|actual| < n && exists k :: 0 <= k < |actual| && actual[k].info.number == None))
  }

  lemma RejectedIff(c: Context, observed: seq<Snapshot>)
    ensures Rejected(c, observed) <==> Refuses(c.service, OfService(observed, c.project, c.service.name))
    ensures Scale(c.service).Some? ==> Asks(c.service, Scale(c.service).value)
  {
    ScaleIsAsked(c.service);
  }

  /** The cases `ensureService` refuses before it calls the engine. */
  predicate Rejected(c: Context, observed: seq<Snapshot>) {
    var actual := OfService(observed, c.project, c.service.name);
    || Scale(c.service).None?
    || (|actual| < Scale(c.service).value && !AllParsable(actual))
  }
}
