/**
 * `Create`: the calls of `ensureService` a traversal makes, several for one service included, all on the
 * one listing taken beforehand, with the goroutines of all of them interleaved.
 */
module ProjectCreate {
  import opened Wrappers
  import opened ContainerEngine
  import opened Convergence
  import opened ConvergencePlan
  import opened ConvergenceResults
  import opened EnsureService
  import opened ServiceView

  /** One call of `ensureService`, with what its closures captured. */
  datatype ServiceCall = ServiceCall(spec: ServiceSpec, capture: seq<nat>)

  /** The call starts its goroutines: its scale is not ruled out. */
  predicate CallOk(project: string, observed: seq<Snapshot>, call: ServiceCall) {
    Scale(call.spec).Some? && Scale(call.spec).value >= 0
    && Capture(Kept(OfService(observed, project, call.spec.name), Scale(call.spec).value), call.capture)
  }

  predicate CallsOk(project: string, observed: seq<Snapshot>, calls: seq<ServiceCall>) {
    forall n :: 0 <= n < |calls| ==> CallOk(project, observed, calls[n])
  }

  function CallWork(project: string, observed: seq<Snapshot>, call: ServiceCall): seq<Work>
    requires CallOk(project, observed, call)
  {
    Plan(call.spec, OfService(observed, project, call.spec.name), Scale(call.spec).value, call.capture)
  }

  function CallJobs(project: string, observed: seq<Snapshot>, call: ServiceCall): (jobs: seq<Job>)
    requires CallOk(project, observed, call)
    ensures |jobs| == |CallWork(project, observed, call)|
  {
    Jobs(Context(project, call.spec), CallWork(project, observed, call))
  }

  lemma CallJobAt(project: string, observed: seq<Snapshot>, call: ServiceCall, t: nat)
    requires CallOk(project, observed, call) && t < |CallWork(project, observed, call)|
    ensures CallJobs(project, observed, call)[t] == Job(Context(project, call.spec), CallWork(project, observed, call)[t], 0, None, false)
  {
  }

  /** The goroutines of all calls. */
  function AllJobs(project: string, observed: seq<Snapshot>, calls: seq<ServiceCall>): seq<Job>
    requires CallsOk(project, observed, calls)
  {
    if calls == [] then []
    else AllJobs(project, observed, calls[..|calls| - 1]) + CallJobs(project, observed, calls[|calls| - 1])
  }

  /** The listing shows every service that is called as it is; of other containers it may be out of date. */
  ghost predicate Shown(e: Engine, project: string, observed: seq<Snapshot>, calls: seq<ServiceCall>) {
    forall n :: 0 <= n < |calls| ==>
      InSync(Context(project, calls[n].spec), e, OfService(observed, project, calls[n].spec.name))
  }

  lemma CallsShown(e: Engine, project: string, services: seq<ServiceSpec>, observed: seq<Snapshot>, calls: seq<ServiceCall>)
    requires ShownFrom(e, project, services, 0, observed) && forall n :: 0 <= n < |calls| ==> calls[n].spec in services
    ensures Shown(e, project, observed, calls)
  {
    forall n | 0 <= n < |calls|
      ensures InSync(Context(project, calls[n].spec), e, OfService(observed, project, calls[n].spec.name))
    {
      var j :| 0 <= j < |services| && services[j] == calls[n].spec;
    }
  }

  datatype Creation = Creation(project: string, e0: Engine, issued: set<Id>, observed: seq<Snapshot>, calls: seq<ServiceCall>, moves: seq<Move>)
  {
    ghost predicate Started() {
      && Shown(e0, project, observed, calls) && e0.Keys <= issued && CallsOk(project, observed, calls)
      && (forall m, n :: 0 <= m < |calls| && 0 <= n < |calls| && calls[m].spec.name == calls[n].spec.name ==> calls[m].spec == calls[n].spec)
    }

    ghost function Before(): State
      requires Started()
    {
      State(e0, issued, AllJobs(project, observed, calls))
    }

    ghost predicate Valid() {
      Started() && Feasible(Before(), moves)
    }

    ghost function After(): State
      requires Valid()
    {
      Exec(Before(), moves)
    }

    ghost predicate Successful() {
      Valid() && Succeeded(After())
    }
  }

  // ---------- the pool at its start ----------

  lemma CallStarts(e: Engine, project: string, observed: seq<Snapshot>, call: ServiceCall)
    requires InSync(Context(project, call.spec), e, OfService(observed, project, call.spec.name)) && CallOk(project, observed, call)
    ensures Start(e, CallJobs(project, observed, call)) && OwnWork(CallJobs(project, observed, call))
  {
    var c, actual := Context(project, call.spec), OfService(observed, project, call.spec.name);
    PlanStarts(c, e, actual, Scale(call.spec).value, call.capture);
    forall i | 0 <= i < |CallWork(project, observed, call)|
      ensures OwnContainer(CallJobs(project, observed, call)[i])
    {
      PlanAt(call.spec, actual, Scale(call.spec).value, call.capture, i);
      WorkFacts(call.spec, actual, Scale(call.spec).value, call.capture, i);
    }
  }

  lemma {:induction false} AllStart(e: Engine, project: string, observed: seq<Snapshot>, calls: seq<ServiceCall>)
    requires Shown(e, project, observed, calls) && CallsOk(project, observed, calls)
    ensures Start(e, AllJobs(project, observed, calls)) && OwnWork(AllJobs(project, observed, calls))
  {
    if calls != [] {
      var n := |calls| - 1;
      AllStart(e, project, observed, calls[..n]);
      CallStarts(e, project, observed, calls[n]);
    }
  }

  /** Where the goroutines of call `n` begin. */
  function Offset(project: string, observed: seq<Snapshot>, calls: seq<ServiceCall>, n: nat): nat
    requires CallsOk(project, observed, calls) && n <= |calls|
  {
    |AllJobs(project, observed, calls[..n])|
  }

  lemma {:induction false} JobOfCall(project: string, observed: seq<Snapshot>, calls: seq<ServiceCall>, n: nat, t: nat)
    requires CallsOk(project, observed, calls) && n < |calls| && t < |CallWork(project, observed, calls[n])|
    ensures Offset(project, observed, calls, n) + t < |AllJobs(project, observed, calls)|
    ensures AllJobs(project, observed, calls)[Offset(project, observed, calls, n) + t] == CallJobs(project, observed, calls[n])[t]
    ensures Offset(project, observed, calls, n) + t < Offset(project, observed, calls, n + 1)
  {
    hide CallOk;
    hide CallJobs;
    hide CallWork;
    assert calls[..n + 1][..n] == calls[..n];
    if n < |calls| - 1 {
      assert calls[..|calls| - 1][..n] == calls[..n];
      JobOfCall(project, observed, calls[..|calls| - 1], n, t);
    } else {
      assert calls[..n + 1] == calls;
    }
  }

  lemma {:induction false} OffsetsGrow(project: string, observed: seq<Snapshot>, calls: seq<ServiceCall>, m: nat, n: nat)
    requires CallsOk(project, observed, calls) && m <= n <= |calls|
    ensures Offset(project, observed, calls, m) <= Offset(project, observed, calls, n)
    decreases n
  {
    if m < n {
      hide AllJobs;
      OffsetsGrow(project, observed, calls, m, n - 1);
      NextOffset(project, observed, calls, n - 1);
    }
  }

  lemma NextOffset(project: string, observed: seq<Snapshot>, calls: seq<ServiceCall>, n: nat)
    requires CallsOk(project, observed, calls) && n < |calls|
    ensures Offset(project, observed, calls, n) <= Offset(project, observed, calls, n + 1)
  {
    hide CallJobs;
    assert calls[..n + 1][..n] == calls[..n];
  }

  /** Which call a goroutine is of. */
  lemma {:induction false} CallOfJob(project: string, observed: seq<Snapshot>, calls: seq<ServiceCall>, i: nat) returns (n: nat, t: nat)
    requires CallsOk(project, observed, calls) && i < |AllJobs(project, observed, calls)|
    ensures n < |calls| && t < |CallWork(project, observed, calls[n])|
    ensures i == Offset(project, observed, calls, n) + t
    ensures AllJobs(project, observed, calls)[i] == CallJobs(project, observed, calls[n])[t]
  {
    n := |calls| - 1;
    var before := AllJobs(project, observed, calls[..n]);
    if i < |before| {
      n, t := CallOfJob(project, observed, calls[..n], i);
      assert calls[..|calls| - 1][..n] == calls[..n];
    } else {
      t := i - |before|;
    }
  }

  lemma PoolFacts(k: Creation)
    requires k.Valid()
    ensures Inv(k.e0, k.After()) && SameWorks(k.Before().jobs, k.After().jobs)
  {
    AllStart(k.e0, k.project, k.observed, k.calls);
    Reachable(k.e0, k.issued, k.Before().jobs, k.moves);
  }

  // ---------- repeated calls ----------

  /** The goroutines of two calls that plan the same work. */
  lemma SamePlanned(k: Creation, m: nat, n: nat, t: nat, u: nat) returns (i: nat, j: nat)
    requires k.Started() && m < n < |k.calls| && k.calls[m].spec == k.calls[n].spec
    requires t < |CallWork(k.project, k.observed, k.calls[m])| && u < |CallWork(k.project, k.observed, k.calls[n])|
    requires CallWork(k.project, k.observed, k.calls[m])[t] == CallWork(k.project, k.observed, k.calls[n])[u]
    ensures i < |k.Before().jobs| && j < |k.Before().jobs| && i != j
    ensures k.Before().jobs[i].work == CallWork(k.project, k.observed, k.calls[m])[t]
    ensures k.Before().jobs[i].c == k.Before().jobs[j].c && k.Before().jobs[i].work == k.Before().jobs[j].work
  {
    hide CallOk;
    hide CallJobs;
    hide CallWork;
    hide Shown;
    hide OfService;
    hide Plan;
    i, j := Offset(k.project, k.observed, k.calls, m) + t, Offset(k.project, k.observed, k.calls, n) + u;
    CallJobAt(k.project, k.observed, k.calls[m], t);
    CallJobAt(k.project, k.observed, k.calls[n], u);
    JobOfCall(k.project, k.observed, k.calls, m, t);
    JobOfCall(k.project, k.observed, k.calls, n, u);
    OffsetsGrow(k.project, k.observed, k.calls, m + 1, n);
  }

  /** Two calls that both plan the same creation, removal or replacement do not both succeed. */
  lemma SameWorkFails(k: Creation, m: nat, n: nat, t: nat, u: nat)
    requires k.Valid() && m < n < |k.calls| && k.calls[m].spec == k.calls[n].spec
    requires t < |CallWork(k.project, k.observed, k.calls[m])| && u < |CallWork(k.project, k.observed, k.calls[n])|
    requires var w := CallWork(k.project, k.observed, k.calls[m])[t];
      !w.Restart? && w == CallWork(k.project, k.observed, k.calls[n])[u]
    ensures !k.Successful()
  {
    hide Inv;
    hide Plan;
    var i, j := SamePlanned(k, m, n, t, u);
    PoolFacts(k);
    SameJob(k, i, j);
    TwiceFails(k.e0, k.After(), i, j);
  }

  lemma SameJob(k: Creation, i: nat, j: nat)
    requires k.Valid() && SameWorks(k.Before().jobs, k.After().jobs) && i < |k.Before().jobs| && j < |k.Before().jobs|
    requires k.Before().jobs[i].c == k.Before().jobs[j].c && k.Before().jobs[i].work == k.Before().jobs[j].work
    ensures i < |k.After().jobs| && j < |k.After().jobs|
    ensures k.After().jobs[i].work == k.Before().jobs[i].work
    ensures k.After().jobs[i].c == k.After().jobs[j].c && k.After().jobs[i].work == k.After().jobs[j].work
  {
  }

  lemma TwiceFails(e0: Engine, s: State, i: nat, j: nat)
    requires Inv(e0, s) && i < |s.jobs| && j < |s.jobs| && i != j
    requires s.jobs[i].c == s.jobs[j].c && s.jobs[i].work == s.jobs[j].work && !s.jobs[i].work.Restart?
    ensures !Succeeded(s)
  {
    assert JobOk(e0, s.engine, s.jobs[i]) && JobOk(e0, s.engine, s.jobs[j]);
    if Succeeded(s) {
      PairApart(e0, s, i, j);
    }
  }

  /** A call that has more to do than to start containers: some are missing or surplus, or the last kept one has diverged. */
  predicate HasLastingWork(project: string, observed: seq<Snapshot>, spec: ServiceSpec) {
    var actual := OfService(observed, project, spec.name);
    Scale(spec).Some? && Scale(spec).value >= 0 &&
    var scale: nat := Scale(spec).value;
    var kept := Kept(actual, scale);
    Missing(actual, scale) > 0 || Surplus(actual, scale) != [] || (kept != [] && Diverged(spec, kept[|kept| - 1]))
  }

  /** Such a call plans one piece of work that does not depend on what its closures captured. */
  lemma LastingWork(project: string, observed: seq<Snapshot>, call: ServiceCall) returns (t: nat)
    requires CallOk(project, observed, call) && HasLastingWork(project, observed, call.spec)
    ensures t < |CallWork(project, observed, call)| && CallWork(project, observed, call)[t] == LastingWorkOf(project, observed, call.spec)
  {
    var actual, scale := OfService(observed, project, call.spec.name), Scale(call.spec).value;
    var kept := Kept(actual, scale);
    if Missing(actual, scale) > 0 || Surplus(actual, scale) != [] {
      t := 0;
    } else {
      var last := |kept| - 1;
      var n :| 0 <= n < |Needy(call.spec, kept)| && Needy(call.spec, kept)[n] == last;
      t := KeptStart(actual, scale) + n;
      assert call.capture[last] == last;
    }
    PlanAt(call.spec, actual, scale, call.capture, t);
  }

  function LastingWorkOf(project: string, observed: seq<Snapshot>, spec: ServiceSpec): (w: Work)
    requires HasLastingWork(project, observed, spec)
    ensures !w.Restart?
  {
    var actual, scale: nat := OfService(observed, project, spec.name), Scale(spec).value;
    var kept := Kept(actual, scale);
    if Missing(actual, scale) > 0 then Create(NextNumber(actual))
    else if Surplus(actual, scale) != [] then Remove(Surplus(actual, scale)[0])
    else Recreate(kept[|kept| - 1])
  }

  /**
   * A service called twice that has containers to make or remove, or whose last kept one has diverged: whatever
   * the closures captured and however the goroutines interleave, some call to the engine fails.
   */
  lemma RepeatedCallFails(k: Creation, m: nat, n: nat)
    requires k.Valid() && m < n < |k.calls| && k.calls[m].spec.name == k.calls[n].spec.name
    requires HasLastingWork(k.project, k.observed, k.calls[m].spec)
    ensures !k.Successful()
  {
    var t := LastingWork(k.project, k.observed, k.calls[m]);
    var u := LastingWork(k.project, k.observed, k.calls[n]);
    SameWorkFails(k, m, n, t, u);
  }

  // ---------- what one service sees ----------

  lemma {:induction false} AllMine(jobs: seq<Job>, project: string, service: string)
    ensures (forall i :: 0 <= i < |jobs| ==> Mine(jobs[i], project, service)) ==> MineOf(jobs, project, service) == jobs
    ensures (forall i :: 0 <= i < |jobs| ==> !Mine(jobs[i], project, service)) ==> MineOf(jobs, project, service) == []
  {
    if jobs != [] {
      AllMine(jobs[..|jobs| - 1], project, service);
    }
  }

  function CallsFor(calls: seq<ServiceCall>, service: string): seq<ServiceCall> {
    if calls == [] then []
    else
      var n := |calls| - 1;
      var rest := CallsFor(calls[..n], service);
      if calls[n].spec.name == service then rest + [calls[n]] else rest
  }

  lemma {:induction false} CallsForFacts(calls: seq<ServiceCall>, service: string)
    ensures forall x :: x in CallsFor(calls, service) <==> x in calls && x.spec.name == service
  {
    if calls != [] {
      CallsForFacts(calls[..|calls| - 1], service);
      assert calls == calls[..|calls| - 1] + [calls[|calls| - 1]];
    }
  }

  lemma CallsForOk(project: string, observed: seq<Snapshot>, calls: seq<ServiceCall>, service: string)
    requires CallsOk(project, observed, calls)
    ensures CallsOk(project, observed, CallsFor(calls, service))
  {
    CallsForFacts(calls, service);
    forall n | 0 <= n < |CallsFor(calls, service)|
      ensures CallOk(project, observed, CallsFor(calls, service)[n])
    {
      assert CallsFor(calls, service)[n] in calls;
    }
  }

  lemma ShownFor(e: Engine, project: string, observed: seq<Snapshot>, calls: seq<ServiceCall>, service: string)
    requires Shown(e, project, observed, calls)
    ensures Shown(e, project, observed, CallsFor(calls, service))
  {
    CallsForFacts(calls, service);
    forall n | 0 <= n < |CallsFor(calls, service)|
      ensures InSync(Context(project, CallsFor(calls, service)[n].spec), e, OfService(observed, project, CallsFor(calls, service)[n].spec.name))
    {
      assert CallsFor(calls, service)[n] in calls;
    }
  }

  lemma MineOfCall(project: string, observed: seq<Snapshot>, call: ServiceCall, service: string)
    requires CallOk(project, observed, call)
    ensures MineOf(CallJobs(project, observed, call), project, service)
            == if call.spec.name == service then CallJobs(project, observed, call) else []
  {
    AllMine(CallJobs(project, observed, call), project, service);
  }

  lemma {:induction false} MineOfAll(project: string, observed: seq<Snapshot>, calls: seq<ServiceCall>, service: string)
    requires CallsOk(project, observed, calls)
    ensures CallsOk(project, observed, CallsFor(calls, service))
    ensures MineOf(AllJobs(project, observed, calls), project, service) == AllJobs(project, observed, CallsFor(calls, service))
  {
    CallsForOk(project, observed, calls, service);
    if calls != [] {
      var n := |calls| - 1;
      MineOfAll(project, observed, calls[..n], service);
      MineConcat(AllJobs(project, observed, calls[..n]), CallJobs(project, observed, calls[n]), project, service);
      MineOfCall(project, observed, calls[n], service);
      if calls[n].spec.name == service {
        assert CallsFor(calls, service)[..|CallsFor(calls[..n], service)|] == CallsFor(calls[..n], service);
      }
    }
  }

  lemma {:induction false} MineFinished(jobs: seq<Job>, project: string, service: string)
    requires forall i :: 0 <= i < |jobs| ==> Finished(jobs[i])
    ensures forall i :: 0 <= i < |MineOf(jobs, project, service)| ==> Finished(MineOf(jobs, project, service)[i])
  {
    if jobs != [] {
      MineFinished(jobs[..|jobs| - 1], project, service);
    }
  }

  lemma PartInSync(c: Context, e: Engine, actual: seq<Snapshot>)
    requires InSync(c, e, actual)
    ensures InSync(c, Part(e, c.project, c.service.name), actual)
  {
    assert ServiceIds(Part(e, c.project, c.service.name), c.project, c.service.name) == ServiceIds(e, c.project, c.service.name);
  }

  /** The run of one service alone that a successful creation is for it. */
  lemma ServiceRun(k: Creation, service: string) returns (own: seq<Move>)
    requires k.Successful()
    ensures CallsOk(k.project, k.observed, CallsFor(k.calls, service))
    ensures var v0 := State(Part(k.e0, k.project, service), k.issued, AllJobs(k.project, k.observed, CallsFor(k.calls, service)));
      Feasible(v0, own) && Succeeded(Exec(v0, own)) && Exec(v0, own).engine == Part(k.After().engine, k.project, service)
  {
    AllStart(k.e0, k.project, k.observed, k.calls);
    MineOfAll(k.project, k.observed, k.calls, service);
    own := ViewOf(k.e0, k.issued, k.Before().jobs, k.moves, k.project, service);
    MineFinished(k.After().jobs, k.project, service);
  }

  // ---------- the number of containers ----------

  /** All work is on listed containers, which are replaced or started. */
  ghost predicate OnlyKept(c: Context, jobs: seq<Job>, actual: seq<Snapshot>) {
    forall i :: 0 <= i < |jobs| ==> KeptJob(c, jobs[i], actual)
  }

  predicate KeptJob(c: Context, j: Job, actual: seq<Snapshot>) {
    j.c == c && (j.work.Recreate? || j.work.Restart?) && Listed(actual, j.work.was)
  }

  lemma ReplacedId(c: Context, e0: Engine, s: State, actual: seq<Snapshot>, id: Id)
    requires Inv(e0, s) && Succeeded(s) && OnlyKept(c, s.jobs, actual) && id in ReplacedBy(s.jobs).Values
    ensures id !in s.engine && id in IdsOf(actual)
  {
    var i :| i in ReplacedBy(s.jobs) && ReplacedBy(s.jobs)[i] == id;
    assert KeptJob(c, s.jobs[i], actual) && JobOk(e0, s.engine, s.jobs[i]) && Finished(s.jobs[i]);
  }

  lemma MadeId(c: Context, e0: Engine, s: State, actual: seq<Snapshot>, id: Id)
    requires Inv(e0, s) && OnlyKept(c, s.jobs, actual) && id in MadeBy(s.jobs).Values
    ensures id !in e0 && id in ServiceIds(s.engine, c.project, c.service.name)
  {
    var i :| i in MadeBy(s.jobs) && MadeBy(s.jobs)[i] == id;
    assert KeptJob(c, s.jobs[i], actual) && JobOk(e0, s.engine, s.jobs[i]);
  }

  lemma NewId(e0: Engine, s: State, id: Id)
    requires Inv(e0, s) && id in s.engine && id !in e0
    ensures id in MadeBy(s.jobs).Values
  {
    var i :| 0 <= i < |s.jobs| && s.jobs[i].made == Some(id);
    assert i in MadeBy(s.jobs) && MadeBy(s.jobs)[i] == id;
  }

  lemma RemainingIds(c: Context, e0: Engine, s: State, actual: seq<Snapshot>, id: Id)
    requires InSync(c, e0, actual) && Inv(e0, s) && Succeeded(s) && OnlyKept(c, s.jobs, actual)
    ensures id in ServiceIds(s.engine, c.project, c.service.name)
            <==> id in (IdsOf(actual) - ReplacedBy(s.jobs).Values) + MadeBy(s.jobs).Values
    ensures id in MadeBy(s.jobs).Values ==> id !in IdsOf(actual)
    ensures id in ReplacedBy(s.jobs).Values ==> id in IdsOf(actual)
  {
    hide Inv;
    hide OnlyKept;
    hide Succeeded;
    hide ReplacedBy;
    hide MadeBy;
    if id in ReplacedBy(s.jobs).Values {
      ReplacedId(c, e0, s, actual, id);
    }
    if id in MadeBy(s.jobs).Values {
      MadeId(c, e0, s, actual, id);
    }
    if id in e0 {
      OldId(c, e0, s, actual, id);
    } else if id in s.engine {
      NewId(e0, s, id);
    }
  }

  lemma OldId(c: Context, e0: Engine, s: State, actual: seq<Snapshot>, id: Id)
    requires InSync(c, e0, actual) && Inv(e0, s) && OnlyKept(c, s.jobs, actual) && id in e0
    ensures id in s.engine ==> s.engine[id].project == e0[id].project && s.engine[id].service == e0[id].service
    ensures id in IdsOf(actual) <==> Belongs(e0[id], c.project, c.service.name)
    ensures id !in s.engine ==> id in ReplacedBy(s.jobs).Values
  {
    assert FateOk(e0, s, id);
    assert Belongs(e0[id], c.project, c.service.name) ==> id in ServiceIds(e0, c.project, c.service.name);
    if id !in s.engine {
      var i :| 0 <= i < |s.jobs| && TakesAway(s.jobs[i].work, id);
      assert KeptJob(c, s.jobs[i], actual);
      assert i in ReplacedBy(s.jobs) && ReplacedBy(s.jobs)[i] == id;
    }
  }

  lemma PairApart(e0: Engine, s: State, i: nat, k: nat)
    requires Inv(e0, s) && Succeeded(s) && i < |s.jobs| && k < |s.jobs| && i != k
    ensures Apart(s.jobs[i], s.jobs[k]) && Finished(s.jobs[i]) && Finished(s.jobs[k])
  {
  }

  lemma KeptInjective(c: Context, e0: Engine, s: State, actual: seq<Snapshot>)
    requires Inv(e0, s) && Succeeded(s) && OnlyKept(c, s.jobs, actual)
    ensures Injective(ReplacedBy(s.jobs)) && Injective(MadeBy(s.jobs))
  {
    hide Inv;
    hide OnlyKept;
    forall i, k | i in ReplacedBy(s.jobs) && k in ReplacedBy(s.jobs) && i != k
      ensures ReplacedBy(s.jobs)[i] != ReplacedBy(s.jobs)[k]
    {
      PairApart(e0, s, i, k);
    }
    forall i, k | i in MadeBy(s.jobs) && k in MadeBy(s.jobs) && i != k
      ensures MadeBy(s.jobs)[i] != MadeBy(s.jobs)[k]
    {
      PairApart(e0, s, i, k);
    }
  }

  lemma MakersReplace(c: Context, e0: Engine, s: State, actual: seq<Snapshot>)
    requires Inv(e0, s) && Succeeded(s) && OnlyKept(c, s.jobs, actual)
    ensures MadeBy(s.jobs).Keys == ReplacedBy(s.jobs).Keys
  {
    forall i: nat | i < |s.jobs|
      ensures s.jobs[i].made.Some? <==> s.jobs[i].work.Recreate?
    {
      assert KeptJob(c, s.jobs[i], actual) && JobOk(e0, s.engine, s.jobs[i]) && Finished(s.jobs[i]);
    }
  }

  /** However often containers are replaced, each by one call, their number stays. */
  lemma CountStays(c: Context, e0: Engine, s: State, actual: seq<Snapshot>)
    requires InSync(c, e0, actual) && Inv(e0, s) && Succeeded(s) && OnlyKept(c, s.jobs, actual)
    ensures |ServiceIds(s.engine, c.project, c.service.name)| == |actual|
  {
    hide Inv;
    hide OnlyKept;
    hide Succeeded;
    hide ReplacedBy;
    hide MadeBy;
    forall id: Id
      ensures id in ServiceIds(s.engine, c.project, c.service.name)
              <==> id in (IdsOf(actual) - ReplacedBy(s.jobs).Values) + MadeBy(s.jobs).Values
      ensures id in MadeBy(s.jobs).Values ==> id !in IdsOf(actual)
      ensures id in ReplacedBy(s.jobs).Values ==> id in IdsOf(actual)
    {
      RemainingIds(c, e0, s, actual, id);
    }
    var replaced, made := ReplacedBy(s.jobs).Values, MadeBy(s.jobs).Values;
    assert ServiceIds(s.engine, c.project, c.service.name) == (IdsOf(actual) - replaced) + made;
    KeptInjective(c, e0, s, actual);
    MakersReplace(c, e0, s, actual);
    InjectiveSize(ReplacedBy(s.jobs));
    InjectiveSize(MadeBy(s.jobs));
    DistinctIds(actual);
    Sizes(IdsOf(actual), replaced, made);
  }

  /** Nothing is missing and nothing surplus. */
  predicate AtScale(project: string, observed: seq<Snapshot>, spec: ServiceSpec) {
    Scale(spec).Some? && Scale(spec).value == |OfService(observed, project, spec.name)|
  }

  lemma {:induction false} PoolIsKept(project: string, observed: seq<Snapshot>, calls: seq<ServiceCall>, spec: ServiceSpec)
    requires CallsOk(project, observed, calls) && AtScale(project, observed, spec) && forall x :: x in calls ==> x.spec == spec
    ensures OnlyKept(Context(project, spec), AllJobs(project, observed, calls), OfService(observed, project, spec.name))
  {
    forall i | 0 <= i < |AllJobs(project, observed, calls)|
      ensures KeptJob(Context(project, spec), AllJobs(project, observed, calls)[i], OfService(observed, project, spec.name))
    {
      var n, t := CallOfJob(project, observed, calls, i);
      assert calls[n] in calls;
      var actual := OfService(observed, project, spec.name);
      PlanAt(spec, actual, |actual|, calls[n].capture, t);
      WorkFacts(spec, actual, |actual|, calls[n].capture, t);
    }
  }

  /** A service at its scale, called any number of times. */
  lemma StaysAtScale(k: Creation, n: nat)
    requires k.Successful() && n < |k.calls| && AtScale(k.project, k.observed, k.calls[n].spec)
    ensures |ServiceIds(k.After().engine, k.project, k.calls[n].spec.name)| == Scale(k.calls[n].spec).value
  {
    var spec := k.calls[n].spec;
    var c, e0, mine := Context(k.project, spec), Part(k.e0, k.project, spec.name), CallsFor(k.calls, spec.name);
    var own := ServiceRun(k, spec.name);
    var jobs := AllJobs(k.project, k.observed, mine);
    var s := Exec(State(e0, k.issued, jobs), own);
    ViewInv(k, spec.name, own);
    AllSameSpec(k, n);
    PoolIsKept(k.project, k.observed, mine, spec);
    StaysKept(c, jobs, s.jobs, OfService(k.observed, k.project, spec.name));
    PartInSync(c, k.e0, OfService(k.observed, k.project, spec.name));
    CountStays(c, e0, s, OfService(k.observed, k.project, spec.name));
    PartHasAll(k.After().engine, k.project, spec.name);
  }

  lemma StaysKept(c: Context, jobs: seq<Job>, jobs': seq<Job>, actual: seq<Snapshot>)
    requires OnlyKept(c, jobs, actual) && SameWorks(jobs, jobs')
    ensures OnlyKept(c, jobs', actual)
  {
    forall i | 0 <= i < |jobs'|
      ensures KeptJob(c, jobs'[i], actual)
    {
      assert KeptJob(c, jobs[i], actual);
    }
  }

  lemma PartHasAll(e: Engine, project: string, service: string)
    ensures ServiceIds(Part(e, project, service), project, service) == ServiceIds(e, project, service)
  {
  }

  lemma AllSameSpec(k: Creation, n: nat)
    requires k.Valid() && n < |k.calls|
    ensures forall x :: x in CallsFor(k.calls, k.calls[n].spec.name) ==> x.spec == k.calls[n].spec
  {
    CallsForFacts(k.calls, k.calls[n].spec.name);
  }

  /** The invariant of the pool, as the service sees it. */
  lemma ViewInv(k: Creation, service: string, own: seq<Move>)
    requires k.Valid() && CallsOk(k.project, k.observed, CallsFor(k.calls, service))
    requires var v0 := State(Part(k.e0, k.project, service), k.issued, AllJobs(k.project, k.observed, CallsFor(k.calls, service)));
      Feasible(v0, own)
    ensures var v0 := State(Part(k.e0, k.project, service), k.issued, AllJobs(k.project, k.observed, CallsFor(k.calls, service)));
      Inv(v0.engine, Exec(v0, own)) && SameWorks(v0.jobs, Exec(v0, own).jobs)
  {
    var e, jobs := Part(k.e0, k.project, service), AllJobs(k.project, k.observed, CallsFor(k.calls, service));
    forall n | 0 <= n < |CallsFor(k.calls, service)|
      ensures CallsFor(k.calls, service)[n].spec.name == service
    {
      CallsForFacts(k.calls, service);
      assert CallsFor(k.calls, service)[n] in CallsFor(k.calls, service);
    }
    ShownFor(k.e0, k.project, k.observed, k.calls, service);
    AllStartOnPart(k.e0, k.project, k.observed, CallsFor(k.calls, service), service);
    Reachable(e, k.issued, jobs, own);
  }

  lemma {:induction false} AllStartOnPart(e: Engine, project: string, observed: seq<Snapshot>, calls: seq<ServiceCall>, service: string)
    requires Shown(e, project, observed, calls) && CallsOk(project, observed, calls)
    requires forall n :: 0 <= n < |calls| ==> calls[n].spec.name == service
    ensures Start(Part(e, project, service), AllJobs(project, observed, calls))
  {
    AllStart(e, project, observed, calls);
    forall i | 0 <= i < |AllJobs(project, observed, calls)|
      ensures Current(Part(e, project, service), AllJobs(project, observed, calls)[i].work)
    {
      var n, t := CallOfJob(project, observed, calls, i);
      assert OwnContainer(AllJobs(project, observed, calls)[i]);
    }
  }

  // ---------- a service called once ----------

  /** The only call for a service. */
  lemma {:induction false} OnlyCall(calls: seq<ServiceCall>, n: nat)
    requires n < |calls| && forall m :: 0 <= m < |calls| && m != n ==> calls[m].spec.name != calls[n].spec.name
    ensures CallsFor(calls, calls[n].spec.name) == [calls[n]]
  {
    var last := |calls| - 1;
    if n == last {
      NoCall(calls[..last], calls[n].spec.name);
    } else {
      OnlyCall(calls[..last], n);
    }
  }

  lemma {:induction false} NoCall(calls: seq<ServiceCall>, service: string)
    requires forall m :: 0 <= m < |calls| ==> calls[m].spec.name != service
    ensures CallsFor(calls, service) == []
  {
    if calls != [] {
      NoCall(calls[..|calls| - 1], service);
    }
  }

  lemma CalledOnce(k: Creation, n: nat)
    requires k.Successful() && n < |k.calls|
    requires forall m :: 0 <= m < |k.calls| && m != n ==> k.calls[m].spec.name != k.calls[n].spec.name
    ensures |ServiceIds(k.After().engine, k.project, k.calls[n].spec.name)| == Scale(k.calls[n].spec).value
  {
    var call := k.calls[n];
    var c, actual := Context(k.project, call.spec), OfService(k.observed, k.project, call.spec.name);
    var own := ServiceRun(k, call.spec.name);
    OnlyCall(k.calls, n);
    assert AllJobs(k.project, k.observed, [call]) == CallJobs(k.project, k.observed, call);
    PartInSync(c, k.e0, actual);
    var r := Run(c, Part(k.e0, k.project, call.spec.name), k.issued, actual, Scale(call.spec).value, call.capture, own);
    CountAfterSuccess(r);
    PartHasAll(k.After().engine, k.project, call.spec.name);
  }

  /**
   * If no goroutine of any call fails, every service that was called has exactly as many containers as it is
   * scaled to, however often it was called, whatever was captured and however everything interleaved.
   */
  lemma CreateScales(k: Creation, n: nat)
    requires k.Successful() && n < |k.calls|
    ensures |ServiceIds(k.After().engine, k.project, k.calls[n].spec.name)| == Scale(k.calls[n].spec).value
  {
    if AtScale(k.project, k.observed, k.calls[n].spec) {
      StaysAtScale(k, n);
    } else {
      forall m: nat | m < |k.calls| && m != n
        ensures k.calls[m].spec.name != k.calls[n].spec.name
      {
        CalledOnlyOnce(k, m, n);
      }
      CalledOnce(k, n);
    }
  }

  lemma CalledOnlyOnce(k: Creation, m: nat, n: nat)
    requires k.Successful() && m < |k.calls| && n < |k.calls| && m != n && !AtScale(k.project, k.observed, k.calls[n].spec)
    ensures k.calls[m].spec.name != k.calls[n].spec.name
  {
    if k.calls[m].spec.name == k.calls[n].spec.name {
      assert HasLastingWork(k.project, k.observed, k.calls[n].spec);
      RepeatedCallFails(k, if m < n then m else n, if m < n then n else m);
    }
  }
}
