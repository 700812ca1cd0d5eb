/** Which containers the goroutines of the loop really get, and when the outcome is the intended one. */
module Captures {
  import opened ContainerEngine
  import opened Convergence
  import opened ConvergencePlan
  import opened ConvergenceResults

  // ---------- which goroutine works on what ----------

  /** The goroutine started in the iteration of the kept container `k`. */
  lemma JobOfKept(r: Run, k: nat) returns (i: nat)
    requires r.Valid() && k < |r.KeptPart()| && NeedsWork(r.c.service, r.KeptPart()[k])
    ensures i < |r.After().jobs| && r.After().jobs[i].work == WorkFor(r.c.service, r.KeptPart(), r.capture, k)
    ensures KeptStart(r.actual, r.scale) <= i < PlanLength(r.c.service, r.actual, r.scale)
    ensures Iteration(r.c.service, r.actual, r.scale, i) == k
  {
    i := PlannedFor(r.c.service, r.actual, r.scale, r.capture, k);
    RunWork(r, i);
  }

  /** The kept container in whose iteration the work at this position of the plan was started. */
  function Iteration(s: ServiceSpec, actual: seq<Snapshot>, scale: nat, i: nat): nat
    requires KeptStart(actual, scale) <= i < PlanLength(s, actual, scale)
  {
    Needy(s, Kept(actual, scale))[i - KeptStart(actual, scale)]
  }

  lemma PlannedFor(s: ServiceSpec, actual: seq<Snapshot>, scale: nat, capture: seq<nat>, k: nat) returns (i: nat)
    requires Capture(Kept(actual, scale), capture) && k < |Kept(actual, scale)| && NeedsWork(s, Kept(actual, scale)[k])
    ensures KeptStart(actual, scale) <= i < PlanLength(s, actual, scale) && Iteration(s, actual, scale, i) == k
    ensures WorkAt(s, actual, scale, capture, i) == WorkFor(s, Kept(actual, scale), capture, k)
  {
    var kept := Kept(actual, scale);
    var t :| 0 <= t < |Needy(s, kept)| && Needy(s, kept)[t] == k;
    i := KeptStart(actual, scale) + t;
  }

  lemma PlannedIn(s: ServiceSpec, actual: seq<Snapshot>, scale: nat, capture: seq<nat>, i: nat) returns (n: nat)
    requires Capture(Kept(actual, scale), capture) && KeptStart(actual, scale) <= i < PlanLength(s, actual, scale)
    ensures n < |Kept(actual, scale)| && NeedsWork(s, Kept(actual, scale)[n])
    ensures WorkAt(s, actual, scale, capture, i) == WorkFor(s, Kept(actual, scale), capture, n)
  {
    n := Iteration(s, actual, scale, i);
  }

  /** The iteration in which a goroutine that works on a kept container was started. */
  lemma IterationOf(r: Run, i: nat, k: nat) returns (n: nat)
    requires r.Valid() && i < |r.After().jobs| && k < |r.KeptPart()| && WorksOn(r.After().jobs[i].work, r.KeptPart()[k].id)
    ensures n < |r.KeptPart()| && NeedsWork(r.c.service, r.KeptPart()[n]) && r.capture[n] == k
    ensures r.After().jobs[i].work == WorkFor(r.c.service, r.KeptPart(), r.capture, n)
  {
    WorkOnKept(r, i, k);
    n := PlannedIn(r.c.service, r.actual, r.scale, r.capture, i);
    RunWork(r, i);
    SameKept(r, r.capture[n], k);
  }

  lemma SameKept(r: Run, n: nat, k: nat)
    requires r.Valid() && n < |r.KeptPart()| && k < |r.KeptPart()| && r.KeptPart()[n].id == r.KeptPart()[k].id
    ensures n == k
  {
    assert r.KeptPart()[n] == r.actual[n] && r.KeptPart()[k] == r.actual[k];
  }

  /** Work on a kept container comes from the loop over the kept ones. */
  lemma WorkOnKept(r: Run, i: nat, k: nat)
    requires r.Valid() && i < |r.After().jobs| && k < |r.KeptPart()| && WorksOn(r.After().jobs[i].work, r.KeptPart()[k].id)
    ensures KeptStart(r.actual, r.scale) <= i < PlanLength(r.c.service, r.actual, r.scale)
  {
    RunWork(r, i);
    WorkFacts(r.c.service, r.actual, r.scale, r.capture, i);
    KeptAndSurplusAreApart(r.actual, r.scale);
  }

  /** A goroutine that replaces was given the kept container `k`. */
  ghost predicate HandedOut(s: ServiceSpec, kept: seq<Snapshot>, capture: seq<nat>, k: nat) {
    exists n :: 0 <= n < |kept| && n < |capture| && Diverged(s, kept[n]) && capture[n] == k
  }

  /** A goroutine that starts was given the kept container `k`. */
  ghost predicate StartedAgain(s: ServiceSpec, kept: seq<Snapshot>, capture: seq<nat>, k: nat) {
    exists n :: 0 <= n < |kept| && n < |capture| && NeedsRestart(s, kept[n]) && capture[n] == k
  }

  lemma HandedIffReplaced(r: Run, k: nat)
    requires r.Valid() && k < |r.KeptPart()|
    ensures HandedOut(r.c.service, r.KeptPart(), r.capture, k) <==> r.KeptPart()[k].id in ReplacedBy(r.After().jobs).Values
  {
    var s := r.After();
    if HandedOut(r.c.service, r.KeptPart(), r.capture, k) {
      var n :| 0 <= n < |r.KeptPart()| && Diverged(r.c.service, r.KeptPart()[n]) && r.capture[n] == k;
      var i := JobOfKept(r, n);
      assert i in ReplacedBy(s.jobs) && ReplacedBy(s.jobs)[i] == r.KeptPart()[k].id;
    }
    if r.KeptPart()[k].id in ReplacedBy(s.jobs).Values {
      var i :| i in ReplacedBy(s.jobs) && ReplacedBy(s.jobs)[i] == r.KeptPart()[k].id;
      var n := IterationOf(r, i, k);
    }
  }

  // ---------- what has become of the kept containers ----------

  /**
   * After success a kept container is gone iff some goroutine that replaces was given it; otherwise it is
   * what it was, except that it runs if some goroutine that starts was given it.
   */
  lemma FateOfKept(r: Run, k: nat)
    requires r.Successful() && k < |r.KeptPart()|
    ensures var x, s, e := r.KeptPart()[k], r.c.service, r.After().engine;
      && (x.id !in e <==> HandedOut(s, r.KeptPart(), r.capture, k))
      && (x.id in e ==> e[x.id] == x.info.(state := if StartedAgain(s, r.KeptPart(), r.capture, k) then Running else x.info.state))
  {
    HandedIffReplaced(r, k);
    TakenAway(r, r.KeptPart()[k].id);
    if !HandedOut(r.c.service, r.KeptPart(), r.capture, k) {
      RemainingKept(r, k);
    }
  }

  lemma RemainingKept(r: Run, k: nat)
    requires r.Successful() && k < |r.KeptPart()| && r.KeptPart()[k].id !in ReplacedBy(r.After().jobs).Values
    ensures var x, e := r.KeptPart()[k], r.After().engine;
      && x.id in e
      && e[x.id] == x.info.(state := if StartedAgain(r.c.service, r.KeptPart(), r.capture, k) then Running else x.info.state)
  {
    StillThere(r, r.KeptPart()[k].id);
    assert r.KeptPart()[k] == r.actual[k];
    if StartedAgain(r.c.service, r.KeptPart(), r.capture, k) {
      StartedRuns(r, k);
    } else {
      OthersStay(r, k);
    }
  }

  lemma StartedRuns(r: Run, k: nat)
    requires r.Successful() && k < |r.KeptPart()| && r.KeptPart()[k].id in r.e0 && r.KeptPart()[k].id in r.After().engine
    requires forall i :: 0 <= i < |r.After().jobs| ==> !TakesAway(r.After().jobs[i].work, r.KeptPart()[k].id)
    requires StartedAgain(r.c.service, r.KeptPart(), r.capture, k)
    ensures r.After().engine[r.KeptPart()[k].id].state == Running
  {
    var n :| 0 <= n < |r.KeptPart()| && NeedsRestart(r.c.service, r.KeptPart()[n]) && r.capture[n] == k;
    var i := JobOfKept(r, n);
    assert Finished(r.After().jobs[i]);
    FateFacts(r, r.KeptPart()[k].id);
  }

  lemma OthersStay(r: Run, k: nat)
    requires r.Successful() && k < |r.KeptPart()| && r.KeptPart()[k].id in r.e0 && r.KeptPart()[k].id in r.After().engine
    requires forall i :: 0 <= i < |r.After().jobs| ==> !TakesAway(r.After().jobs[i].work, r.KeptPart()[k].id)
    requires !StartedAgain(r.c.service, r.KeptPart(), r.capture, k)
    ensures r.After().engine[r.KeptPart()[k].id].state == r.e0[r.KeptPart()[k].id].state
  {
    FateFacts(r, r.KeptPart()[k].id);
    forall i | 0 <= i < |r.After().jobs|
      ensures !WorksOn(r.After().jobs[i].work, r.KeptPart()[k].id)
    {
      NotWorkedOn(r, i, k);
    }
  }

  lemma NotWorkedOn(r: Run, i: nat, k: nat)
    requires r.Valid() && i < |r.After().jobs| && k < |r.KeptPart()| && !TakesAway(r.After().jobs[i].work, r.KeptPart()[k].id)
    requires !StartedAgain(r.c.service, r.KeptPart(), r.capture, k)
    ensures !WorksOn(r.After().jobs[i].work, r.KeptPart()[k].id)
  {
    if WorksOn(r.After().jobs[i].work, r.KeptPart()[k].id) {
      var n := IterationOf(r, i, k);
      assert StartedAgain(r.c.service, r.KeptPart(), r.capture, k);
    }
  }

  /** In every iteration of a diverged container one is made with the name and number of the one that was handed out. */
  lemma ReplacementOf(r: Run, n: nat) returns (id: Id)
    requires r.Successful() && n < |r.KeptPart()| && Diverged(r.c.service, r.KeptPart()[n])
    ensures id in r.Ids() && id !in r.e0
    ensures var x := r.KeptPart()[r.capture[n]].info;
      && r.After().engine[id].name == x.name && r.After().engine[id].number == x.number
      && r.After().engine[id].hash == r.c.service.hash
  {
    var i := JobOfKept(r, n);
    JobFacts(r, i);
    assert Finished(r.After().jobs[i]);
    id := r.After().jobs[i].made.value;
    NewIds(r, id);
  }

  // ---------- when the outcome is the intended one ----------

  /** Every container of the service carries the current configuration hash. */
  ghost predicate AllCurrent(r: Run)
    requires r.Valid()
  {
    forall id :: id in r.Ids() ==> r.After().engine[id].hash == r.c.service.hash
  }

  /** A container of the service after success is new or a kept one. */
  lemma OldOrNew(r: Run, id: Id)
    requires r.Successful() && id in r.Ids()
    ensures id !in r.e0 ==> r.After().engine[id].hash == r.c.service.hash && r.After().engine[id].state == Created
    ensures id in r.e0 ==> exists k :: 0 <= k < |r.KeptPart()| && r.KeptPart()[k].id == id
  {
    IdsAfterSuccess(r);
    if id !in r.e0 {
      NewOnesAreOurs(r, id);
    }
  }

  /** What is left of the kept ones is of the service. */
  lemma KeptIsOurs(r: Run, k: nat)
    requires r.Successful() && k < |r.KeptPart()| && r.KeptPart()[k].id in r.After().engine
    ensures r.KeptPart()[k].id in r.Ids() && r.KeptPart()[k].id in r.e0
  {
    FateOfKept(r, k);
    assert r.KeptPart()[k] == r.actual[k];
  }

  /** After success no stale container is left iff every stale kept one was given to a goroutine that replaces. */
  lemma CurrentIffStaleHandedOut(r: Run)
    requires r.Successful()
    ensures AllCurrent(r) <==>
              forall k :: 0 <= k < |r.KeptPart()| && r.KeptPart()[k].info.hash != r.c.service.hash
                ==> HandedOut(r.c.service, r.KeptPart(), r.capture, k)
  {
    forall k: nat | k < |r.KeptPart()|
      ensures r.KeptPart()[k].id !in r.After().engine <==> HandedOut(r.c.service, r.KeptPart(), r.capture, k)
      ensures r.KeptPart()[k].id in r.After().engine ==>
                r.KeptPart()[k].id in r.Ids() && r.After().engine[r.KeptPart()[k].id].hash == r.KeptPart()[k].info.hash
    {
      FateOfKept(r, k);
      if r.KeptPart()[k].id in r.After().engine {
        KeptIsOurs(r, k);
      }
    }
    forall id | id in r.Ids()
      ensures id !in r.e0 ==> r.After().engine[id].hash == r.c.service.hash
      ensures id in r.e0 ==> exists k :: 0 <= k < |r.KeptPart()| && r.KeptPart()[k].id == id
    {
      OldOrNew(r, id);
    }
  }

  // ---------- one variable for the whole loop ----------

  /** Once one kept container has diverged, so have all later ones. */
  predicate StaleAreLast(s: ServiceSpec, kept: seq<Snapshot>) {
    forall i, k :: 0 <= i < k < |kept| && Diverged(s, kept[i]) ==> Diverged(s, kept[k])
  }

  /** Then success leaves the goroutines no choice but their own container. */
  lemma {:induction false} StaleLastForcesOwn(r: Run, k: nat)
    requires r.Successful() && StaleAreLast(r.c.service, r.KeptPart())
    requires k < |r.KeptPart()| && Diverged(r.c.service, r.KeptPart()[k])
    ensures r.capture[k] == k
    decreases |r.KeptPart()| - k
  {
    var other := r.capture[k];
    if other > k {
      StaleLastForcesOwn(r, other);
      var i := JobOfKept(r, k);
      var j := JobOfKept(r, other);
      if i != j {
        ReplacementsDiffer(r, i, j);
      }
    }
  }

  lemma StaleLastConverges(r: Run)
    requires r.Successful() && StaleAreLast(r.c.service, r.KeptPart())
    ensures AllCurrent(r)
  {
    CurrentIffStaleHandedOut(r);
    forall k | 0 <= k < |r.KeptPart()| && Diverged(r.c.service, r.KeptPart()[k])
      ensures HandedOut(r.c.service, r.KeptPart(), r.capture, k)
    {
      StaleLastForcesOwn(r, k);
      assert Diverged(r.c.service, r.KeptPart()[k]) && r.capture[k] == k;
    }
  }
}
