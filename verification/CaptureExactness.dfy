/** Exactly when `ensureService` converges for every way its closures may capture the loop variable. */
module CaptureExactness {
  import opened ContainerEngine
  import opened Convergence
  import opened ConvergencePlan
  import opened ConvergenceResults
  import opened Captures
  import opened Completion

  /** The engine has no reason to refuse what the plan may ask for: names are unique and the wanted ones are free. */
  ghost predicate Accommodating(c: Context, e: Engine, actual: seq<Snapshot>, scale: nat) {
    var next, missing, kept := NextNumber(actual), Missing(actual, scale), Kept(actual, scale);
    && UniqueNames(e) && AllParsable(kept)
    && (forall n :: next <= n < next + missing ==> !NameUsed(e, ContainerName(c, n)))
    && (forall n, m :: next <= n < m < next + missing ==> ContainerName(c, n) != ContainerName(c, m))
    && (forall k :: 0 <= k < |kept| ==> !NameUsed(e, TemporaryName(kept[k])))
    && (forall n, k :: next <= n < next + missing && 0 <= k < |kept| ==> ContainerName(c, n) != TemporaryName(kept[k]))
  }

  /** No two of the goroutines that replace a container were given the same one. */
  predicate NoSharedReplacement(s: ServiceSpec, kept: seq<Snapshot>, capture: seq<nat>)
    requires Capture(kept, capture)
  {
    forall i, k :: 0 <= i < k < |kept| && Diverged(s, kept[i]) && Diverged(s, kept[k]) ==> capture[i] != capture[k]
  }

  lemma WorkIsClear(c: Context, e: Engine, actual: seq<Snapshot>, scale: nat, capture: seq<nat>, i: nat)
    requires InSync(c, e, actual) && Accommodating(c, e, actual, scale) && Capture(Kept(actual, scale), capture)
    requires i < |Plan(c.service, actual, scale, capture)|
    ensures Clear(c, e, Plan(c.service, actual, scale, capture)[i])
  {
    PlanAt(c.service, actual, scale, capture, i);
    WorkFacts(c.service, actual, scale, capture, i);
  }

  lemma WorksAreCompatible(c: Context, e: Engine, actual: seq<Snapshot>, scale: nat, capture: seq<nat>, i: nat, k: nat)
    requires InSync(c, e, actual) && Accommodating(c, e, actual, scale) && Capture(Kept(actual, scale), capture)
    requires NoSharedReplacement(c.service, Kept(actual, scale), capture)
    requires i < |Plan(c.service, actual, scale, capture)| && k < |Plan(c.service, actual, scale, capture)| && i != k
    ensures Compatible(c, Plan(c.service, actual, scale, capture)[i], c, Plan(c.service, actual, scale, capture)[k])
  {
    var v, w := Plan(c.service, actual, scale, capture)[i], Plan(c.service, actual, scale, capture)[k];
    PlanAt(c.service, actual, scale, capture, i);
    PlanAt(c.service, actual, scale, capture, k);
    WorkFacts(c.service, actual, scale, capture, i);
    WorkFacts(c.service, actual, scale, capture, k);
    KeptAndSurplusAreApart(actual, scale);
    assert v.Remove? ==> v.was.id in IdsOf(Surplus(actual, scale));
    assert w.Remove? ==> w.was.id in IdsOf(Surplus(actual, scale));
    assert v.Recreate? ==> v.was.id in IdsOf(Kept(actual, scale));
    assert w.Recreate? ==> w.was.id in IdsOf(Kept(actual, scale));
    if v.Remove? && w.Remove? {
      RemovalsDiffer(c, actual, scale, capture, i, k);
    } else if v.Recreate? && w.Recreate? {
      PlannedReplacementsDiffer(c, actual, scale, capture, i, k);
    }
  }

  lemma RemovalsDiffer(c: Context, actual: seq<Snapshot>, scale: nat, capture: seq<nat>, i: nat, k: nat)
    requires forall a, b :: 0 <= a < b < |actual| ==> actual[a].id != actual[b].id
    requires Capture(Kept(actual, scale), capture) && i != k
    requires i < |Plan(c.service, actual, scale, capture)| && k < |Plan(c.service, actual, scale, capture)|
    requires Plan(c.service, actual, scale, capture)[i].Remove? && Plan(c.service, actual, scale, capture)[k].Remove?
    ensures Plan(c.service, actual, scale, capture)[i].was.id != Plan(c.service, actual, scale, capture)[k].was.id
  {
    RemovalAt(c.service, actual, scale, capture, i);
    RemovalAt(c.service, actual, scale, capture, k);
  }

  lemma PlannedReplacementsDiffer(c: Context, actual: seq<Snapshot>, scale: nat, capture: seq<nat>, i: nat, k: nat)
    requires forall a, b :: 0 <= a < b < |actual| ==> actual[a].id != actual[b].id
    requires Capture(Kept(actual, scale), capture) && i != k
    requires NoSharedReplacement(c.service, Kept(actual, scale), capture)
    requires i < |Plan(c.service, actual, scale, capture)| && k < |Plan(c.service, actual, scale, capture)|
    requires Plan(c.service, actual, scale, capture)[i].Recreate? && Plan(c.service, actual, scale, capture)[k].Recreate?
    ensures Plan(c.service, actual, scale, capture)[i].was.id != Plan(c.service, actual, scale, capture)[k].was.id
  {
    PlanAt(c.service, actual, scale, capture, i);
    PlanAt(c.service, actual, scale, capture, k);
    var x := ReplacementAt(c.service, actual, scale, capture, i);
    var y := ReplacementAt(c.service, actual, scale, capture, k);
    assert x != y && capture[x] != capture[y];
  }

  /** Some schedule succeeds whenever the captures do not collide. */
  lemma SomeScheduleSucceeds(c: Context, e: Engine, issued: set<Id>, actual: seq<Snapshot>, scale: nat, capture: seq<nat>) returns (r: Run)
    requires InSync(c, e, actual) && e.Keys <= issued && Accommodating(c, e, actual, scale)
    requires Capture(Kept(actual, scale), capture) && NoSharedReplacement(c.service, Kept(actual, scale), capture)
    ensures r.Successful() && r == Run(c, e, issued, actual, scale, capture, r.moves)
  {
    var plan := Plan(c.service, actual, scale, capture);
    var s0 := State(e, issued, Jobs(c, plan));
    forall i | 0 <= i < |plan|
      ensures Clear(c, e, plan[i])
    {
      WorkIsClear(c, e, actual, scale, capture, i);
    }
    forall i, k | 0 <= i < |plan| && 0 <= k < |plan| && i != k
      ensures Compatible(c, plan[i], c, plan[k])
    {
      WorksAreCompatible(c, e, actual, scale, capture, i, k);
    }
    assert Orderly(s0);
    var moves := CompleteAll(s0, []);
    r := Run(c, e, issued, actual, scale, capture, moves);
  }

  ghost predicate ConvergesForEveryCapture(c: Context, e: Engine, issued: set<Id>, actual: seq<Snapshot>, scale: nat) {
    forall capture, moves :: Run(c, e, issued, actual, scale, capture, moves).Successful()
      ==> AllCurrent(Run(c, e, issued, actual, scale, capture, moves))
  }

  /** A stale container before an up-to-date one: the goroutine may be given the latter, succeed, and leave the former. */
  lemma StaleOneIsMissed(c: Context, e: Engine, issued: set<Id>, actual: seq<Snapshot>, scale: nat, i: nat, k: nat) returns (r: Run)
    requires InSync(c, e, actual) && e.Keys <= issued && Accommodating(c, e, actual, scale)
    requires i < k < |Kept(actual, scale)|
    requires Diverged(c.service, Kept(actual, scale)[i]) && !Diverged(c.service, Kept(actual, scale)[k])
    ensures r.Successful() && r == Run(c, e, issued, actual, scale, r.capture, r.moves) && !AllCurrent(r)
  {
    hide Accommodating;
    hide InSync;
    hide Plan;
    hide AllCurrent;
    r := SomeScheduleSucceeds(c, e, issued, actual, scale, OwnElement(Kept(actual, scale))[i := k]);
    CurrentIffStaleHandedOut(r);
    assert !HandedOut(c.service, r.KeptPart(), r.capture, i);
  }

  /**
   * `ensureService` converges for every capture and every schedule iff no kept container that is up to
   * date follows one that has diverged.
   */
  lemma ConvergesIffStaleAreLast(c: Context, e: Engine, issued: set<Id>, actual: seq<Snapshot>, scale: nat)
    requires InSync(c, e, actual) && e.Keys <= issued && Accommodating(c, e, actual, scale)
    ensures ConvergesForEveryCapture(c, e, issued, actual, scale) <==> StaleAreLast(c.service, Kept(actual, scale))
  {
    if StaleAreLast(c.service, Kept(actual, scale)) {
      forall capture, moves | Run(c, e, issued, actual, scale, capture, moves).Successful()
        ensures AllCurrent(Run(c, e, issued, actual, scale, capture, moves))
      {
        StaleLastConverges(Run(c, e, issued, actual, scale, capture, moves));
      }
    } else {
      var i, k :| 0 <= i < k < |Kept(actual, scale)| && Diverged(c.service, Kept(actual, scale)[i]) && !Diverged(c.service, Kept(actual, scale)[k]);
      var r := StaleOneIsMissed(c, e, issued, actual, scale, i, k);
    }
  }
}
