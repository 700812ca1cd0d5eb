/** When running `ensureService` again on what it left behind decides on no call. */
module Idempotence {
  import opened ContainerEngine
  import opened Convergence
  import opened ConvergencePlan
  import opened ConvergenceResults
  import opened Captures
  import opened CaptureExactness

  /** The service as a later `up` configures it that forces nothing. */
  function Unforced(s: ServiceSpec): ServiceSpec {
    s.(forceRecreate := false)
  }

  /** What a later run looks at: a container of the service that has work left. */
  ghost predicate HasWorkLeft(r: Run, id: Id)
    requires r.Valid()
  {
    id in r.Ids() && (r.After().engine[id].hash != r.c.service.hash || r.After().engine[id].state == Exited)
  }

  /** Every kept container is given to a goroutine that replaces, or is up to date and runs or is started. */
  ghost predicate LeavesNothing(s: ServiceSpec, kept: seq<Snapshot>, capture: seq<nat>) {
    forall k :: 0 <= k < |kept| ==>
      || HandedOut(s, kept, capture, k)
      || (kept[k].info.hash == s.hash && (kept[k].info.state == Exited ==> StartedAgain(s, kept, capture, k)))
  }

  lemma PlanIsEmptyIff(s: ServiceSpec, actual: seq<Snapshot>, scale: nat, capture: seq<nat>)
    requires |actual| == scale && Capture(Kept(actual, scale), capture)
    ensures Plan(s, actual, scale, capture) == [] <==> forall k :: 0 <= k < |actual| ==> !NeedsWork(s, actual[k])
  {
    var needy := Needy(s, Kept(actual, scale));
    if needy != [] {
      assert NeedsWork(s, actual[needy[0]]);
    }
  }

  /** A true listing after success is as long as the scale and lists exactly the containers of the service. */
  lemma ListedAfterSuccess(r: Run, actual': seq<Snapshot>)
    requires r.Successful() && InSync(r.c, r.After().engine, actual')
    ensures |actual'| == r.scale
    ensures forall id :: id in r.Ids() <==> ListedAs(r, actual', id)
  {
    CountAfterSuccess(r);
    DistinctIds(actual');
    assert IdsOf(actual') == r.Ids();
  }

  ghost predicate ListedAs(r: Run, actual': seq<Snapshot>, id: Id)
    requires r.Valid()
  {
    exists k :: 0 <= k < |actual'| && actual'[k].id == id && id in r.After().engine && actual'[k].info == r.After().engine[id]
  }

  lemma NothingLeftIff(r: Run)
    requires r.Successful()
    ensures (forall id :: id in r.Ids() ==> !HasWorkLeft(r, id)) <==> LeavesNothing(r.c.service, r.KeptPart(), r.capture)
  {
    forall k: nat | k < |r.KeptPart()| && !HandedOut(r.c.service, r.KeptPart(), r.capture, k)
      ensures var x := r.KeptPart()[k];
        && x.id in r.Ids()
        && (HasWorkLeft(r, x.id) <==>
              x.info.hash != r.c.service.hash || (x.info.state == Exited && !StartedAgain(r.c.service, r.KeptPart(), r.capture, k)))
    {
      FateOfKept(r, k);
      KeptIsOurs(r, k);
    }
    forall id | HasWorkLeft(r, id)
      ensures exists k: nat :: k < |r.KeptPart()| && r.KeptPart()[k].id == id && !HandedOut(r.c.service, r.KeptPart(), r.capture, k)
    {
      OldOrNew(r, id);
      var k: nat :| k < |r.KeptPart()| && r.KeptPart()[k].id == id;
      FateOfKept(r, k);
    }
  }

  /**
   * Whatever either run's closures captured: after a successful run a second one on a true listing plans
   * nothing iff every kept container was replaced, or was up to date and ran or was started.
   */
  lemma SecondRunDoesNothingIff(r: Run, actual': seq<Snapshot>, capture': seq<nat>)
    requires r.Successful() && InSync(r.c, r.After().engine, actual') && Capture(Kept(actual', r.scale), capture')
    ensures Plan(Unforced(r.c.service), actual', r.scale, capture') == [] <==> LeavesNothing(r.c.service, r.KeptPart(), r.capture)
  {
    hide Plan;
    hide LeavesNothing;
    ListedAfterSuccess(r, actual');
    PlanIsEmptyIff(Unforced(r.c.service), actual', r.scale, capture');
    NothingLeftIff(r);
    forall k | 0 <= k < |actual'|
      ensures actual'[k].id in r.Ids() && (NeedsWork(Unforced(r.c.service), actual'[k]) <==> HasWorkLeft(r, actual'[k].id))
    {
      assert ListedAs(r, actual', actual'[k].id);
    }
    forall id | id in r.Ids()
      ensures exists k :: 0 <= k < |actual'| && actual'[k].id == id
    {
      assert ListedAs(r, actual', id);
    }
  }

  // ---------- for every capture ----------

  /** None but the last kept container has to be started. */
  predicate OnlyLastIsStopped(s: ServiceSpec, kept: seq<Snapshot>) {
    forall i :: 0 <= i < |kept| - 1 ==> !NeedsRestart(s, kept[i])
  }

  /** Every second run after every successful first one plans nothing. */
  ghost predicate Idempotent(c: Context, e: Engine, issued: set<Id>, actual: seq<Snapshot>, scale: nat) {
    forall r: Run, actual': seq<Snapshot>, capture': seq<nat> | SecondAfter(c, e, issued, actual, scale, r, actual', capture') ::
      Plan(Unforced(c.service), actual', scale, capture') == []
  }

  ghost predicate SecondAfter(c: Context, e: Engine, issued: set<Id>, actual: seq<Snapshot>, scale: nat,
                              r: Run, actual': seq<Snapshot>, capture': seq<nat>) {
    && r.Successful() && r == Run(c, e, issued, actual, scale, r.capture, r.moves)
    && InSync(c, r.After().engine, actual') && Capture(Kept(actual', scale), capture')
  }

  lemma OrderedLeavesNothing(r: Run)
    requires r.Successful() && StaleAreLast(r.c.service, r.KeptPart()) && OnlyLastIsStopped(r.c.service, r.KeptPart())
    ensures LeavesNothing(r.c.service, r.KeptPart(), r.capture)
  {
    forall k: nat | k < |r.KeptPart()|
      ensures Diverged(r.c.service, r.KeptPart()[k]) ==> HandedOut(r.c.service, r.KeptPart(), r.capture, k)
      ensures NeedsRestart(r.c.service, r.KeptPart()[k]) ==> StartedAgain(r.c.service, r.KeptPart(), r.capture, k)
    {
      if Diverged(r.c.service, r.KeptPart()[k]) {
        StaleLastForcesOwn(r, k);
      }
      assert r.capture[k] >= k;
    }
  }

  /** Every engine has a true listing of a service. */
  lemma {:induction false} SomeListing(e: Engine, ids: set<Id>) returns (list: seq<Snapshot>)
    requires ids <= e.Keys
    ensures forall k :: 0 <= k < |list| ==> list[k].id in ids && e[list[k].id] == list[k].info
    ensures forall i, k :: 0 <= i < k < |list| ==> list[i].id != list[k].id
    ensures forall id :: id in ids ==> exists k :: 0 <= k < |list| && list[k].id == id
  {
    if ids == {} {
      list := [];
    } else {
      var id :| id in ids;
      var rest := SomeListing(e, ids - {id});
      list := rest + [Snapshot(id, e[id])];
      forall x | x in ids
        ensures exists k :: 0 <= k < |list| && list[k].id == x
      {
        if x == id {
          assert list[|rest|].id == x;
        } else {
          assert x in ids - {id};
          var k :| 0 <= k < |rest| && rest[k].id == x;
          assert list[k].id == x;
        }
      }
    }
  }

  /** A first run that leaves something for a second one. */
  lemma SomethingIsLeft(c: Context, e: Engine, issued: set<Id>, actual: seq<Snapshot>, scale: nat, i: nat, k: nat)
    requires InSync(c, e, actual) && e.Keys <= issued && Accommodating(c, e, actual, scale)
    requires i < k < |Kept(actual, scale)| && !c.service.forceRecreate
    requires NeedsRestart(c.service, Kept(actual, scale)[i])
             || (Diverged(c.service, Kept(actual, scale)[i]) && !Diverged(c.service, Kept(actual, scale)[k]))
    ensures !Idempotent(c, e, issued, actual, scale)
  {
    var kept := Kept(actual, scale);
    var r := SomeScheduleSucceeds(c, e, issued, actual, scale, OwnElement(kept)[i := k]);
    assert !HandedOut(c.service, kept, r.capture, i) && !StartedAgain(c.service, kept, r.capture, i);
    var actual' := SomeListing(r.After().engine, r.Ids());
    var capture' := OwnElement(Kept(actual', scale));
    assert SecondAfter(c, e, issued, actual, scale, r, actual', capture');
    SecondRunDoesNothingIff(r, actual', capture');
  }

  /**
   * Running `ensureService` again never plans a call, whatever the closures of either run captured and
   * however the first one was scheduled, iff no kept container that is up to date follows one that has
   * diverged and none but the last has to be started.
   */
  lemma IdempotentIff(c: Context, e: Engine, issued: set<Id>, actual: seq<Snapshot>, scale: nat)
    requires InSync(c, e, actual) && e.Keys <= issued && Accommodating(c, e, actual, scale)
    ensures Idempotent(c, e, issued, actual, scale)
            <==> StaleAreLast(c.service, Kept(actual, scale)) && OnlyLastIsStopped(c.service, Kept(actual, scale))
  {
    var kept := Kept(actual, scale);
    if StaleAreLast(c.service, kept) && OnlyLastIsStopped(c.service, kept) {
      forall r: Run, actual': seq<Snapshot>, capture': seq<nat> | SecondAfter(c, e, issued, actual, scale, r, actual', capture')
        ensures Plan(Unforced(c.service), actual', scale, capture') == []
      {
        OrderedLeavesNothing(r);
        SecondRunDoesNothingIff(r, actual', capture');
      }
    } else if !StaleAreLast(c.service, kept) {
      var i, k :| 0 <= i < k < |kept| && Diverged(c.service, kept[i]) && !Diverged(c.service, kept[k]);
      SomethingIsLeft(c, e, issued, actual, scale, i, k);
    } else {
      var i :| 0 <= i < |kept| - 1 && NeedsRestart(c.service, kept[i]);
      SomethingIsLeft(c, e, issued, actual, scale, i, i + 1);
    }
  }
}
