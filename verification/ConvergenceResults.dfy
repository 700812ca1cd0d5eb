/** What every interleaving of `ensureService` leaves behind. */
module ConvergenceResults {
  import opened Wrappers
  import opened ContainerEngine
  import opened Convergence
  import opened ConvergencePlan

  /** An execution of `ensureService` up to some point: its inputs, what the closures captured, the schedule. */
  datatype Run = Run(c: Context, e0: Engine, issued: set<Id>, actual: seq<Snapshot>, scale: nat, capture: seq<nat>, moves: seq<Move>)
  {
    function KeptPart(): seq<Snapshot> {
      Kept(actual, scale)
    }

    ghost predicate Valid() {
      && InSync(c, e0, actual) && e0.Keys <= issued && Capture(KeptPart(), capture)
      && Feasible(State(e0, issued, Jobs(c, Plan(c.service, actual, scale, capture))), moves)
    }

    ghost function After(): State
      requires Valid()
    {
      Exec(State(e0, issued, Jobs(c, Plan(c.service, actual, scale, capture))), moves)
    }

    ghost function Ids(): set<Id>
      requires Valid()
    {
      ServiceIds(After().engine, c.project, c.service.name)
    }

    ghost predicate Successful() {
      Valid() && Succeeded(After())
    }
  }

  lemma RunInv(r: Run)
    requires r.Valid()
    ensures Inv(r.e0, r.After())
    ensures |r.After().jobs| == |Plan(r.c.service, r.actual, r.scale, r.capture)|
    ensures forall i :: 0 <= i < |r.After().jobs| ==> r.After().jobs[i].work == Plan(r.c.service, r.actual, r.scale, r.capture)[i] && r.After().jobs[i].c == r.c
  {
    PlanStarts(r.c, r.e0, r.actual, r.scale, r.capture);
    Reachable(r.e0, r.issued, Jobs(r.c, Plan(r.c.service, r.actual, r.scale, r.capture)), r.moves);
  }

  lemma RunWork(r: Run, i: nat)
    requires r.Valid()
    ensures |r.After().jobs| == PlanLength(r.c.service, r.actual, r.scale)
    ensures i < |r.After().jobs| ==> r.After().jobs[i].work == WorkAt(r.c.service, r.actual, r.scale, r.capture, i)
  {
    RunInv(r);
    PlanAt(r.c.service, r.actual, r.scale, r.capture, i);
  }

  /** Where goroutine `i`'s work comes from and what it has done. */
  lemma JobFacts(r: Run, i: nat)
    requires r.Valid() && i < |r.After().jobs|
    ensures var w := r.After().jobs[i].work;
      && JobOk(r.e0, r.After().engine, r.After().jobs[i]) && r.After().jobs[i].c == r.c
      && (w.Create? <==> i < Missing(r.actual, r.scale))
      && (w.Create? ==> w.number == NextNumber(r.actual) + i)
      && (w.Remove? ==> Listed(Surplus(r.actual, r.scale), w.was))
      && (w.Recreate? || w.Restart? ==> Listed(r.KeptPart(), w.was))
      && (!w.Create? ==> Listed(r.actual, w.was))
  {
    RunInv(r);
    RunWork(r, i);
    WorkFacts(r.c.service, r.actual, r.scale, r.capture, i);
  }

  lemma PairFacts(r: Run, i: nat, k: nat)
    requires r.Valid() && i < |r.After().jobs| && k < |r.After().jobs| && i != k
    ensures Apart(r.After().jobs[i], r.After().jobs[k])
  {
    RunInv(r);
  }

  lemma FateFacts(r: Run, id: Id)
    requires r.Valid() && id in r.e0
    ensures FateOk(r.e0, r.After(), id)
  {
    RunInv(r);
  }

  lemma MakerOf(r: Run, id: Id) returns (i: nat)
    requires r.Valid() && id in r.After().engine && id !in r.e0
    ensures i < |r.After().jobs| && r.After().jobs[i].made == Some(id)
  {
    RunInv(r);
    i :| 0 <= i < |r.After().jobs| && r.After().jobs[i].made == Some(id);
  }

  // ---------- whatever succeeds or fails ----------

  /** Containers that are not the service's stay exactly as they were, at every moment. */
  lemma OthersUntouched(r: Run, id: Id)
    requires r.Valid() && id in r.e0 && !Belongs(r.e0[id], r.c.project, r.c.service.name)
    ensures id in r.After().engine && r.After().engine[id] == r.e0[id]
  {
    var s := r.After();
    FateFacts(r, id);
    forall i | 0 <= i < |s.jobs|
      ensures !WorksOn(s.jobs[i].work, id)
    {
      JobFacts(r, i);
    }
  }

  ghost predicate ReplacementFor(x: Container, list: seq<Snapshot>) {
    exists k :: 0 <= k < |list| && x.name == list[k].info.name && x.number == list[k].info.number
  }

  /**
   * A container that was not there before is the service's, carries its configuration hash, and either
   * has the name and number of a listed container or a number above all of theirs.
   */
  lemma NewOnesAreOurs(r: Run, id: Id)
    requires r.Valid() && id in r.After().engine && id !in r.e0
    ensures var x := r.After().engine[id];
      && Belongs(x, r.c.project, r.c.service.name) && x.hash == r.c.service.hash && x.state == Created
      && (ReplacementFor(x, r.actual)
          || (x.number.Some? && NextNumber(r.actual) <= x.number.value < NextNumber(r.actual) + Missing(r.actual, r.scale)
              && x.name == ContainerName(r.c, x.number.value)))
  {
    var i := MakerOf(r, id);
    JobFacts(r, i);
  }

  // ---------- after success ----------

  function IdsOf(list: seq<Snapshot>): set<Id> {
    set k | 0 <= k < |list| :: list[k].id
  }

  function ReplacedBy(jobs: seq<Job>): map<nat, Id> {
    map i: nat | i < |jobs| && jobs[i].work.Recreate? :: jobs[i].work.was.id
  }

  function MadeBy(jobs: seq<Job>): map<nat, Id> {
    map i: nat | i < |jobs| && jobs[i].made.Some? :: jobs[i].made.value
  }

  ghost predicate Injective(m: map<nat, Id>) {
    forall i, k :: i in m && k in m && i != k ==> m[i] != m[k]
  }

  lemma {:induction false} InjectiveSize(m: map<nat, Id>)
    requires Injective(m)
    ensures |m.Values| == |m.Keys|
    decreases |m.Keys|
  {
    if m.Keys == {} {
      assert m.Values == {};
    } else {
      var i :| i in m.Keys;
      var rest := map k | k in m && k != i :: m[k];
      assert rest.Keys == m.Keys - {i};
      assert rest.Values == m.Values - {m[i]} by {
        forall x | x in m.Values && x != m[i]
          ensures x in rest.Values
        {
          var k :| k in m && m[k] == x;
          assert k in rest && rest[k] == x;
        }
        forall x | x in rest.Values
          ensures x in m.Values && x != m[i]
        {
          var k :| k in rest && rest[k] == x;
          assert k in m && m[k] == x;
        }
      }
      assert Injective(rest) by {
        forall a, b | a in rest && b in rest && a != b
          ensures rest[a] != rest[b]
        {
          assert a in m && b in m;
        }
      }
      InjectiveSize(rest);
      assert m[i] in m.Values;
    }
  }

  lemma {:induction false} DistinctIds(list: seq<Snapshot>)
    requires forall i, k :: 0 <= i < k < |list| ==> list[i].id != list[k].id
    ensures |IdsOf(list)| == |list|
  {
    if list != [] {
      var n := |list| - 1;
      DistinctIds(list[..n]);
      assert IdsOf(list) == IdsOf(list[..n]) + {list[n].id};
    }
  }

  ghost function Below(n: nat): (s: set<nat>)
    ensures |s| == n && forall i: nat :: i in s <==> i < n
  {
    if n == 0 then {} else Below(n - 1) + {n - 1}
  }

  lemma KeptAndSurplusAreApart(actual: seq<Snapshot>, scale: nat)
    requires forall i, k :: 0 <= i < k < |actual| ==> actual[i].id != actual[k].id
    ensures IdsOf(Kept(actual, scale)) !! IdsOf(Surplus(actual, scale))
  {
  }

  lemma InKeptOrSurplus(r: Run, id: Id)
    requires r.Valid() && id in r.e0
    ensures Belongs(r.e0[id], r.c.project, r.c.service.name) <==> id in IdsOf(r.KeptPart()) || id in IdsOf(Surplus(r.actual, r.scale))
  {
    if Belongs(r.e0[id], r.c.project, r.c.service.name) {
      assert id in ServiceIds(r.e0, r.c.project, r.c.service.name);
      var k :| 0 <= k < |r.actual| && r.actual[k].id == id;
      if k < |r.KeptPart()| {
        assert r.KeptPart()[k].id == id;
      } else {
        assert Surplus(r.actual, r.scale)[k - r.scale].id == id;
      }
    }
  }

  /** After success the surplus is gone, and so is every container a goroutine replaced. */
  lemma TakenAway(r: Run, id: Id)
    requires r.Successful()
    ensures id in IdsOf(Surplus(r.actual, r.scale)) || id in ReplacedBy(r.After().jobs).Values ==> id !in r.After().engine
  {
    var s := r.After();
    if id in IdsOf(Surplus(r.actual, r.scale)) {
      var k :| 0 <= k < |Surplus(r.actual, r.scale)| && Surplus(r.actual, r.scale)[k].id == id;
      var i := RemoverOf(r, k);
      JobFacts(r, i);
    } else if id in ReplacedBy(s.jobs).Values {
      var i :| i in ReplacedBy(s.jobs) && ReplacedBy(s.jobs)[i] == id;
      JobFacts(r, i);
    }
  }

  lemma RemoverOf(r: Run, k: nat) returns (i: nat)
    requires r.Valid() && k < |Surplus(r.actual, r.scale)|
    ensures i < |r.After().jobs| && r.After().jobs[i].work == Remove(Surplus(r.actual, r.scale)[k])
  {
    i := Missing(r.actual, r.scale) + k;
    RunWork(r, i);
  }

  /** A kept container nobody replaced is still there. */
  lemma StillThere(r: Run, id: Id)
    requires r.Valid() && id in IdsOf(r.KeptPart()) && id !in ReplacedBy(r.After().jobs).Values
    ensures id in r.e0 && id in r.After().engine && r.After().engine[id] == r.e0[id].(state := r.After().engine[id].state)
    ensures forall i :: 0 <= i < |r.After().jobs| ==> !TakesAway(r.After().jobs[i].work, id)
  {
    var s := r.After();
    KeptAndSurplusAreApart(r.actual, r.scale);
    forall k | 0 <= k < |r.KeptPart()|
      ensures r.KeptPart()[k].id in r.e0
    {
      assert r.KeptPart()[k] == r.actual[k];
    }
    forall i | 0 <= i < |s.jobs|
      ensures !TakesAway(s.jobs[i].work, id) && !Replaces(s.jobs[i].work, id)
    {
      JobFacts(r, i);
      assert s.jobs[i].work.Recreate? ==> i in ReplacedBy(s.jobs) && ReplacedBy(s.jobs)[i] == s.jobs[i].work.was.id;
      assert s.jobs[i].work.Remove? ==> s.jobs[i].work.was.id in IdsOf(Surplus(r.actual, r.scale));
    }
    FateFacts(r, id);
  }

  lemma NewIds(r: Run, id: Id)
    requires r.Valid()
    ensures id in MadeBy(r.After().jobs).Values <==> id in r.After().engine && id !in r.e0
    ensures id in r.After().engine && id !in r.e0 ==> id in r.Ids()
  {
    var s := r.After();
    if id in s.engine && id !in r.e0 {
      var i := MakerOf(r, id);
      assert i in MadeBy(s.jobs) && MadeBy(s.jobs)[i] == id;
      NewOnesAreOurs(r, id);
    }
    if id in MadeBy(s.jobs).Values {
      var i :| i in MadeBy(s.jobs) && MadeBy(s.jobs)[i] == id;
      JobFacts(r, i);
    }
  }

  /** After success: what is left of the kept containers, and the containers the goroutines made. */
  lemma IdsAfterSuccess(r: Run)
    requires r.Successful()
    ensures r.Ids() == (IdsOf(r.KeptPart()) - ReplacedBy(r.After().jobs).Values) + MadeBy(r.After().jobs).Values
    ensures MadeBy(r.After().jobs).Values !! r.e0.Keys
    ensures IdsOf(r.KeptPart()) <= r.e0.Keys
  {
    forall id: Id
      ensures id in r.Ids() <==> id in (IdsOf(r.KeptPart()) - ReplacedBy(r.After().jobs).Values) + MadeBy(r.After().jobs).Values
      ensures id in MadeBy(r.After().jobs).Values ==> id !in r.e0
      ensures id in IdsOf(r.KeptPart()) ==> id in r.e0
    {
      NewIds(r, id);
      TakenAway(r, id);
      assert forall k :: 0 <= k < |r.KeptPart()| ==> r.KeptPart()[k] == r.actual[k];
      if id in r.e0 {
        FateFacts(r, id);
        InKeptOrSurplus(r, id);
        if id in IdsOf(r.KeptPart()) && id !in ReplacedBy(r.After().jobs).Values {
          StillThere(r, id);
        }
      }
    }
  }

  lemma ReplacementsDiffer(r: Run, i: nat, k: nat)
    requires r.Successful() && i < |r.After().jobs| && k < |r.After().jobs| && i != k
    requires r.After().jobs[i].work.Recreate? && r.After().jobs[k].work.Recreate?
    ensures r.After().jobs[i].work.was.id != r.After().jobs[k].work.was.id
  {
    PairFacts(r, i, k);
    assert Finished(r.After().jobs[i]) && Finished(r.After().jobs[k]);
  }

  /** No container is replaced twice, and no id is given out twice. */
  lemma SuccessIsInjective(r: Run)
    requires r.Successful()
    ensures Injective(ReplacedBy(r.After().jobs)) && Injective(MadeBy(r.After().jobs))
  {
    forall i, k | i in ReplacedBy(r.After().jobs) && k in ReplacedBy(r.After().jobs) && i != k
      ensures ReplacedBy(r.After().jobs)[i] != ReplacedBy(r.After().jobs)[k]
    {
      ReplacementsDiffer(r, i, k);
    }
    forall i, k | i in MadeBy(r.After().jobs) && k in MadeBy(r.After().jobs) && i != k
      ensures MadeBy(r.After().jobs)[i] != MadeBy(r.After().jobs)[k]
    {
      PairFacts(r, i, k);
    }
  }

  /** Every replacement and every missing container was made. */
  lemma MakersAfterSuccess(r: Run)
    requires r.Successful()
    ensures MadeBy(r.After().jobs).Keys == ReplacedBy(r.After().jobs).Keys + Below(Missing(r.actual, r.scale))
    ensures ReplacedBy(r.After().jobs).Keys !! Below(Missing(r.actual, r.scale))
    ensures ReplacedBy(r.After().jobs).Values <= IdsOf(r.KeptPart())
  {
    var s := r.After();
    EnoughJobs(r);
    forall i: nat | i < |s.jobs|
      ensures s.jobs[i].made.Some? <==> s.jobs[i].work.Recreate? || s.jobs[i].work.Create?
      ensures s.jobs[i].work.Create? <==> i < Missing(r.actual, r.scale)
      ensures s.jobs[i].work.Recreate? ==> s.jobs[i].work.was.id in IdsOf(r.KeptPart())
    {
      JobFacts(r, i);
      assert Finished(s.jobs[i]);
    }
  }

  lemma EnoughJobs(r: Run)
    requires r.Valid()
    ensures |r.After().jobs| >= Missing(r.actual, r.scale)
  {
    RunInv(r);
  }

  lemma MadeCount(r: Run)
    requires r.Successful()
    ensures |MadeBy(r.After().jobs).Values| == |ReplacedBy(r.After().jobs).Values| + Missing(r.actual, r.scale)
    ensures ReplacedBy(r.After().jobs).Values <= IdsOf(r.KeptPart())
  {
    SuccessIsInjective(r);
    MakersAfterSuccess(r);
    InjectiveSize(ReplacedBy(r.After().jobs));
    InjectiveSize(MadeBy(r.After().jobs));
  }

  lemma KeptCount(r: Run)
    requires r.Valid()
    ensures |IdsOf(r.KeptPart())| + Missing(r.actual, r.scale) == r.scale
  {
    DistinctIds(r.KeptPart());
  }

  /** After success the service has exactly as many containers as it is scaled to, whatever the closures captured. */
  lemma CountAfterSuccess(r: Run)
    requires r.Successful()
    ensures |r.Ids()| == r.scale
  {
    IdsAfterSuccess(r);
    MadeCount(r);
    KeptCount(r);
    Sizes(IdsOf(r.KeptPart()), ReplacedBy(r.After().jobs).Values, MadeBy(r.After().jobs).Values);
  }

  lemma Sizes(kept: set<Id>, replaced: set<Id>, made: set<Id>)
    requires replaced <= kept && kept !! made
    ensures |(kept - replaced) + made| == |kept| - |replaced| + |made|
  {
    assert kept == (kept - replaced) + replaced;
  }
}
