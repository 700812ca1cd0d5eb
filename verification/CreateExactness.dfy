/** Exactly when `Create` ends without error on an engine that refuses only what it must. */
module CreateExactness {
  import opened Wrappers
  import opened Digraph
  import T = Traversal
  import X = ExactlyOnce
  import P = Propagation
  import opened ContainerEngine
  import opened Convergence
  import opened ConvergencePlan
  import opened ConvergenceResults
  import opened EnsureService
  import opened ProjectCreate
  import opened Completion
  import opened CaptureExactness
  import opened Willing
  import opened CreateMachine
  import opened CreateProgress

  /** The names a call for the service gives to containers it makes or is about to replace. */
  function NewNames(w: Setting, v: Name): set<string>
    requires v in w.specs && Scalable(w.specs[v])
  {
    var next := NextNumber(w.Actual(v));
    (set n | next <= n < next + Missing(w.Actual(v), w.ScaleOf(v)) :: ContainerName(w.At(v), n))
    + (set k | 0 <= k < |w.KeptOf(v)| :: TemporaryName(w.KeptOf(v)[k]))
  }

  /**
   * Nothing outside the project's own goroutines stands in the way: every service's labels parse and the names
   * it needs are free, and no two services need the same name.
   */
  ghost predicate Accommodates(w: Setting)
    requires w.Valid()
  {
    && UniqueNames(w.e0)
    && (forall v :: v in w.specs ==> Accommodating(w.At(v), w.e0, w.Actual(v), w.ScaleOf(v)))
    && (forall u, v :: u in w.specs && v in w.specs && u != v ==> NewNames(w, u) !! NewNames(w, v))
  }

  // ---------- the condition ----------

  /** If two kept containers need work, both only have to be started. */
  predicate NoClash(s: ServiceSpec, kept: seq<Snapshot>) {
    forall i, k :: 0 <= i < k < |kept| && NeedsWork(s, kept[i]) && NeedsWork(s, kept[k]) ==> !Diverged(s, kept[i]) && !Diverged(s, kept[k])
  }

  /** All there is to do is to start kept containers. */
  predicate OnlyRestarts(s: ServiceSpec, actual: seq<Snapshot>, scale: nat) {
    Missing(actual, scale) == 0 && Surplus(actual, scale) == [] && forall k :: 0 <= k < |Kept(actual, scale)| ==> !Diverged(s, Kept(actual, scale)[k])
  }

  /** The goroutines of all calls for this service keep out of each other's way. */
  ghost predicate Undisturbed(c: T.Config, w: Setting, v: Name)
    requires v in w.specs && Scalable(w.specs[v])
  {
    NoClash(w.specs[v], w.KeptOf(v)) && (X.MayRepeat(c, v) ==> OnlyRestarts(w.specs[v], w.Actual(v), w.ScaleOf(v)))
  }

  /** So it is for every service with the flag it finds when it is called. */
  ghost predicate AllUndisturbed(c: T.Config, rank: map<Name, nat>, w: Setting)
    requires Fits(c, rank, w)
  {
    SpreadFits(c, rank, w);
    forall v :: v in w.specs ==> Undisturbed(c, Spread(c, rank, w), v)
  }

  /** No run on a willing engine that has come to rest has failed. */
  ghost predicate AlwaysSucceeds(c: T.Config, w: Setting) {
    forall moves :: WillingRun(c, w, moves) && T.Quiescent(CExec(c, w, moves).x.base) ==> !T.SomeFailed(CExec(c, w, moves).x.base)
  }

  // ---------- undisturbed services succeed ----------

  /** Of the goroutines for kept containers none replaces one if there is another. */
  lemma NoReplacementBeside(s: ServiceSpec, actual: seq<Snapshot>, scale: nat, capture: seq<nat>, i: nat, k: nat)
    requires Capture(Kept(actual, scale), capture) && NoClash(s, Kept(actual, scale))
    requires KeptStart(actual, scale) <= i < PlanLength(s, actual, scale) && KeptStart(actual, scale) <= k < PlanLength(s, actual, scale)
    requires i != k
    ensures WorkAt(s, actual, scale, capture, i).Restart?
  {
    var kept, idx := Kept(actual, scale), Needy(s, Kept(actual, scale));
    var x, y := idx[i - KeptStart(actual, scale)], idx[k - KeptStart(actual, scale)];
    assert x < y || y < x;
    assert NeedsWork(s, kept[x]) && NeedsWork(s, kept[y]);
  }

  lemma SameContainer(c: Context, e: Engine, actual: seq<Snapshot>, scale: nat, capture: seq<nat>, i: nat, k: nat)
    requires InSync(c, e, actual) && Capture(Kept(actual, scale), capture) && NoClash(c.service, Kept(actual, scale)) && i != k
    requires i < |Plan(c.service, actual, scale, capture)| && k < |Plan(c.service, actual, scale, capture)|
    ensures var v, w := Plan(c.service, actual, scale, capture)[i], Plan(c.service, actual, scale, capture)[k];
      && (!v.Create? && !w.Create? && v.was.id == w.was.id ==> v.Restart? && w.Restart?)
      && !(v.Recreate? && w.Recreate?)
  {
    hide InSync;
    var v, w := Plan(c.service, actual, scale, capture)[i], Plan(c.service, actual, scale, capture)[k];
    PlanAt(c.service, actual, scale, capture, i);
    PlanAt(c.service, actual, scale, capture, k);
    WorkFacts(c.service, actual, scale, capture, i);
    WorkFacts(c.service, actual, scale, capture, k);
    DistinctlyListed(c, e, actual);
    KeptAndSurplusAreApart(actual, scale);
    assert v.Remove? ==> v.was.id in IdsOf(Surplus(actual, scale));
    assert w.Remove? ==> w.was.id in IdsOf(Surplus(actual, scale));
    assert v.Recreate? || v.Restart? ==> v.was.id in IdsOf(Kept(actual, scale));
    assert w.Recreate? || w.Restart? ==> w.was.id in IdsOf(Kept(actual, scale));
    if v.Remove? && w.Remove? {
      RemovalsDiffer(c, actual, scale, capture, i, k);
    } else if !v.Create? && !v.Remove? && !w.Create? && !w.Remove? {
      NoReplacementBeside(c.service, actual, scale, capture, i, k);
      NoReplacementBeside(c.service, actual, scale, capture, k, i);
    }
  }

  lemma DistinctlyListed(c: Context, e: Engine, actual: seq<Snapshot>)
    requires InSync(c, e, actual)
    ensures forall a, b :: 0 <= a < b < |actual| ==> actual[a].id != actual[b].id
  {
  }

  /** A name given by a planned piece of work is a free one the service needs, or that of a container to be replaced. */
  lemma ClaimsAreNew(w: Setting, v: Name, capture: seq<nat>, t: nat, name: string)
    requires w.Valid() && Accommodates(w) && v in w.specs && Capture(w.KeptOf(v), capture)
    requires t < |Plan(w.specs[v], w.Actual(v), w.ScaleOf(v), capture)|
    requires name in Claims(w.At(v), Plan(w.specs[v], w.Actual(v), w.ScaleOf(v), capture)[t])
    ensures var x := Plan(w.specs[v], w.Actual(v), w.ScaleOf(v), capture)[t];
      || (name in NewNames(w, v) && !NameUsed(w.e0, name))
      || (x.Recreate? && name == x.was.info.name)
  {
    hide InSync;
    PlanAt(w.specs[v], w.Actual(v), w.ScaleOf(v), capture, t);
    WorkFacts(w.specs[v], w.Actual(v), w.ScaleOf(v), capture, t);
    assert Accommodating(w.At(v), w.e0, w.Actual(v), w.ScaleOf(v));
  }

  /** What is planned concerns a container as it is, of the service. */
  lemma PlannedOnOwn(w: Setting, v: Name, capture: seq<nat>, t: nat)
    requires w.Valid() && v in w.specs && Capture(w.KeptOf(v), capture)
    requires t < |Plan(w.specs[v], w.Actual(v), w.ScaleOf(v), capture)|
    ensures var x := Plan(w.specs[v], w.Actual(v), w.ScaleOf(v), capture)[t];
      Current(w.e0, x) && (!x.Create? ==> Belongs(x.was.info, w.project, v))
  {
    PlanAt(w.specs[v], w.Actual(v), w.ScaleOf(v), capture, t);
    WorkFacts(w.specs[v], w.Actual(v), w.ScaleOf(v), capture, t);
    assert InSync(w.At(v), w.e0, w.Actual(v));
  }

  /** Goroutines for two services. */
  lemma OtherServiceSeparate(w: Setting, u: Name, v: Name, a: seq<nat>, b: seq<nat>, i: nat, k: nat)
    requires w.Valid() && Accommodates(w) && u in w.specs && v in w.specs && u != v
    requires Capture(w.KeptOf(u), a) && Capture(w.KeptOf(v), b)
    requires i < |Plan(w.specs[u], w.Actual(u), w.ScaleOf(u), a)| && k < |Plan(w.specs[v], w.Actual(v), w.ScaleOf(v), b)|
    ensures Separate(w.At(u), Plan(w.specs[u], w.Actual(u), w.ScaleOf(u), a)[i], w.At(v), Plan(w.specs[v], w.Actual(v), w.ScaleOf(v), b)[k])
  {
    hide InSync;
    hide Accommodating;
    hide Plan;
    hide Claims;
    var x, y := Plan(w.specs[u], w.Actual(u), w.ScaleOf(u), a)[i], Plan(w.specs[v], w.Actual(v), w.ScaleOf(v), b)[k];
    PlannedOnOwn(w, u, a, i);
    PlannedOnOwn(w, v, b, k);
    forall name | name in Claims(w.At(u), x)
      ensures name !in Claims(w.At(v), y)
    {
      ClaimsAreNew(w, u, a, i, name);
      if name in Claims(w.At(v), y) {
        ClaimsAreNew(w, v, b, k, name);
        TwoNames(w.e0, x, y, name, NewNames(w, u), NewNames(w, v));
      }
    }
  }

  lemma TwoNames(e: Engine, x: Work, y: Work, name: string, p: set<string>, q: set<string>)
    requires UniqueNames(e) && Current(e, x) && Current(e, y) && p !! q
    requires !x.Create? && !y.Create? ==> x.was.id != y.was.id
    ensures !(((name in p && !NameUsed(e, name)) || (x.Recreate? && name == x.was.info.name))
              && ((name in q && !NameUsed(e, name)) || (y.Recreate? && name == y.was.info.name)))
  {
  }

  /** Goroutines of one call. */
  lemma SameCallSeparate(w: Setting, v: Name, capture: seq<nat>, i: nat, k: nat)
    requires w.Valid() && Accommodates(w) && v in w.specs && Capture(w.KeptOf(v), capture) && NoClash(w.specs[v], w.KeptOf(v))
    requires i < |Plan(w.specs[v], w.Actual(v), w.ScaleOf(v), capture)| && k < |Plan(w.specs[v], w.Actual(v), w.ScaleOf(v), capture)| && i != k
    ensures Separate(w.At(v), Plan(w.specs[v], w.Actual(v), w.ScaleOf(v), capture)[i], w.At(v), Plan(w.specs[v], w.Actual(v), w.ScaleOf(v), capture)[k])
  {
    hide InSync;
    hide Accommodating;
    hide Plan;
    hide ContainerName;
    hide TemporaryName;
    hide NoClash;
    var x, y := Plan(w.specs[v], w.Actual(v), w.ScaleOf(v), capture)[i], Plan(w.specs[v], w.Actual(v), w.ScaleOf(v), capture)[k];
    SameContainer(w.At(v), w.e0, w.Actual(v), w.ScaleOf(v), capture, i, k);
    PlannedOnOwn(w, v, capture, i);
    PlannedOnOwn(w, v, capture, k);
    if x.Create? && y.Create? {
      CreationsDiffer(w, v, capture, i, k);
    } else if x.Create? && y.Recreate? {
      CreationApart(w, v, capture, i, k);
    } else if x.Recreate? && y.Create? {
      CreationApart(w, v, capture, k, i);
    }
  }

  lemma CreationsDiffer(w: Setting, v: Name, capture: seq<nat>, i: nat, k: nat)
    requires w.Valid() && Accommodates(w) && v in w.specs && Capture(w.KeptOf(v), capture) && i != k
    requires i < |Plan(w.specs[v], w.Actual(v), w.ScaleOf(v), capture)| && k < |Plan(w.specs[v], w.Actual(v), w.ScaleOf(v), capture)|
    requires var p := Plan(w.specs[v], w.Actual(v), w.ScaleOf(v), capture);
      p[i].Create? && p[k].Create?
    ensures var p := Plan(w.specs[v], w.Actual(v), w.ScaleOf(v), capture);
      ContainerName(w.At(v), p[i].number) != ContainerName(w.At(v), p[k].number)
  {
    hide InSync;
    hide ContainerName;
    PlanAt(w.specs[v], w.Actual(v), w.ScaleOf(v), capture, i);
    PlanAt(w.specs[v], w.Actual(v), w.ScaleOf(v), capture, k);
    WorkFacts(w.specs[v], w.Actual(v), w.ScaleOf(v), capture, i);
    WorkFacts(w.specs[v], w.Actual(v), w.ScaleOf(v), capture, k);
    assert Accommodating(w.At(v), w.e0, w.Actual(v), w.ScaleOf(v));
    assert i < k || k < i;
  }

  lemma CreationApart(w: Setting, v: Name, capture: seq<nat>, i: nat, k: nat)
    requires w.Valid() && Accommodates(w) && v in w.specs && Capture(w.KeptOf(v), capture)
    requires i < |Plan(w.specs[v], w.Actual(v), w.ScaleOf(v), capture)| && k < |Plan(w.specs[v], w.Actual(v), w.ScaleOf(v), capture)|
    requires var p := Plan(w.specs[v], w.Actual(v), w.ScaleOf(v), capture);
      p[i].Create? && p[k].Recreate?
    ensures var p := Plan(w.specs[v], w.Actual(v), w.ScaleOf(v), capture);
      ContainerName(w.At(v), p[i].number) != p[k].was.info.name && ContainerName(w.At(v), p[i].number) != TemporaryName(p[k].was)
  {
    hide InSync;
    hide ContainerName;
    hide TemporaryName;
    PlannedOnOwn(w, v, capture, k);
    PlanAt(w.specs[v], w.Actual(v), w.ScaleOf(v), capture, i);
    PlanAt(w.specs[v], w.Actual(v), w.ScaleOf(v), capture, k);
    WorkFacts(w.specs[v], w.Actual(v), w.ScaleOf(v), capture, i);
    WorkFacts(w.specs[v], w.Actual(v), w.ScaleOf(v), capture, k);
    assert Accommodating(w.At(v), w.e0, w.Actual(v), w.ScaleOf(v));
  }

  /** Where there is nothing to do but to start containers, the plan says so. */
  lemma RestartsOnly(s: ServiceSpec, actual: seq<Snapshot>, scale: nat, capture: seq<nat>, t: nat)
    requires Capture(Kept(actual, scale), capture) && OnlyRestarts(s, actual, scale) && t < |Plan(s, actual, scale, capture)|
    ensures Plan(s, actual, scale, capture)[t].Restart?
  {
    PlanAt(s, actual, scale, capture, t);
  }

  predicate StartsFrom(k: Creation, w: Setting) {
    k.project == w.project && k.e0 == w.e0 && k.issued == w.issued && k.observed == w.observed
  }

  /** Calls for services of the project, and two for one only where a call may be repeated. */
  ghost predicate RightCalls(c: T.Config, w: Setting, calls: seq<ServiceCall>) {
    && (forall n :: 0 <= n < |calls| ==> calls[n].spec.name in w.specs && calls[n].spec == w.specs[calls[n].spec.name])
    && (forall m, n :: 0 <= m < |calls| && 0 <= n < |calls| && m != n && calls[m].spec.name == calls[n].spec.name
          ==> X.MayRepeat(c, calls[m].spec.name))
  }

  /** Any two goroutines of such calls. */
  lemma CallsSeparate(c: T.Config, w: Setting, k: Creation, m: nat, t: nat, n: nat, u: nat)
    requires w.Valid() && Accommodates(w) && (forall v :: v in w.specs ==> Undisturbed(c, w, v)) && StartsFrom(k, w) && k.Started()
    requires RightCalls(c, w, k.calls) && m < |k.calls| && n < |k.calls| && (m != n || t != u)
    requires t < |CallWork(k.project, k.observed, k.calls[m])| && u < |CallWork(k.project, k.observed, k.calls[n])|
    ensures Separate(Context(k.project, k.calls[m].spec), CallWork(k.project, k.observed, k.calls[m])[t],
                     Context(k.project, k.calls[n].spec), CallWork(k.project, k.observed, k.calls[n])[u])
  {
    hide InSync;
    hide Plan;
    hide Accommodating;
    hide NoClash;
    hide OnlyRestarts;
    hide X.MayRepeat;
    var p, q := k.calls[m], k.calls[n];
    assert Undisturbed(c, w, p.spec.name);
    if m == n {
      SameCallSeparate(w, p.spec.name, p.capture, t, u);
    } else if p.spec.name == q.spec.name {
      RestartsOnly(p.spec, w.Actual(p.spec.name), w.ScaleOf(p.spec.name), p.capture, t);
      RestartsOnly(p.spec, w.Actual(p.spec.name), w.ScaleOf(p.spec.name), q.capture, u);
    } else {
      OtherServiceSeparate(w, p.spec.name, q.spec.name, p.capture, q.capture, t, u);
    }
  }

  lemma ClearIsPoised(e: Engine, j: Job)
    requires Untouched(j) && Clear(j.c, e, j.work)
    ensures Poised(e, j)
  {
  }

  lemma CallPoised(c: T.Config, w: Setting, k: Creation, n: nat, t: nat)
    requires w.Valid() && Accommodates(w) && StartsFrom(k, w) && k.Started() && RightCalls(c, w, k.calls)
    requires n < |k.calls| && t < |CallWork(k.project, k.observed, k.calls[n])|
    ensures Poised(k.e0, CallJobs(k.project, k.observed, k.calls[n])[t])
  {
    hide InSync;
    hide Accommodating;
    hide Poised;
    hide Clear;
    hide X.MayRepeat;
    var call := k.calls[n];
    WorkIsClear(w.At(call.spec.name), w.e0, w.Actual(call.spec.name), w.ScaleOf(call.spec.name), call.capture, t);
    CallJobAt(k.project, k.observed, call, t);
    ClearIsPoised(k.e0, CallJobs(k.project, k.observed, call)[t]);
  }

  lemma StartsInHarmony(c: T.Config, w: Setting, k: Creation)
    requires w.Valid() && Accommodates(w) && (forall v :: v in w.specs ==> Undisturbed(c, w, v)) && StartsFrom(k, w) && k.Started()
    requires RightCalls(c, w, k.calls)
    ensures Harmony(k.Before())
  {
    hide InSync;
    hide Accommodating;
    hide Undisturbed;
    hide RightCalls;
    hide Poised;
    hide Separate;
    hide CallWork;
    hide CallJobs;
    hide CallOk;
    var jobs := AllJobs(k.project, k.observed, k.calls);
    forall i: nat | i < |jobs|
      ensures Poised(k.e0, jobs[i])
    {
      var n, t := CallOfJob(k.project, k.observed, k.calls, i);
      CallPoised(c, w, k, n, t);
    }
    forall i: nat, j: nat | i < |jobs| && j < |jobs| && i != j
      ensures SeparateJobs(jobs[i], jobs[j])
    {
      var m, t := CallOfJob(k.project, k.observed, k.calls, i);
      var n, u := CallOfJob(k.project, k.observed, k.calls, j);
      CallsSeparate(c, w, k, m, t, n, u);
      CallJobAt(k.project, k.observed, k.calls[m], t);
      CallJobAt(k.project, k.observed, k.calls[n], u);
    }
  }

  /** The flags change nothing about what the engine is asked for beforehand. */
  lemma SpreadAccommodates(c: T.Config, rank: map<Name, nat>, w: Setting)
    requires Fits(c, rank, w) && Accommodates(w)
    ensures Fits(c, rank, Spread(c, rank, w)) && Accommodates(Spread(c, rank, w))
  {
    hide InSync;
    hide Accommodating;
    hide UniqueNames;
    SpreadFits(c, rank, w);
    var w' := Spread(c, rank, w);
    forall v | v in w.specs
      ensures Accommodating(w'.At(v), w'.e0, w'.Actual(v), w'.ScaleOf(v)) && NewNames(w', v) == NewNames(w, v)
    {
      SameNeeds(w, w', v);
    }
  }

  lemma SameNeeds(w: Setting, w': Setting, v: Name)
    requires v in w.specs && v in w'.specs && Scalable(w.specs[v]) && w'.specs[v] == w.specs[v].(forceRecreate := w'.specs[v].forceRecreate)
    requires w'.project == w.project && w'.observed == w.observed && w'.e0 == w.e0
    requires Accommodating(w.At(v), w.e0, w.Actual(v), w.ScaleOf(v))
    ensures Scalable(w'.specs[v]) && NewNames(w', v) == NewNames(w, v)
    ensures Accommodating(w'.At(v), w'.e0, w'.Actual(v), w'.ScaleOf(v))
  {
    hide Accommodating;
    hide ContainerName;
    hide TemporaryName;
    hide OfService;
    SameNames(w.At(v), w'.At(v));
    assert w'.Actual(v) == w.Actual(v) && w'.ScaleOf(v) == w.ScaleOf(v);
    assert w'.KeptOf(v) == w.KeptOf(v);
    forall name
      ensures name in NewNames(w', v) <==> name in NewNames(w, v)
    {
    }
    SameAccommodating(w.At(v), w'.At(v), w.e0, w.Actual(v), w.ScaleOf(v));
  }

  lemma SameNames(c: Context, d: Context)
    requires d.project == c.project && d.service == c.service.(forceRecreate := d.service.forceRecreate)
    ensures forall n :: ContainerName(d, n) == ContainerName(c, n)
  {
  }

  lemma SameAccommodating(c: Context, d: Context, e: Engine, actual: seq<Snapshot>, scale: nat)
    requires d.project == c.project && d.service == c.service.(forceRecreate := d.service.forceRecreate)
    requires Accommodating(c, e, actual, scale)
    ensures Accommodating(d, e, actual, scale)
  {
    hide ContainerName;
    hide TemporaryName;
    SameNames(c, d);
  }

  /** No goroutine of any call fails, at any moment. */
  lemma NoJobFails(c: T.Config, rank: map<Name, nat>, w: Setting, moves: seq<CMove>)
    requires Fits(c, rank, w) && Accommodates(w) && WillingRun(c, w, moves)
    requires AllUndisturbed(c, rank, w)
    ensures forall p :: 0 <= p < |CExec(c, w, moves).pool.jobs| ==> !CExec(c, w, moves).pool.jobs[p].failed
  {
    hide InSync;
    hide Accommodating;
    hide Undisturbed;
    hide Poised;
    hide CInv;
    SpreadAccommodates(c, rank, w);
    var k := RunOfPool(c, rank, w, moves);
    CallsAreRight(c, rank, w, moves);
    StartsInHarmony(c, Spread(c, rank, w), k);
    HarmonyLasts(k.Before(), k.moves);
    PoisedHaveNotFailed(k.After());
  }

  lemma PoisedHaveNotFailed(s: State)
    requires Harmony(s)
    ensures forall p :: 0 <= p < |s.jobs| ==> !s.jobs[p].failed
  {
    forall p | 0 <= p < |s.jobs|
      ensures !s.jobs[p].failed
    {
      assert Poised(s.engine, s.jobs[p]);
    }
  }

  lemma CallsAreRight(c: T.Config, rank: map<Name, nat>, w: Setting, moves: seq<CMove>)
    requires Fits(c, rank, w) && CFeasible(c, w, moves)
    ensures RightCalls(c, Spread(c, rank, w), CExec(c, w, moves).calls)
  {
    hide InSync;
    hide X.MayRepeat;
    hide Shown;
    hide CallOk;
    hide CFeasible;
    hide CExec;
    hide Feasible;
    hide Exec;
    var k := RunOfPool(c, rank, w, moves);
    forall m: nat, n: nat | m < |k.calls| && n < |k.calls| && m != n && k.calls[m].spec.name == k.calls[n].spec.name
      ensures X.MayRepeat(c, k.calls[m].spec.name)
    {
      OnlyRepeatableTwice(c, rank, w, moves, m, n);
    }
    forall n: nat | n < |k.calls|
      ensures k.calls[n].spec.name in w.specs && k.calls[n].spec == Spread(c, rank, w).specs[k.calls[n].spec.name]
    {
      assert CallOfSpread(c, rank, w, k.calls[n]);
    }
  }

  lemma NotRejected(w: Setting, v: Name)
    requires w.Valid() && Accommodates(w) && v in w.specs
    ensures !Rejected(w.At(v), w.observed)
  {
    hide InSync;
    assert Accommodating(w.At(v), w.e0, w.Actual(v), w.ScaleOf(v));
  }

  /** If all services are undisturbed no call fails, in any run on a willing engine. */
  lemma {:induction false} UndisturbedSucceed(c: T.Config, rank: map<Name, nat>, w: Setting, moves: seq<CMove>)
    requires Fits(c, rank, w) && Accommodates(w) && WillingRun(c, w, moves)
    requires AllUndisturbed(c, rank, w)
    ensures !T.SomeFailed(CExec(c, w, moves).x.base)
    decreases |moves|
  {
    hide InSync;
    hide Accommodating;
    hide Undisturbed;
    if moves != [] {
      var before, m := moves[..|moves| - 1], moves[|moves| - 1];
      UndisturbedSucceed(c, rank, w, before);
      if m.Base? {
        NoJobFails(c, rank, w, before);
        NoFailNow(c, w, CExec(c, w, before), m.b);
        X.NothingFails(c, CExec(c, w, before).x.base, m.b);
      }
    }
  }

  lemma NoFailNow(c: T.Config, w: Setting, s: CState, b: T.Move)
    requires w.Valid() && Accommodates(w) && CEnabled(c, w, s, Base(b))
    requires forall p :: 0 <= p < |s.pool.jobs| ==> !s.pool.jobs[p].failed
    ensures !b.Fail?
  {
    hide InSync;
    hide Accommodating;
    hide Rejected;
    hide AllReturned;
    hide AllDone;
    ReturnedIsDone(s, b.i);
    if b.Fail? && b.i !in s.x.decided {
      NotRejected(w, s.x.base.tasks[b.i].node.value);
    }
  }

  lemma ReturnedIsDone(s: CState, i: nat)
    requires forall p :: 0 <= p < |s.pool.jobs| ==> !s.pool.jobs[p].failed
    ensures AllReturned(s, i) ==> AllDone(s, i)
  {
  }

  // ---------- if all runs succeed, none is ever in trouble ----------

  lemma NoFailure(c: T.Config, rank: map<Name, nat>, w: Setting, moves: seq<CMove>)
    requires Fits(c, rank, w) && AlwaysSucceeds(c, w) && WillingRun(c, w, moves)
    ensures !T.SomeFailed(CExec(c, w, moves).x.base)
    ensures forall p :: 0 <= p < |CExec(c, w, moves).pool.jobs| ==> !CExec(c, w, moves).pool.jobs[p].failed
  {
    hide CInv;
    hide InSync;
    var all := RunOut(c, rank, w, moves);
    CReachable(c, rank, w, all);
    AllFinished(c, rank, w, CExec(c, w, all));
    FinishedNeverFailed(CExec(c, w, moves), CExec(c, w, all));
  }

  lemma FinishedNeverFailed(s: CState, s': CState)
    requires StillFailed(s, s') && Succeeded(s'.pool)
    ensures forall p :: 0 <= p < |s.pool.jobs| ==> !s.pool.jobs[p].failed
  {
  }

  /** A goroutine of a call runs to its end, alone, and succeeds. */
  lemma {:induction false} RunGoroutine(c: T.Config, rank: map<Name, nat>, w: Setting, moves: seq<CMove>, p: nat) returns (moves': seq<CMove>)
    requires Fits(c, rank, w) && AlwaysSucceeds(c, w) && WillingRun(c, w, moves) && p < |CExec(c, w, moves).pool.jobs|
    ensures WillingRun(c, w, moves') && OnlyRan(CExec(c, w, moves), CExec(c, w, moves'), p)
    decreases TotalLeft(CExec(c, w, moves).pool.jobs)
  {
    hide InSync;
    hide AlwaysSucceeds;
    var s := CExec(c, w, moves);
    if Ended(s.pool.jobs[p]) {
      NoFailure(c, rank, w, moves);
      moves' := moves;
    } else {
      ScriptsHold(c, w, moves);
      var e := NextWilling(s.pool, p);
      StepsOn(s.pool, e);
      WillingExtend(c, w, moves, Step(e));
      OneStepOf(s.pool, e);
      moves' := RunGoroutine(c, rank, w, moves + [Step(e)], p);
    }
  }

  /** One goroutine of a call has come to a good end; nobody else has moved. */
  ghost predicate OnlyRan(s: CState, s': CState, p: nat)
    requires p < |s.pool.jobs|
  {
    && s'.x == s.x && s'.owner == s.owner && s'.flagged == s.flagged && |s'.pool.jobs| == |s.pool.jobs|
    && Finished(s'.pool.jobs[p]) && s'.pool.jobs[p].work == s.pool.jobs[p].work && s'.pool.jobs[p].c == s.pool.jobs[p].c
    && forall q :: 0 <= q < |s.pool.jobs| && q != p ==> s'.pool.jobs[q] == s.pool.jobs[q]
  }

  lemma OneStepOf(s: State, e: Move)
    requires Enabled(s, e)
    ensures |Apply(s, e).jobs| == |s.jobs| && Apply(s, e).jobs[e.i].work == s.jobs[e.i].work && Apply(s, e).jobs[e.i].c == s.jobs[e.i].c
    ensures forall q :: 0 <= q < |s.jobs| && q != e.i ==> Apply(s, e).jobs[q] == s.jobs[q]
  {
  }

  /** All goroutines of a call run to their ends and flag what they have to. */
  lemma {:induction false} RunCall(c: T.Config, rank: map<Name, nat>, w: Setting, moves: seq<CMove>, i: nat) returns (moves': seq<CMove>)
    requires Fits(c, rank, w) && AlwaysSucceeds(c, w) && WillingRun(c, w, moves)
    requires Calls(w, CExec(c, w, moves), i) && i in CExec(c, w, moves).x.decided
    ensures WillingRun(c, w, moves') && SameTraversal(CExec(c, w, moves), CExec(c, w, moves'))
    ensures AllReturned(CExec(c, w, moves'), i)
    decreases TotalLeft(CExec(c, w, moves).pool.jobs), Unflagged(CExec(c, w, moves))
  {
    hide InSync;
    hide AlwaysSucceeds;
    hide AllReturned;
    hide CallOk;
    var s := CExec(c, w, moves);
    if AllReturned(s, i) {
      moves' := moves;
    } else {
      CReachable(c, rank, w, moves);
      ScriptsHold(c, w, moves);
      ReadyToMove(c, rank, w, s, i);
      var m := GoroutineStep(c, w, s, i);
      WillingExtend(c, w, moves, m);
      LessToDo(c, w, s, m);
      moves' := RunCall(c, rank, w, moves + [m], i);
    }
  }

  predicate SameTraversal(s: CState, s': CState) {
    s'.x.base == s.x.base && s'.x.decided == s.x.decided
  }

  lemma ReadyToMove(c: T.Config, rank: map<Name, nat>, w: Setting, s: CState, i: nat)
    requires Fits(c, rank, w) && CInv(c, rank, w, s) && Calls(w, s, i)
    ensures Owned(s) && Marked(s) && s.x.base.tasks[i].node.value in c.triggers
  {
    hide P.XInv;
    hide InSync;
  }

  lemma LessToDo(c: T.Config, w: Setting, s: CState, m: CMove)
    requires CEnabled(c, w, s, m) && (m.Step? || m.Flag?) && WithinScript(s.pool.jobs)
    ensures var s' := CApply(c, w, s, m);
      SameTraversal(s, s') && if m.Step? then TotalLeft(s'.pool.jobs) < TotalLeft(s.pool.jobs) else s'.pool == s.pool && Unflagged(s') < Unflagged(s)
  {
    if m.Step? {
      StepsOn(s.pool, m.e);
    } else {
      assert m.p in Unflagged(s) && m.p !in Unflagged(CApply(c, w, s, m));
    }
  }

  // ---------- every traversal without failure is one of such a run ----------

  /** A call that has not begun begins with these captures; it is not refused. */
  lemma Called(c: T.Config, rank: map<Name, nat>, w: Setting, moves: seq<CMove>, i: nat, capture: seq<nat>)
    requires Fits(c, rank, w) && AlwaysSucceeds(c, w) && WillingRun(c, w, moves)
    requires Calls(w, CExec(c, w, moves), i) && i !in CExec(c, w, moves).x.decided
    requires var v := CExec(c, w, moves).x.base.tasks[i].node.value;
      Scalable(w.specs[v]) && Capture(w.KeptOf(v), capture)
    ensures WillingRun(c, w, moves + [Begin(i, capture)])
    ensures CEnabled(c, w, CExec(c, w, moves), Begin(i, capture))
    ensures CExec(c, w, moves + [Begin(i, capture)]) == CApply(c, w, CExec(c, w, moves), Begin(i, capture))
  {
    hide InSync;
    hide CEnabled;
    hide CFeasible;
    hide CExec;
    hide AlwaysSucceeds;
    hide Capture;
    hide Rejected;
    var s := CExec(c, w, moves);
    BeginOrFail(c, rank, w, s, i, capture);
    if IsRejected(w, s, i) {
      WillingExtend(c, w, moves, Base(T.Fail(i)));
      X.StaysFailed(c, s.x.base, T.Fail(i));
      NoFailure(c, rank, w, moves + [Base(T.Fail(i))]);
    } else {
      WillingExtend(c, w, moves, Begin(i, capture));
    }
  }

  /** A call with nothing else moving: it begins, its goroutines run, and it succeeds. */
  lemma WholeCall(c: T.Config, rank: map<Name, nat>, w: Setting, moves: seq<CMove>, i: nat) returns (moves': seq<CMove>)
    requires Fits(c, rank, w) && AlwaysSucceeds(c, w) && WillingRun(c, w, moves)
    requires Calls(w, CExec(c, w, moves), i) && i !in CExec(c, w, moves).x.decided
    ensures WillingRun(c, w, moves')
    ensures var s, s' := CExec(c, w, moves), CExec(c, w, moves');
      && T.Enabled(c, s.x.base, T.Succeed(i)) && s'.x.base == T.Apply(c, s.x.base, T.Succeed(i))
      && s'.x.decided.Keys == s.x.decided.Keys + {i}
  {
    hide InSync;
    hide CEnabled;
    hide CFeasible;
    hide CExec;
    hide AlwaysSucceeds;
    hide Capture;
    hide AllReturned;
    hide AllDone;
    hide CallOk;
    hide Rejected;
    var v := CExec(c, w, moves).x.base.tasks[i].node.value;
    var begun := moves + [Begin(i, OwnElement(w.KeptOf(v)))];
    Called(c, rank, w, moves, i, OwnElement(w.KeptOf(v)));
    var run := RunCall(c, rank, w, begun, i);
    SucceedsNow(c, rank, w, run, i);
    moves' := run + [Base(T.Succeed(i))];
  }

  lemma SucceedsNow(c: T.Config, rank: map<Name, nat>, w: Setting, moves: seq<CMove>, i: nat)
    requires Fits(c, rank, w) && AlwaysSucceeds(c, w) && WillingRun(c, w, moves)
    requires Calls(w, CExec(c, w, moves), i) && i in CExec(c, w, moves).x.decided && AllReturned(CExec(c, w, moves), i)
    ensures WillingRun(c, w, moves + [Base(T.Succeed(i))])
    ensures var s, s' := CExec(c, w, moves), CExec(c, w, moves + [Base(T.Succeed(i))]);
      && T.Enabled(c, s.x.base, T.Succeed(i)) && s'.x.base == T.Apply(c, s.x.base, T.Succeed(i)) && s'.x.decided == s.x.decided
  {
    hide InSync;
    hide CInv;
    hide Owned;
    hide Marked;
    hide CEnabled;
    hide CFeasible;
    hide CExec;
    hide AlwaysSucceeds;
    hide AllReturned;
    hide AllDone;
    var s := CExec(c, w, moves);
    CReachable(c, rank, w, moves);
    ReadyToMove(c, rank, w, s, i);
    NoFailure(c, rank, w, moves);
    ReturnedIsDone(s, i);
    CanReturn(c, w, s, i);
    WillingExtend(c, w, moves, Base(T.Succeed(i)));
  }

  /** No goroutine of the traversal that is in its callback has begun its call. */
  ghost predicate NoneBegun(s: CState) {
    forall i :: 0 <= i < |s.x.base.tasks| && s.x.base.tasks[i].phase == T.Calling ==> i !in s.x.decided
  }

  /** Every failure-free schedule of the traversal, each call that succeeds in it run undisturbed. */
  lemma {:induction false} Lift(c: T.Config, rank: map<Name, nat>, w: Setting, base: seq<T.Move>) returns (moves: seq<CMove>)
    requires Fits(c, rank, w) && AlwaysSucceeds(c, w) && T.Feasible(c, base) && !T.SomeFailed(T.Exec(c, base))
    ensures WillingRun(c, w, moves) && CExec(c, w, moves).x.base == T.Exec(c, base) && NoneBegun(CExec(c, w, moves))
    decreases |base|
  {
    hide InSync;
    hide AlwaysSucceeds;
    hide NoneBegun;
    if base == [] {
      moves := [];
      NoneAtFirst(c, w);
    } else {
      var before, m := base[..|base| - 1], base[|base| - 1];
      X.StaysFailed(c, T.Exec(c, before), m);
      var start := Lift(c, rank, w, before);
      moves := LiftMove(c, rank, w, start, m);
    }
  }

  lemma NoneAtFirst(c: T.Config, w: Setting)
    ensures NoneBegun(CInit(c, w))
  {
  }

  lemma LiftMove(c: T.Config, rank: map<Name, nat>, w: Setting, start: seq<CMove>, m: T.Move) returns (moves: seq<CMove>)
    requires Fits(c, rank, w) && AlwaysSucceeds(c, w) && WillingRun(c, w, start) && NoneBegun(CExec(c, w, start))
    requires T.Enabled(c, CExec(c, w, start).x.base, m) && !m.Fail?
    ensures WillingRun(c, w, moves) && CExec(c, w, moves).x.base == T.Apply(c, CExec(c, w, start).x.base, m) && NoneBegun(CExec(c, w, moves))
  {
    hide InSync;
    hide CFeasible;
    hide CExec;
    hide NoneBegun;
    hide AlwaysSucceeds;
    hide CInv;
    var s := CExec(c, w, start);
    CReachable(c, rank, w, start);
    if m.Succeed? {
      CallingHere(c, rank, w, s, m.i);
      assert m.i !in s.x.decided by { NotBegun(s, m.i); }
      moves := WholeCall(c, rank, w, start, m.i);
      NoneAfterSuccess(c, s, CExec(c, w, moves), m.i);
    } else {
      WillingExtend(c, w, start, Base(m));
      moves := start + [Base(m)];
      DecidedAreTasks(c, rank, w, s);
      NoneNew(c, w, s, m);
    }
  }

  lemma NotBegun(s: CState, i: nat)
    requires NoneBegun(s) && i < |s.x.base.tasks| && s.x.base.tasks[i].phase == T.Calling
    ensures i !in s.x.decided
  {
  }

  lemma CallingHere(c: T.Config, rank: map<Name, nat>, w: Setting, s: CState, i: nat)
    requires Fits(c, rank, w) && CInv(c, rank, w, s) && i < |s.x.base.tasks| && s.x.base.tasks[i].phase == T.Calling
    ensures Calls(w, s, i)
  {
    hide InSync;
    InCallback(c, rank, w, s, i);
  }

  lemma DecidedAreTasks(c: T.Config, rank: map<Name, nat>, w: Setting, s: CState)
    requires Fits(c, rank, w) && CInv(c, rank, w, s)
    ensures forall i :: i in s.x.decided ==> i < |s.x.base.tasks|
  {
    hide InSync;
  }

  lemma NoneNew(c: T.Config, w: Setting, s: CState, m: T.Move)
    requires (forall i :: i in s.x.decided ==> i < |s.x.base.tasks|) && NoneBegun(s)
    requires CEnabled(c, w, s, Base(m)) && !m.Succeed? && !m.Fail?
    ensures NoneBegun(CApply(c, w, s, Base(m)))
  {
  }

  lemma NoneAfterSuccess(c: T.Config, s: CState, s': CState, i: nat)
    requires NoneBegun(s) && T.Enabled(c, s.x.base, T.Succeed(i)) && s'.x.base == T.Apply(c, s.x.base, T.Succeed(i))
    requires s'.x.decided.Keys == s.x.decided.Keys + {i}
    ensures NoneBegun(s')
  {
  }

  // ---------- a disturbed service fails ----------

  /** Two goroutines with the same work do not both come to a good end, unless they only start a container. */
  lemma NotBoth(e0: Engine, s: State, a: nat, b: nat)
    requires Inv(e0, s) && a < |s.jobs| && b < |s.jobs| && a != b && s.jobs[a].c == s.jobs[b].c && s.jobs[a].work == s.jobs[b].work
    requires !s.jobs[a].work.Restart? && Finished(s.jobs[a])
    ensures !Finished(s.jobs[b])
  {
    assert JobOk(e0, s.engine, s.jobs[a]) && JobOk(e0, s.engine, s.jobs[b]) && Apart(s.jobs[a], s.jobs[b]);
  }

  /** What the engine and the goroutines of calls have come to is covered by the invariant of their pool. */
  lemma PoolInv(c: T.Config, rank: map<Name, nat>, w: Setting, moves: seq<CMove>)
    requires Fits(c, rank, w) && CFeasible(c, w, moves)
    ensures Inv(w.e0, CExec(c, w, moves).pool)
  {
    hide InSync;
    hide Inv;
    var k := RunOfPool(c, rank, w, moves);
    PoolFacts(k);
  }

  /** Once two goroutines of calls are to do the same, and more than to start a container, some run fails. */
  lemma SameWorkDisturbs(c: T.Config, rank: map<Name, nat>, w: Setting, moves: seq<CMove>, a: nat, b: nat)
    requires Fits(c, rank, w) && WillingRun(c, w, moves)
    requires var jobs := CExec(c, w, moves).pool.jobs;
      a < |jobs| && b < |jobs| && a != b && jobs[a].c == jobs[b].c && jobs[a].work == jobs[b].work && !jobs[a].work.Restart?
    ensures !AlwaysSucceeds(c, w)
  {
    hide InSync;
    hide AlwaysSucceeds;
    hide Inv;
    if AlwaysSucceeds(c, w) {
      var one := RunGoroutine(c, rank, w, moves, a);
      var both := RunGoroutine(c, rank, w, one, b);
      PoolInv(c, rank, w, both);
      NotBoth(w.e0, CExec(c, w, both).pool, a, b);
    }
  }

  lemma ReplacedIsGone(e0: Engine, s: State, a: nat)
    requires Inv(e0, s) && a < |s.jobs| && s.jobs[a].work.Recreate? && Finished(s.jobs[a])
    ensures s.jobs[a].work.was.id !in s.engine
  {
    assert JobOk(e0, s.engine, s.jobs[a]);
  }

  /** Once one goroutine is to replace a container that another one, not moved yet, is to start, some run fails. */
  lemma ReplacedDisturbs(c: T.Config, rank: map<Name, nat>, w: Setting, moves: seq<CMove>, a: nat, b: nat)
    requires Fits(c, rank, w) && WillingRun(c, w, moves)
    requires var jobs := CExec(c, w, moves).pool.jobs;
      && a < |jobs| && b < |jobs| && jobs[a].work.Recreate? && jobs[b].work.Restart?
      && jobs[a].work.was.id == jobs[b].work.was.id && jobs[b].pc == 0 && !jobs[b].failed
    ensures !AlwaysSucceeds(c, w)
  {
    hide InSync;
    hide AlwaysSucceeds;
    hide Inv;
    if AlwaysSucceeds(c, w) {
      var one := RunGoroutine(c, rank, w, moves, a);
      PoolInv(c, rank, w, one);
      ReplacedIsGone(w.e0, CExec(c, w, one).pool, a);
      var e := RefusedStart(CExec(c, w, one).pool, b);
      WillingExtend(c, w, one, Step(e));
      NoFailure(c, rank, w, one + [Step(e)]);
    }
  }

  lemma RefusedStart(s: State, b: nat) returns (e: Move)
    requires b < |s.jobs| && s.jobs[b].work.Restart? && s.jobs[b].pc == 0 && !s.jobs[b].failed && s.jobs[b].work.was.id !in s.engine
    ensures Enabled(s, e) && IsWilling(s, e) && Apply(s, e).jobs[b].failed && |Apply(s, e).jobs| == |s.jobs|
  {
    var newId := UnusedId(s.issued);
    e := Move(b, false, newId);
  }

  /** Where the goroutine of an iteration stands in the plan. */
  lemma PlaceOf(s: ServiceSpec, actual: seq<Snapshot>, scale: nat, k: nat) returns (t: nat)
    requires k < |Kept(actual, scale)| && NeedsWork(s, Kept(actual, scale)[k])
    ensures KeptStart(actual, scale) <= t < PlanLength(s, actual, scale) && Needy(s, Kept(actual, scale))[t - KeptStart(actual, scale)] == k
  {
    var n :| 0 <= n < |Needy(s, Kept(actual, scale))| && Needy(s, Kept(actual, scale))[n] == k;
    t := KeptStart(actual, scale) + n;
  }

  lemma OwnReplacement(s: ServiceSpec, actual: seq<Snapshot>, scale: nat, k: nat) returns (t: nat)
    requires k < |Kept(actual, scale)| && Diverged(s, Kept(actual, scale)[k])
    ensures t < |Plan(s, actual, scale, OwnElement(Kept(actual, scale)))|
    ensures Plan(s, actual, scale, OwnElement(Kept(actual, scale)))[t].Recreate?
  {
    hide Plan;
    t := PlaceOf(s, actual, scale, k);
    PlanAt(s, actual, scale, OwnElement(Kept(actual, scale)), t);
  }

  /** With these, a call that has more to do than to start containers plans something else. */
  lemma NotOnlyRestarts(s: ServiceSpec, actual: seq<Snapshot>, scale: nat) returns (t: nat)
    requires !OnlyRestarts(s, actual, scale)
    ensures t < |Plan(s, actual, scale, OwnElement(Kept(actual, scale)))|
    ensures !Plan(s, actual, scale, OwnElement(Kept(actual, scale)))[t].Restart?
  {
    hide Plan;
    hide Diverged;
    var kept := Kept(actual, scale);
    if Missing(actual, scale) > 0 || Surplus(actual, scale) != [] {
      t := 0;
      PlanAt(s, actual, scale, OwnElement(kept), t);
    } else {
      var k :| 0 <= k < |kept| && Diverged(s, kept[k]);
      t := OwnReplacement(s, actual, scale, k);
    }
  }

  lemma LaterElement(kept: seq<Snapshot>, i: nat, k: nat)
    requires i < k < |kept|
    ensures Capture(kept, OwnElement(kept)[i := k])
  {
  }

  lemma ClashingWork(s: ServiceSpec, actual: seq<Snapshot>, scale: nat, i: nat, k: nat) returns (t: nat, u: nat)
    requires i < k < |Kept(actual, scale)| && NeedsWork(s, Kept(actual, scale)[i]) && NeedsWork(s, Kept(actual, scale)[k])
    ensures var kept := Kept(actual, scale);
      var plan := Plan(s, actual, scale, OwnElement(kept)[i := k]);
      && t < |plan| && u < |plan| && t != u
      && plan[t] == (if Diverged(s, kept[i]) then Recreate(kept[k]) else Restart(kept[k]))
      && plan[u] == (if Diverged(s, kept[k]) then Recreate(kept[k]) else Restart(kept[k]))
  {
    t := PlaceOf(s, actual, scale, i);
    u := PlaceOf(s, actual, scale, k);
    PlanAt(s, actual, scale, OwnElement(Kept(actual, scale))[i := k], t);
    PlanAt(s, actual, scale, OwnElement(Kept(actual, scale))[i := k], u);
  }

  /** What a call for `v` does when it has begun, with the flag it found. */
  ghost predicate HasBegun(w': Setting, v: Name, s: CState, s': CState, i: nat, capture: seq<nat>)
    requires v in w'.specs && Scalable(w'.specs[v]) && Capture(w'.KeptOf(v), capture)
  {
    var plan, n := Plan(w'.specs[v], w'.Actual(v), w'.ScaleOf(v), capture), |s.pool.jobs|;
    && s'.x.base == s.x.base && s'.x.decided.Keys == s.x.decided.Keys + {i}
    && |s'.pool.jobs| == n + |plan|
    && (forall p :: 0 <= p < n ==> s'.pool.jobs[p] == s.pool.jobs[p])
    && (forall t :: 0 <= t < |plan| ==> s'.pool.jobs[n + t] == Job(w'.At(v), plan[t], 0, None, false))
  }

  lemma SameKeptPart(c: T.Config, rank: map<Name, nat>, w: Setting, v: Name)
    requires Fits(c, rank, w) && v in w.specs
    ensures var w' := Spread(c, rank, w);
      v in w'.specs && Scalable(w'.specs[v]) && w'.KeptOf(v) == w.KeptOf(v)
  {
    hide InSync;
  }

  lemma BeginsAsPlanned(c: T.Config, rank: map<Name, nat>, w: Setting, s: CState, i: nat, capture: seq<nat>)
    requires Fits(c, rank, w) && P.XInv(c, rank, w.Site(), s.x) && CEnabled(c, w, s, Begin(i, capture))
    ensures var v, w' := s.x.base.tasks[i].node.value, Spread(c, rank, w);
      && v in w'.specs && Scalable(w'.specs[v]) && Capture(w'.KeptOf(v), capture)
      && HasBegun(w', v, s, CApply(c, w, s, Begin(i, capture)), i, capture)
  {
    hide InSync;
    hide P.XInv;
    hide Plan;
    hide HasBegun;
    hide OfService;
    CallsAsSpread(c, rank, w, s, i, capture);
    SameKeptPart(c, rank, w, s.x.base.tasks[i].node.value);
    BeginsOn(c, w, Spread(c, rank, w), s, i, capture);
  }

  lemma BeginsOn(c: T.Config, w: Setting, w': Setting, s: CState, i: nat, capture: seq<nat>)
    requires CEnabled(c, w, s, Begin(i, capture)) && w'.project == w.project && w'.observed == w.observed
    requires var v := s.x.base.tasks[i].node.value;
      && v in w'.specs && Scalable(w'.specs[v]) && Capture(w'.KeptOf(v), capture)
      && CallBy(w, s, i, capture).spec == w'.specs[v]
    ensures HasBegun(w', s.x.base.tasks[i].node.value, s, CApply(c, w, s, Begin(i, capture)), i, capture)
  {
    hide Plan;
    hide Rejected;
    hide OfService;
  }

  /** A call on `v` begins with these captures. */
  lemma BeginOn(c: T.Config, rank: map<Name, nat>, w: Setting, moves: seq<CMove>, i: nat, v: Name, capture: seq<nat>) returns (moves': seq<CMove>)
    requires Fits(c, rank, w) && AlwaysSucceeds(c, w) && WillingRun(c, w, moves) && v in w.specs
    requires var s := CExec(c, w, moves);
      i < |s.x.base.tasks| && s.x.base.tasks[i] == T.Task(Some(v), T.Calling) && i !in s.x.decided
    requires var w' := Spread(c, rank, w);
      v in w'.specs && Scalable(w'.specs[v]) && Capture(w'.KeptOf(v), capture)
    ensures WillingRun(c, w, moves')
    ensures HasBegun(Spread(c, rank, w), v, CExec(c, w, moves), CExec(c, w, moves'), i, capture)
  {
    hide InSync;
    hide AlwaysSucceeds;
    hide P.XInv;
    hide HasBegun;
    SameKeptPart(c, rank, w, v);
    CReachable(c, rank, w, moves);
    Called(c, rank, w, moves, i, capture);
    BeginsAsPlanned(c, rank, w, CExec(c, w, moves), i, capture);
    moves' := moves + [Begin(i, capture)];
  }

  lemma BegunJob(w': Setting, v: Name, s: CState, s': CState, i: nat, capture: seq<nat>, t: nat)
    requires v in w'.specs && Scalable(w'.specs[v]) && Capture(w'.KeptOf(v), capture) && HasBegun(w', v, s, s', i, capture)
    requires t < |Plan(w'.specs[v], w'.Actual(v), w'.ScaleOf(v), capture)|
    ensures |s.pool.jobs| + t < |s'.pool.jobs|
    ensures s'.pool.jobs[|s.pool.jobs| + t] == Job(w'.At(v), Plan(w'.specs[v], w'.Actual(v), w'.ScaleOf(v), capture)[t], 0, None, false)
  {
  }

  lemma BegunRest(w': Setting, v: Name, s: CState, s': CState, i: nat, capture: seq<nat>)
    requires v in w'.specs && Scalable(w'.specs[v]) && Capture(w'.KeptOf(v), capture) && HasBegun(w', v, s, s', i, capture)
    ensures s'.x.base == s.x.base && s'.x.decided.Keys == s.x.decided.Keys + {i} && |s.pool.jobs| <= |s'.pool.jobs|
    ensures forall p :: 0 <= p < |s.pool.jobs| ==> s'.pool.jobs[p] == s.pool.jobs[p]
  {
  }

  /** Two calls on `v` begin with the same captures, and so with the same work. */
  lemma BothBegin(c: T.Config, rank: map<Name, nat>, w: Setting, moves: seq<CMove>, i: nat, j: nat, v: Name, t: nat)
    returns (both: seq<CMove>, a: nat, b: nat)
    requires Fits(c, rank, w) && Fits(c, rank, Spread(c, rank, w)) && AlwaysSucceeds(c, w) && WillingRun(c, w, moves) && v in w.specs
    requires var s := CExec(c, w, moves);
      && i < |s.x.base.tasks| && s.x.base.tasks[i] == T.Task(Some(v), T.Calling) && i !in s.x.decided
      && j < |s.x.base.tasks| && s.x.base.tasks[j] == T.Task(Some(v), T.Calling) && j !in s.x.decided && i != j
    requires var w' := Spread(c, rank, w);
      v in w'.specs && Scalable(w'.specs[v]) && t < |Plan(w'.specs[v], w'.Actual(v), w'.ScaleOf(v), OwnElement(w'.KeptOf(v)))|
    ensures WillingRun(c, w, both)
    ensures var w', jobs := Spread(c, rank, w), CExec(c, w, both).pool.jobs;
      && a < |jobs| && b < |jobs| && a != b && jobs[a] == jobs[b]
      && jobs[a].work == Plan(w'.specs[v], w'.Actual(v), w'.ScaleOf(v), OwnElement(w'.KeptOf(v)))[t]
  {
    hide InSync;
    hide Fits;
    hide Spread;
    hide OfService;
    hide AlwaysSucceeds;
    hide Plan;
    hide HasBegun;
    hide CFeasible;
    hide CExec;
    var w', s := Spread(c, rank, w), CExec(c, w, moves);
    var capture := OwnElement(w'.KeptOf(v));
    var one := BeginOn(c, rank, w, moves, i, v, capture);
    var s1 := CExec(c, w, one);
    BegunRest(w', v, s, s1, i, capture);
    BegunJob(w', v, s, s1, i, capture, t);
    both := BeginOn(c, rank, w, one, j, v, capture);
    var s2 := CExec(c, w, both);
    BegunRest(w', v, s1, s2, j, capture);
    BegunJob(w', v, s1, s2, j, capture, t);
    a, b := |s.pool.jobs| + t, |s1.pool.jobs| + t;
  }

  /** A service that is called twice and has more to do than to start containers. */
  lemma RepeatedDisturbs(c: T.Config, rank: map<Name, nat>, w: Setting, v: Name)
    requires Fits(c, rank, w) && Fits(c, rank, Spread(c, rank, w)) && v in w.specs && X.MayRepeat(c, v)
    requires var w' := Spread(c, rank, w);
      v in w'.specs && Scalable(w'.specs[v]) && !OnlyRestarts(w'.specs[v], w'.Actual(v), w'.ScaleOf(v))
    ensures !AlwaysSucceeds(c, w)
  {
    hide InSync;
    hide AlwaysSucceeds;
    hide OnlyRestarts;
    hide Plan;
    hide CFeasible;
    hide CExec;
    hide NoneBegun;
    hide X.MayRepeat;
    hide X.TwiceAtOnce;
    if AlwaysSucceeds(c, w) {
      var base := X.RepeatedCall(c, rank, v);
      var start := Lift(c, rank, w, base);
      var i, j := BothCalling(CExec(c, w, start), v);
      var w' := Spread(c, rank, w);
      var t := NotOnlyRestarts(w'.specs[v], w'.Actual(v), w'.ScaleOf(v));
      var both, a, b := BothBegin(c, rank, w, start, i, j, v, t);
      SameWorkDisturbs(c, rank, w, both, a, b);
    }
  }

  lemma BothCalling(s: CState, v: Name) returns (i: nat, j: nat)
    requires X.TwiceAtOnce(s.x.base, v) && NoneBegun(s)
    ensures i < |s.x.base.tasks| && j < |s.x.base.tasks| && i != j && i !in s.x.decided && j !in s.x.decided
    ensures s.x.base.tasks[i] == T.Task(Some(v), T.Calling) && s.x.base.tasks[j] == T.Task(Some(v), T.Calling)
  {
    i, j :| 0 <= i < j < |s.x.base.tasks| && s.x.base.tasks[i].node == Some(v) && s.x.base.tasks[j].node == Some(v);
  }

  /** Two kept containers that need work, one of them having diverged: both goroutines may be given the later one. */
  lemma ClashDisturbs(c: T.Config, rank: map<Name, nat>, w: Setting, v: Name)
    requires Fits(c, rank, w) && Fits(c, rank, Spread(c, rank, w)) && v in w.specs
    requires var w' := Spread(c, rank, w);
      v in w'.specs && Scalable(w'.specs[v]) && !NoClash(w'.specs[v], w'.KeptOf(v))
    ensures !AlwaysSucceeds(c, w)
  {
    hide InSync;
    hide AlwaysSucceeds;
    hide Plan;
    hide NoClash;
    hide CFeasible;
    hide CExec;
    hide NoneBegun;
    if AlwaysSucceeds(c, w) {
      var w' := Spread(c, rank, w);
      var x, y := Clash(w'.specs[v], w'.KeptOf(v));
      var base, i := X.SomeCall(c, rank, v);
      var start := Lift(c, rank, w, base);
      NotBegun(CExec(c, w, start), i);
      ClashAt(c, rank, w, start, i, v, x, y);
    }
  }

  lemma ClashAt(c: T.Config, rank: map<Name, nat>, w: Setting, start: seq<CMove>, i: nat, v: Name, x: nat, y: nat)
    requires Fits(c, rank, w) && Fits(c, rank, Spread(c, rank, w)) && WillingRun(c, w, start) && v in w.specs
    requires var s := CExec(c, w, start);
      i < |s.x.base.tasks| && s.x.base.tasks[i] == T.Task(Some(v), T.Calling) && i !in s.x.decided
    requires v in Spread(c, rank, w).specs && Scalable(Spread(c, rank, w).specs[v])
    requires var r, kept := Spread(c, rank, w).specs[v], Spread(c, rank, w).KeptOf(v);
      x < y < |kept| && NeedsWork(r, kept[x]) && NeedsWork(r, kept[y]) && (Diverged(r, kept[x]) || Diverged(r, kept[y]))
    ensures !AlwaysSucceeds(c, w)
  {
    hide InSync;
    hide Fits;
    hide Spread;
    hide OfService;
    hide AlwaysSucceeds;
    hide Plan;
    hide HasBegun;
    hide CFeasible;
    hide CExec;
    hide NeedsWork;
    if AlwaysSucceeds(c, w) {
      var w', s := Spread(c, rank, w), CExec(c, w, start);
      var capture := OwnElement(w'.KeptOf(v))[x := y];
      LaterElement(w'.KeptOf(v), x, y);
      var t, u := ClashingWork(w'.specs[v], w'.Actual(v), w'.ScaleOf(v), x, y);
      var moves := BeginOn(c, rank, w, start, i, v, capture);
      BegunJob(w', v, s, CExec(c, w, moves), i, capture, t);
      BegunJob(w', v, s, CExec(c, w, moves), i, capture, u);
      var jobs, a, b := CExec(c, w, moves).pool.jobs, |s.pool.jobs| + t, |s.pool.jobs| + u;
      var was := w'.KeptOf(v)[y];
      assert jobs[a].work == Recreate(was) || jobs[a].work == Restart(was);
      assert jobs[b].work == Recreate(was) || jobs[b].work == Restart(was);
      GivenTheSame(c, rank, w, moves, a, b);
    }
  }

  lemma Clash(s: ServiceSpec, kept: seq<Snapshot>) returns (x: nat, y: nat)
    requires !NoClash(s, kept)
    ensures x < y < |kept| && NeedsWork(s, kept[x]) && NeedsWork(s, kept[y]) && (Diverged(s, kept[x]) || Diverged(s, kept[y]))
  {
    x, y :| 0 <= x < y < |kept| && NeedsWork(s, kept[x]) && NeedsWork(s, kept[y]) && (Diverged(s, kept[x]) || Diverged(s, kept[y]));
  }

  lemma GivenTheSame(c: T.Config, rank: map<Name, nat>, w: Setting, moves: seq<CMove>, a: nat, b: nat)
    requires Fits(c, rank, w) && WillingRun(c, w, moves)
    requires var jobs := CExec(c, w, moves).pool.jobs;
      && a < |jobs| && b < |jobs| && a != b && jobs[a].c == jobs[b].c && (jobs[a].work.Recreate? || jobs[b].work.Recreate?)
      && jobs[a].pc == 0 && !jobs[a].failed && jobs[b].pc == 0 && !jobs[b].failed
      && (jobs[a].work.Recreate? || jobs[a].work.Restart?) && (jobs[b].work.Recreate? || jobs[b].work.Restart?)
      && jobs[a].work.was == jobs[b].work.was
    ensures !AlwaysSucceeds(c, w)
  {
    hide InSync;
    hide AlwaysSucceeds;
    var jobs := CExec(c, w, moves).pool.jobs;
    if jobs[a].work.Restart? {
      ReplacedDisturbs(c, rank, w, moves, b, a);
    } else if jobs[b].work.Restart? {
      ReplacedDisturbs(c, rank, w, moves, a, b);
    } else {
      SameWorkDisturbs(c, rank, w, moves, a, b);
    }
  }

  /**
   * On an engine that refuses only what it must and has no reason of its own, every run of `Create` ends without
   * error iff for each service, with the flag it finds when it is called, two kept containers that need work only
   * have to be started, and a service that may be called twice has nothing to do but to start containers.
   */
  lemma SucceedsIffUndisturbed(c: T.Config, rank: map<Name, nat>, w: Setting)
    requires Fits(c, rank, w) && Accommodates(w)
    ensures AlwaysSucceeds(c, w) <==> AllUndisturbed(c, rank, w)
  {
    hide InSync;
    hide Accommodating;
    if AllUndisturbed(c, rank, w) {
      forall moves | WillingRun(c, w, moves) && T.Quiescent(CExec(c, w, moves).x.base)
        ensures !T.SomeFailed(CExec(c, w, moves).x.base)
      {
        UndisturbedSucceed(c, rank, w, moves);
      }
    } else {
      SpreadFits(c, rank, w);
      var w' := Spread(c, rank, w);
      var v :| v in w.specs && !Undisturbed(c, w', v);
      if !NoClash(w'.specs[v], w'.KeptOf(v)) {
        ClashDisturbs(c, rank, w, v);
      } else {
        RepeatedDisturbs(c, rank, w, v);
      }
    }
  }
}
