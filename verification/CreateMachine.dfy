/**
 * `Create` as one machine: the traversal, the calls of `ensureService` it makes, the flags they read and set, and
 * the goroutines they start, all interleaved. A call returns when all its goroutines have.
 */
module CreateMachine {
  import opened Wrappers
  import opened Digraph
  import T = Traversal
  import X = ExactlyOnce
  import P = Propagation
  import opened ContainerEngine
  import opened Convergence
  import opened ConvergencePlan
  import opened EnsureService
  import opened ProjectCreate
  import opened Willing

  predicate Scalable(s: ServiceSpec) {
    Scale(s).Some? && Scale(s).value >= 0
  }

  /** A configuration for every vertex of the graph. */
  predicate Configures(c: T.Config, specs: map<Name, ServiceSpec>) {
    specs.Keys == c.awaits.Keys && forall v :: v in specs ==> specs[v].name == v
  }

  /**
   * What `Create` starts from: the engine, the listing, the project's services with the flags they have before
   * the traversal, and those of them that had extensions when the graph copied them.
   */
  datatype Setting = Setting(project: string, e0: Engine, issued: set<Id>, observed: seq<Snapshot>,
                             specs: map<Name, ServiceSpec>, extended: set<Name>)
  {
    function At(v: Name): Context
      requires v in specs
    {
      Context(project, specs[v])
    }

    function Actual(v: Name): seq<Snapshot>
      requires v in specs
    {
      OfService(observed, project, specs[v].name)
    }

    function ScaleOf(v: Name): nat
      requires v in specs && Scalable(specs[v])
    {
      Scale(specs[v]).value
    }

    function KeptOf(v: Name): seq<Snapshot>
      requires v in specs && Scalable(specs[v])
    {
      Kept(Actual(v), ScaleOf(v))
    }

    predicate KeepsStale(v: Name)
      requires v in specs && Scalable(specs[v])
    {
      exists k :: 0 <= k < |KeptOf(v)| && KeptOf(v)[k].info.hash != specs[v].hash
    }

    /** What the flags depend on. */
    function Site(): P.Site {
      P.Site((set v | v in specs && Scalable(specs[v]) && KeptOf(v) != []),
             (set v | v in specs && Scalable(specs[v]) && KeepsStale(v)),
             (set v | v in specs && specs[v].forceRecreate),
             extended)
    }

    /** The listing shows every service as it is. */
    ghost predicate Valid() {
      && e0.Keys <= issued
      && forall v :: v in specs ==> specs[v].name == v && Scalable(specs[v]) && InSync(At(v), e0, Actual(v))
    }
  }

  /**
   * The traversal with its flags, the engine with the goroutines of all calls, the calls made so far and the
   * traversal's goroutines that made them, for each goroutine of a call who made that call, and the replacements
   * that have flagged their dependents.
   */
  datatype CState = CState(x: P.XState, pool: State, calls: seq<ServiceCall>, callers: seq<nat>, owner: seq<nat>, flagged: set<nat>)

  datatype CMove = Begin(i: nat, capture: seq<nat>) | Step(e: Move) | Flag(p: nat) | Base(b: T.Move)

  predicate IsOf(s: CState, p: nat, i: nat) {
    p < |s.pool.jobs| && p < |s.owner| && s.owner[p] == i
  }

  /** `recreateContainer` flags the dependents last. */
  predicate Flags(j: Job) {
    j.work.Recreate? && Finished(j)
  }

  /** All goroutines of the call have returned. */
  ghost predicate AllReturned(s: CState, i: nat) {
    forall p: nat :: IsOf(s, p, i) ==> Ended(s.pool.jobs[p]) && (Flags(s.pool.jobs[p]) ==> p in s.flagged)
  }

  ghost predicate AllDone(s: CState, i: nat) {
    forall p: nat :: IsOf(s, p, i) ==> Finished(s.pool.jobs[p])
  }

  /** A goroutine of the traversal is in its callback, for a service of the project. */
  predicate Calls(w: Setting, s: CState, i: nat) {
    && i < |s.x.base.tasks| && s.x.base.tasks[i].phase == T.Calling
    && s.x.base.tasks[i].node.Some? && s.x.base.tasks[i].node.value in w.specs
  }

  /** The call it makes, with the flag as it is now. */
  function CallBy(w: Setting, s: CState, i: nat, capture: seq<nat>): ServiceCall
    requires Calls(w, s, i)
  {
    var v := s.x.base.tasks[i].node.value;
    ServiceCall(w.specs[v].(forceRecreate := v in s.x.flags), capture)
  }

  /** The call is refused before it starts anything. */
  predicate IsRejected(w: Setting, s: CState, i: nat)
    requires Calls(w, s, i)
  {
    Rejected(w.At(s.x.base.tasks[i].node.value), w.observed)
  }

  ghost predicate CEnabled(c: T.Config, w: Setting, s: CState, m: CMove) {
    match m
    case Begin(i, capture) =>
      && P.XEnabled(c, s.x, P.XMove.Read(i)) && Calls(w, s, i) && !IsRejected(w, s, i)
      && CallOk(w.project, w.observed, CallBy(w, s, i, capture))
    case Step(e) => Enabled(s.pool, e)
    case Flag(p) =>
      && p < |s.pool.jobs| && p < |s.owner| && p !in s.flagged && Flags(s.pool.jobs[p])
      && P.XEnabled(c, s.x, P.XMove.Note(s.owner[p]))
    case Base(b) =>
      && P.XEnabled(c, s.x, P.XMove.Base(b))
      && (b.Succeed? ==> AllReturned(s, b.i) && AllDone(s, b.i))
      && (b.Fail? ==> Fails(w, s, b.i))
  }

  /** A call fails because it is refused or because one of its goroutines has failed, once all have returned. */
  ghost predicate Fails(w: Setting, s: CState, i: nat) {
    if i in s.x.decided then AllReturned(s, i) && !AllDone(s, i) else Calls(w, s, i) && IsRejected(w, s, i)
  }

  ghost function CApply(c: T.Config, w: Setting, s: CState, m: CMove): CState
    requires CEnabled(c, w, s, m)
  {
    match m
    case Begin(i, capture) =>
      var call := CallBy(w, s, i, capture);
      var jobs := CallJobs(w.project, w.observed, call);
      CState(P.XApply(c, w.Site(), s.x, P.XMove.Read(i)), s.pool.(jobs := s.pool.jobs + jobs),
             s.calls + [call], s.callers + [i], s.owner + seq(|jobs|, _ => i), s.flagged)
    case Step(e) => s.(pool := Apply(s.pool, e))
    case Flag(p) => s.(x := P.XApply(c, w.Site(), s.x, P.XMove.Note(s.owner[p])), flagged := s.flagged + {p})
    case Base(b) => s.(x := P.XApply(c, w.Site(), s.x, P.XMove.Base(b)))
  }

  ghost function CInit(c: T.Config, w: Setting): CState {
    CState(P.XInit(c, w.Site()), State(w.e0, w.issued, []), [], [], [], {})
  }

  ghost predicate CFeasible(c: T.Config, w: Setting, moves: seq<CMove>)
    decreases |moves|, 0
  {
    moves == [] ||
    (CFeasible(c, w, moves[..|moves| - 1]) && CEnabled(c, w, CExec(c, w, moves[..|moves| - 1]), moves[|moves| - 1]))
  }

  ghost function CExec(c: T.Config, w: Setting, moves: seq<CMove>): CState
    requires CFeasible(c, w, moves)
    decreases |moves|, 1
  {
    if moves == [] then CInit(c, w)
    else CApply(c, w, CExec(c, w, moves[..|moves| - 1]), moves[|moves| - 1])
  }

  lemma CExtend(c: T.Config, w: Setting, moves: seq<CMove>, m: CMove)
    requires CFeasible(c, w, moves) && CEnabled(c, w, CExec(c, w, moves), m)
    ensures CFeasible(c, w, moves + [m]) && CExec(c, w, moves + [m]) == CApply(c, w, CExec(c, w, moves), m)
  {
    assert (moves + [m])[..|moves|] == moves;
  }

  // ---------- the invariant of every interleaving ----------

  /** What is needed of the graph, its numbering and the services throughout. */
  ghost predicate Fits(c: T.Config, rank: map<Name, nat>, w: Setting) {
    T.WellFormed(c) && Ranks(c.awaits, rank) && Configures(c, w.specs) && w.Valid()
  }

  /** The services with the flags they find when they are called. */
  ghost function Spread(c: T.Config, rank: map<Name, nat>, w: Setting): Setting
    requires Fits(c, rank, w)
  {
    w.(specs := map v | v in w.specs :: w.specs[v].(forceRecreate := P.Flagged(c, rank, w.Site(), v)))
  }

  /** Each call was made once by a goroutine of the traversal for its vertex, with the final flag. */
  ghost predicate CallFits(s: CState, specs: map<Name, ServiceSpec>, n: nat)
    requires n < |s.calls| && n < |s.callers|
  {
    var i := s.callers[n];
    && i < |s.x.base.tasks| && i in s.x.decided
    && s.x.base.tasks[i].node.Some? && s.x.base.tasks[i].node.value in specs
    && s.calls[n].spec == specs[s.x.base.tasks[i].node.value]
  }

  ghost predicate CallsFit(s: CState, specs: map<Name, ServiceSpec>) {
    && |s.calls| == |s.callers|
    && (forall n :: 0 <= n < |s.calls| ==> CallFits(s, specs, n))
    && (forall m, n :: 0 <= m < n < |s.callers| ==> s.callers[m] != s.callers[n])
    && (forall i :: i in s.x.decided ==> i in s.callers)
  }

  /** Every goroutine of a call belongs to one, and a call replaces containers iff it was decided so. */
  ghost predicate Owned(s: CState) {
    && |s.owner| == |s.pool.jobs|
    && (forall p :: 0 <= p < |s.owner| ==> s.owner[p] in s.x.decided && s.owner[p] < |s.x.base.tasks|)
    && (forall p :: 0 <= p < |s.owner| && s.pool.jobs[p].work.Recreate? ==> s.x.decided[s.owner[p]])
    && (forall i :: i in s.x.decided && s.x.decided[i] ==> exists p: nat :: IsOf(s, p, i) && s.pool.jobs[p].work.Recreate?)
  }

  ghost predicate Marked(s: CState) {
    forall p :: p in s.flagged ==> p < |s.pool.jobs| && p < |s.owner| && Flags(s.pool.jobs[p]) && s.owner[p] in s.x.noted
  }

  /** A call that has succeeded was made, and all its goroutines have succeeded. */
  ghost predicate Answered(s: CState) {
    forall i :: 0 <= i < |s.x.base.tasks| && HasWon(s.x.base.tasks[i]) ==> i in s.x.decided && AllDone(s, i)
  }

  predicate HasWon(t: T.Task) {
    t.node.Some? && (t.phase == T.Succeeded || T.Done(t.phase))
  }

  ghost predicate CInv(c: T.Config, rank: map<Name, nat>, w: Setting, s: CState)
    requires Fits(c, rank, w)
  {
    && P.XInv(c, rank, w.Site(), s.x)
    && CallsFit(s, Spread(c, rank, w).specs) && CallsOk(w.project, w.observed, s.calls)
    && Owned(s) && Marked(s) && Answered(s)
  }

  lemma NothingRead(c: T.Config, rank: map<Name, nat>, site: P.Site)
    requires T.WellFormed(c) && Ranks(c.awaits, rank)
    ensures P.XInv(c, rank, site, P.XInit(c, site))
  {
    hide P.XInv;
    P.XReachable(c, rank, site, []);
  }

  lemma InitCInv(c: T.Config, rank: map<Name, nat>, w: Setting)
    requires Fits(c, rank, w)
    ensures CInv(c, rank, w, CInit(c, w))
  {
    hide P.XInv;
    NothingRead(c, rank, w.Site());
  }

  // ---------- a step of a goroutine of a call ----------

  /** Goroutines that have returned do not move, and none changes its work. */
  ghost predicate PoolMoves(a: seq<Job>, b: seq<Job>) {
    && |a| == |b|
    && forall p :: 0 <= p < |a| ==> b[p].work == a[p].work && b[p].c == a[p].c && (Ended(a[p]) ==> b[p] == a[p])
  }

  lemma StepMoves(s: State, e: Move)
    requires Enabled(s, e)
    ensures PoolMoves(s.jobs, Apply(s, e).jobs)
  {
  }

  lemma StepKeepsInv(c: T.Config, rank: map<Name, nat>, w: Setting, s: CState, e: Move)
    requires Fits(c, rank, w) && CInv(c, rank, w, s) && CEnabled(c, w, s, Step(e))
    ensures CInv(c, rank, w, CApply(c, w, s, Step(e)))
  {
    hide P.XInv;
    hide CallsFit;
    var s' := CApply(c, w, s, Step(e));
    StepMoves(s.pool, e);
    PoolKeeps(s, s');
    CallsKeep(s, s', Spread(c, rank, w).specs);
  }

  /** A step that makes no call and changes nobody's vertex. */
  lemma CallsKeep(s: CState, s': CState, specs: map<Name, ServiceSpec>)
    requires CallsFit(s, specs) && s'.calls == s.calls && s'.callers == s.callers && s'.x.decided == s.x.decided
    requires |s.x.base.tasks| <= |s'.x.base.tasks| && forall i :: 0 <= i < |s.x.base.tasks| ==> s'.x.base.tasks[i].node == s.x.base.tasks[i].node
    ensures CallsFit(s', specs)
  {
    forall n: nat | n < |s'.calls|
      ensures CallFits(s', specs, n)
    {
      assert CallFits(s, specs, n);
    }
  }

  lemma PoolKeeps(s: CState, s': CState)
    requires Owned(s) && Marked(s) && Answered(s) && PoolMoves(s.pool.jobs, s'.pool.jobs)
    requires s'.x == s.x && s'.owner == s.owner && s'.flagged == s.flagged
    ensures Owned(s') && Marked(s') && Answered(s')
  {
    forall i | i in s'.x.decided && s'.x.decided[i]
      ensures exists p: nat :: IsOf(s', p, i) && s'.pool.jobs[p].work.Recreate?
    {
      var p: nat :| IsOf(s, p, i) && s.pool.jobs[p].work.Recreate?;
      assert IsOf(s', p, i);
    }
    forall i: nat, p: nat | i in s.x.decided && AllDone(s, i) && IsOf(s', p, i)
      ensures Finished(s'.pool.jobs[p])
    {
      assert IsOf(s, p, i);
    }
  }

  // ---------- a replacement flags the dependents ----------

  lemma FlagKeepsInv(c: T.Config, rank: map<Name, nat>, w: Setting, s: CState, p: nat)
    requires Fits(c, rank, w) && CInv(c, rank, w, s) && CEnabled(c, w, s, Flag(p))
    ensures CInv(c, rank, w, CApply(c, w, s, Flag(p)))
  {
    hide P.XInv;
    hide InSync;
    hide Spread;
    hide Calls;
    hide Owned;
    hide AllDone;
    hide CallsOk;
    hide CallsFit;
    var s' := CApply(c, w, s, Flag(p));
    P.XStepInv(c, rank, w.Site(), s.x, P.XMove.Note(s.owner[p]));
    CallsKeep(s, s', Spread(c, rank, w).specs);
    SamePool(s, s');
  }

  lemma SamePool(s: CState, s': CState)
    requires Owned(s) && s'.pool == s.pool && s'.owner == s.owner && s'.x.decided == s.x.decided
    requires |s.x.base.tasks| <= |s'.x.base.tasks|
    ensures Owned(s') && forall i: nat :: AllDone(s, i) <==> AllDone(s', i)
  {
    forall i | i in s'.x.decided && s'.x.decided[i]
      ensures exists p: nat :: IsOf(s', p, i) && s'.pool.jobs[p].work.Recreate?
    {
      var p: nat :| IsOf(s, p, i) && s.pool.jobs[p].work.Recreate?;
      assert IsOf(s', p, i);
    }
    assert forall p: nat, i: nat :: IsOf(s, p, i) <==> IsOf(s', p, i);
  }

  // ---------- a step of the traversal ----------

  lemma BaseKeepsInv(c: T.Config, rank: map<Name, nat>, w: Setting, s: CState, b: T.Move)
    requires Fits(c, rank, w) && CInv(c, rank, w, s) && CEnabled(c, w, s, Base(b))
    ensures CInv(c, rank, w, CApply(c, w, s, Base(b)))
  {
    hide P.XInv;
    hide InSync;
    hide Spread;
    hide CallsOk;
    hide CallsFit;
    hide Owned;
    hide AllDone;
    hide AllReturned;
    hide Fails;
    var s' := CApply(c, w, s, Base(b));
    P.XStepInv(c, rank, w.Site(), s.x, P.XMove.Base(b));
    NodesStay(c, s.x.base, b);
    CallsKeep(s, s', Spread(c, rank, w).specs);
    SamePool(s, s');
    forall i: nat | i < |s'.x.base.tasks| && HasWon(s'.x.base.tasks[i])
      ensures i in s'.x.decided && AllDone(s', i)
    {
      WinsBySuccess(c, s.x.base, b, i);
    }
  }

  lemma NodesStay(c: T.Config, s: T.State, b: T.Move)
    requires T.Enabled(c, s, b)
    ensures |s.tasks| <= |T.Apply(c, s, b).tasks|
    ensures forall i :: 0 <= i < |s.tasks| ==> T.Apply(c, s, b).tasks[i].node == s.tasks[i].node
  {
  }

  lemma WinsBySuccess(c: T.Config, s: T.State, b: T.Move, i: nat)
    requires T.Enabled(c, s, b) && i < |T.Apply(c, s, b).tasks| && HasWon(T.Apply(c, s, b).tasks[i])
    ensures i < |s.tasks| && (HasWon(s.tasks[i]) || (b.Succeed? && b.i == i))
  {
  }

  // ---------- a call begins ----------

  lemma PlanReplaces(c: Context, actual: seq<Snapshot>, scale: nat, capture: seq<nat>)
    requires Capture(Kept(actual, scale), capture)
    ensures var kept := Kept(actual, scale);
      (exists t: nat :: IsReplacement(Jobs(c, Plan(c.service, actual, scale, capture)), t))
      <==> kept != [] && (c.service.forceRecreate || exists k :: 0 <= k < |kept| && kept[k].info.hash != c.service.hash)
  {
    hide KeptWork;
    P.PlanRecreatesIff(c.service, Kept(actual, scale), capture);
    var a, b, d := CreateWork(actual, scale), RemoveWork(Surplus(actual, scale)), KeptWork(c.service, Kept(actual, scale), capture);
    ReplacementsAreKept(a, b, d);
    assert Plan(c.service, actual, scale, capture) == a + b + d;
    SameReplacements(c, a + b + d);
    assert (exists t :: 0 <= t < |d| && d[t].Recreate?) <==>
             Kept(actual, scale) != [] && (c.service.forceRecreate || exists k :: 0 <= k < |Kept(actual, scale)| && Kept(actual, scale)[k].info.hash != c.service.hash);
    assert (exists t :: 0 <= t < |a + b + d| && (a + b + d)[t].Recreate?) <==> exists t :: 0 <= t < |d| && d[t].Recreate?;
  }

  /** The plan of a call replaces a container iff the service keeps one and is flagged or keeps a stale one. */
  lemma PlansAsDecided(w: Setting, s: CState, i: nat, capture: seq<nat>)
    requires w.Valid() && Calls(w, s, i) && CallOk(w.project, w.observed, CallBy(w, s, i, capture))
    ensures (exists t: nat :: IsReplacement(CallJobs(w.project, w.observed, CallBy(w, s, i, capture)), t))
            <==> P.Decides(w.Site(), s.x.flags, s.x.base.tasks[i].node.value)
  {
    hide InSync;
    hide Plan;
    hide Jobs;
    var v, call := s.x.base.tasks[i].node.value, CallBy(w, s, i, capture);
    PlanReplaces(Context(w.project, call.spec), w.Actual(v), w.ScaleOf(v), capture);
    assert CallWork(w.project, w.observed, call) == Plan(call.spec, w.Actual(v), w.ScaleOf(v), capture);
    assert CallJobs(w.project, w.observed, call) == Jobs(Context(w.project, call.spec), Plan(call.spec, w.Actual(v), w.ScaleOf(v), capture));
    assert v in w.Site().kept <==> w.KeptOf(v) != [];
    assert v in w.Site().stale <==> w.KeepsStale(v);
    assert w.KeepsStale(v) <==> exists k :: 0 <= k < |w.KeptOf(v)| && w.KeptOf(v)[k].info.hash != call.spec.hash;
  }

  predicate IsReplacement(jobs: seq<Job>, t: nat) {
    t < |jobs| && jobs[t].work.Recreate?
  }

  lemma SameReplacements(c: Context, works: seq<Work>)
    ensures (exists t: nat :: IsReplacement(Jobs(c, works), t)) <==> exists t :: 0 <= t < |works| && works[t].Recreate?
  {
    if t :| 0 <= t < |works| && works[t].Recreate? {
      assert IsReplacement(Jobs(c, works), t);
    }
  }

  lemma ReplacementsAreKept(a: seq<Work>, b: seq<Work>, d: seq<Work>)
    requires (forall t :: 0 <= t < |a| ==> !a[t].Recreate?) && forall t :: 0 <= t < |b| ==> !b[t].Recreate?
    ensures (exists t :: 0 <= t < |a + b + d| && (a + b + d)[t].Recreate?) <==> exists t :: 0 <= t < |d| && d[t].Recreate?
  {
    if t :| 0 <= t < |d| && d[t].Recreate? {
      assert (a + b + d)[|a| + |b| + t] == d[t];
    }
    if t :| 0 <= t < |a + b + d| && (a + b + d)[t].Recreate? {
      ConcatAt(a, b, d, t);
    }
  }

  /** The state after a call has started these goroutines. */
  ghost predicate Begins(s: CState, s': CState, i: nat, jobs: seq<Job>, decides: bool) {
    && s'.x == s.x.(decided := s.x.decided[i := decides]) && i !in s.x.decided && i < |s.x.base.tasks|
    && s'.pool.jobs == s.pool.jobs + jobs && s'.owner == s.owner + seq(|jobs|, _ => i) && s'.flagged == s.flagged
  }

  lemma BeginOwned(s: CState, s': CState, i: nat, jobs: seq<Job>, decides: bool)
    requires Owned(s) && Begins(s, s', i, jobs, decides) && (decides <==> exists t: nat :: IsReplacement(jobs, t))
    ensures Owned(s')
  {
    var n := |s.pool.jobs|;
    forall p | 0 <= p < |s'.owner|
      ensures s'.owner[p] in s'.x.decided && s'.owner[p] < |s'.x.base.tasks|
      ensures s'.pool.jobs[p].work.Recreate? ==> s'.x.decided[s'.owner[p]]
    {
      if p >= n {
        assert s'.owner[p] == i && s'.pool.jobs[p] == jobs[p - n];
        assert s'.pool.jobs[p].work.Recreate? ==> IsReplacement(jobs, p - n);
      }
    }
    forall k | k in s'.x.decided && s'.x.decided[k]
      ensures exists p: nat :: IsOf(s', p, k) && s'.pool.jobs[p].work.Recreate?
    {
      if k == i {
        var t: nat :| IsReplacement(jobs, t);
        assert IsOf(s', n + t, k) && s'.pool.jobs[n + t] == jobs[t];
      } else {
        var p: nat :| IsOf(s, p, k) && s.pool.jobs[p].work.Recreate?;
        assert IsOf(s', p, k);
      }
    }
  }

  lemma BeginMarked(s: CState, s': CState, i: nat, jobs: seq<Job>, decides: bool)
    requires Owned(s) && Marked(s) && Answered(s) && Begins(s, s', i, jobs, decides) && s.x.base.tasks[i].phase == T.Calling
    ensures Marked(s') && Answered(s')
  {
    forall k: nat, p: nat | k != i && IsOf(s', p, k)
      ensures IsOf(s, p, k) && s'.pool.jobs[p] == s.pool.jobs[p]
    {
    }
    forall k: nat | k < |s'.x.base.tasks| && HasWon(s'.x.base.tasks[k])
      ensures k in s'.x.decided && AllDone(s', k)
    {
      assert k != i && AllDone(s, k);
    }
  }

  lemma BeginCalls(s: CState, s': CState, i: nat, jobs: seq<Job>, decides: bool, call: ServiceCall, specs: map<Name, ServiceSpec>)
    requires CallsFit(s, specs) && Begins(s, s', i, jobs, decides) && s'.calls == s.calls + [call] && s'.callers == s.callers + [i]
    requires s.x.base.tasks[i].node.Some? && s.x.base.tasks[i].node.value in specs && call.spec == specs[s.x.base.tasks[i].node.value]
    ensures CallsFit(s', specs)
  {
    forall n: nat | n < |s'.calls|
      ensures CallFits(s', specs, n)
    {
      if n < |s.calls| {
        assert CallFits(s, specs, n);
      }
    }
    forall m, n | 0 <= m < n < |s'.callers|
      ensures s'.callers[m] != s'.callers[n]
    {
      if n == |s.callers| {
        assert CallFits(s, specs, m);
      }
    }
  }

  /** The flag a call reads is the final one. */
  lemma CallsAsSpread(c: T.Config, rank: map<Name, nat>, w: Setting, s: CState, i: nat, capture: seq<nat>)
    requires Fits(c, rank, w) && P.XInv(c, rank, w.Site(), s.x) && Calls(w, s, i)
    ensures var v := s.x.base.tasks[i].node.value;
      v in Spread(c, rank, w).specs && CallBy(w, s, i, capture).spec == Spread(c, rank, w).specs[v]
  {
    P.FlagIsFinal(c, rank, w.Site(), s.x, i);
  }

  lemma BeginKeepsInv(c: T.Config, rank: map<Name, nat>, w: Setting, s: CState, i: nat, capture: seq<nat>)
    requires Fits(c, rank, w) && CInv(c, rank, w, s) && CEnabled(c, w, s, Begin(i, capture))
    ensures CInv(c, rank, w, CApply(c, w, s, Begin(i, capture)))
  {
    hide P.XInv;
    hide InSync;
    hide Spread;
    hide CallJobs;
    hide Rejected;
    hide CallsFit;
    hide Owned;
    hide Marked;
    hide Answered;
    hide CallOk;
    var s', call := CApply(c, w, s, Begin(i, capture)), CallBy(w, s, i, capture);
    var jobs, decides := CallJobs(w.project, w.observed, call), P.Decides(w.Site(), s.x.flags, s.x.base.tasks[i].node.value);
    P.XStepInv(c, rank, w.Site(), s.x, P.XMove.Read(i));
    assert Begins(s, s', i, jobs, decides);
    PlansAsDecided(w, s, i, capture);
    CallsAsSpread(c, rank, w, s, i, capture);
    BeginOwned(s, s', i, jobs, decides);
    BeginMarked(s, s', i, jobs, decides);
    BeginCalls(s, s', i, jobs, decides, call, Spread(c, rank, w).specs);
  }

  lemma CStepInv(c: T.Config, rank: map<Name, nat>, w: Setting, s: CState, m: CMove)
    requires Fits(c, rank, w) && CInv(c, rank, w, s) && CEnabled(c, w, s, m)
    ensures CInv(c, rank, w, CApply(c, w, s, m))
  {
    hide CInv;
    hide CEnabled;
    match m {
      case Begin(i, capture) => BeginKeepsInv(c, rank, w, s, i, capture);
      case Step(e) => StepKeepsInv(c, rank, w, s, e);
      case Flag(p) => FlagKeepsInv(c, rank, w, s, p);
      case Base(b) => BaseKeepsInv(c, rank, w, s, b);
    }
  }

  lemma {:induction false} CReachable(c: T.Config, rank: map<Name, nat>, w: Setting, moves: seq<CMove>)
    requires Fits(c, rank, w) && CFeasible(c, w, moves)
    ensures CInv(c, rank, w, CExec(c, w, moves))
    decreases |moves|
  {
    hide CInv;
    if moves == [] {
      InitCInv(c, rank, w);
    } else {
      var before := moves[..|moves| - 1];
      CReachable(c, rank, w, before);
      CStepInv(c, rank, w, CExec(c, w, before), moves[|moves| - 1]);
    }
  }

  // ---------- what the run is of its parts ----------

  /** Forgetting the engine, a run is one of the traversal with its flags. */
  lemma {:induction false} XRun(c: T.Config, w: Setting, moves: seq<CMove>) returns (xmoves: seq<P.XMove>)
    requires CFeasible(c, w, moves)
    ensures P.XFeasible(c, w.Site(), xmoves) && P.XExec(c, w.Site(), xmoves) == CExec(c, w, moves).x
    decreases |moves|
  {
    if moves == [] {
      xmoves := [];
    } else {
      var before, m := moves[..|moves| - 1], moves[|moves| - 1];
      var xbefore := XRun(c, w, before);
      var s := CExec(c, w, before);
      xmoves := match m
        case Begin(i, _) => xbefore + [P.XMove.Read(i)]
        case Flag(p) => xbefore + [P.XMove.Note(s.owner[p])]
        case Base(b) => xbefore + [P.XMove.Base(b)]
        case Step(_) => xbefore;
      if !m.Step? {
        assert xmoves[..|xmoves| - 1] == xbefore;
      }
    }
  }

  lemma BaseRun(c: T.Config, w: Setting, moves: seq<CMove>) returns (base: seq<T.Move>)
    requires CFeasible(c, w, moves)
    ensures T.Feasible(c, base) && T.Exec(c, base) == CExec(c, w, moves).x.base
  {
    var xmoves := XRun(c, w, moves);
    base := P.Projects(c, w.Site(), xmoves);
  }

  /** The engine refuses only what it must. */
  ghost predicate CWilling(c: T.Config, w: Setting, moves: seq<CMove>)
    requires CFeasible(c, w, moves)
    decreases |moves|
  {
    moves == [] ||
    var before := moves[..|moves| - 1];
    CWilling(c, w, before) && (moves[|moves| - 1].Step? ==> IsWilling(CExec(c, w, before).pool, moves[|moves| - 1].e))
  }

  /** Goroutines started later do not matter to what the others have done before. */
  lemma {:induction false} MoreJobs(e0: Engine, issued: set<Id>, jobs: seq<Job>, more: seq<Job>, pmoves: seq<Move>)
    requires Feasible(State(e0, issued, jobs), pmoves)
    ensures Feasible(State(e0, issued, jobs + more), pmoves)
    ensures var s := Exec(State(e0, issued, jobs), pmoves);
      |s.jobs| == |jobs| && Exec(State(e0, issued, jobs + more), pmoves) == s.(jobs := s.jobs + more)
    ensures AllWilling(State(e0, issued, jobs), pmoves) ==> AllWilling(State(e0, issued, jobs + more), pmoves)
    decreases |pmoves|
  {
    if pmoves != [] {
      var before, m := pmoves[..|pmoves| - 1], pmoves[|pmoves| - 1];
      MoreJobs(e0, issued, jobs, more, before);
      MoreJobsStep(Exec(State(e0, issued, jobs), before), more, m);
    }
  }

  lemma MoreJobsStep(s: State, more: seq<Job>, m: Move)
    requires Enabled(s, m)
    ensures var s' := s.(jobs := s.jobs + more);
      && Enabled(s', m) && Apply(s', m) == Apply(s, m).(jobs := Apply(s, m).jobs + more)
      && (IsWilling(s, m) ==> IsWilling(s', m))
  {
    var s' := s.(jobs := s.jobs + more);
    assert s'.jobs[m.i] == s.jobs[m.i];
    assert Apply(s', m).jobs == Apply(s, m).jobs + more;
  }

  /** The goroutines of all calls, and the engine, at the start. */
  ghost function Pool(w: Setting, calls: seq<ServiceCall>): State
    requires CallsOk(w.project, w.observed, calls)
  {
    State(w.e0, w.issued, AllJobs(w.project, w.observed, calls))
  }

  lemma OneMoreCall(w: Setting, calls: seq<ServiceCall>, call: ServiceCall)
    requires CallsOk(w.project, w.observed, calls) && CallOk(w.project, w.observed, call)
    ensures CallsOk(w.project, w.observed, calls + [call])
    ensures Pool(w, calls + [call]) == State(w.e0, w.issued, AllJobs(w.project, w.observed, calls) + CallJobs(w.project, w.observed, call))
  {
    hide CallOk;
    hide CallJobs;
    assert (calls + [call])[..|calls|] == calls;
  }

  /** This is where a schedule of the pool has led. */
  ghost predicate IsPoolRun(w: Setting, s: CState, pmoves: seq<Move>) {
    CallsOk(w.project, w.observed, s.calls) && Feasible(Pool(w, s.calls), pmoves) && Exec(Pool(w, s.calls), pmoves) == s.pool
  }

  lemma BeginPool(c: T.Config, w: Setting, s: CState, i: nat, capture: seq<nat>, pmoves: seq<Move>)
    requires CEnabled(c, w, s, Begin(i, capture)) && IsPoolRun(w, s, pmoves)
    ensures IsPoolRun(w, CApply(c, w, s, Begin(i, capture)), pmoves)
    ensures AllWilling(Pool(w, s.calls), pmoves) ==> AllWilling(Pool(w, CApply(c, w, s, Begin(i, capture)).calls), pmoves)
  {
    hide CallOk;
    hide CallJobs;
    hide Calls;
    hide Rejected;
    hide Feasible;
    hide Exec;
    hide AllWilling;
    var call := CallBy(w, s, i, capture);
    OneMoreCall(w, s.calls, call);
    MoreJobs(w.e0, w.issued, AllJobs(w.project, w.observed, s.calls), CallJobs(w.project, w.observed, call), pmoves);
  }

  lemma StepPool(w: Setting, s: CState, s': CState, e: Move, pmoves: seq<Move>)
    requires IsPoolRun(w, s, pmoves) && Enabled(s.pool, e) && s'.calls == s.calls && s'.pool == Apply(s.pool, e)
    ensures IsPoolRun(w, s', pmoves + [e])
    ensures AllWilling(Pool(w, s.calls), pmoves) && IsWilling(s.pool, e) ==> AllWilling(Pool(w, s.calls), pmoves + [e])
  {
    Extend(Pool(w, s.calls), pmoves, e);
    assert (pmoves + [e])[..|pmoves|] == pmoves;
  }

  /** Forgetting the traversal, a run is one of the goroutines of all its calls, had they been there from the start. */
  lemma {:induction false} PoolRun(c: T.Config, w: Setting, moves: seq<CMove>) returns (pmoves: seq<Move>)
    requires CFeasible(c, w, moves)
    ensures IsPoolRun(w, CExec(c, w, moves), pmoves)
    ensures CWilling(c, w, moves) ==> AllWilling(Pool(w, CExec(c, w, moves).calls), pmoves)
    decreases |moves|
  {
    hide IsPoolRun;
    if moves == [] {
      pmoves := [];
      NothingStarted(c, w);
    } else {
      var before, m := moves[..|moves| - 1], moves[|moves| - 1];
      pmoves := PoolRun(c, w, before);
      var s := CExec(c, w, before);
      match m {
        case Begin(i, capture) => BeginPool(c, w, s, i, capture, pmoves);
        case Step(e) =>
          StepPool(w, s, CExec(c, w, moves), e, pmoves);
          pmoves := pmoves + [e];
        case _ => SamePoolRun(w, s, CExec(c, w, moves), pmoves);
      }
    }
  }

  lemma NothingStarted(c: T.Config, w: Setting)
    ensures IsPoolRun(w, CInit(c, w), []) && AllWilling(Pool(w, []), [])
  {
  }

  lemma SamePoolRun(w: Setting, s: CState, s': CState, pmoves: seq<Move>)
    requires IsPoolRun(w, s, pmoves) && s'.calls == s.calls && s'.pool == s.pool
    ensures IsPoolRun(w, s', pmoves)
  {
  }

  // ---------- what follows for whole runs ----------

  lemma SameSync(c: Context, d: Context, e: Engine, actual: seq<Snapshot>)
    requires InSync(c, e, actual) && c.project == d.project && c.service.name == d.service.name
    ensures InSync(d, e, actual)
  {
  }

  lemma SpreadFits(c: T.Config, rank: map<Name, nat>, w: Setting)
    requires Fits(c, rank, w)
    ensures Fits(c, rank, Spread(c, rank, w))
  {
    hide InSync;
    var w' := Spread(c, rank, w);
    forall v | v in w.specs
      ensures Scalable(w'.specs[v]) && InSync(w'.At(v), w.e0, w'.Actual(v))
    {
      SameSync(w.At(v), w'.At(v), w.e0, w.Actual(v));
    }
  }

  ghost function CreationOf(w: Setting, s: CState, pmoves: seq<Move>): Creation {
    Creation(w.project, w.e0, w.issued, w.observed, s.calls, pmoves)
  }

  /** Calls for one service read the same flag, so the theorems about a pool of calls apply. */
  lemma CallsStart(c: T.Config, rank: map<Name, nat>, w: Setting, s: CState)
    requires Fits(c, rank, w) && CallsFit(s, Spread(c, rank, w).specs) && CallsOk(w.project, w.observed, s.calls)
    ensures CreationOf(w, s, []).Started()
    ensures forall n :: 0 <= n < |s.calls| ==> CallOfSpread(c, rank, w, s.calls[n])
  {
    hide InSync;
    hide CallOk;
    SpreadFits(c, rank, w);
    var w' := Spread(c, rank, w);
    forall n: nat | n < |s.calls|
      ensures CallOfSpread(c, rank, w, s.calls[n])
    {
      assert CallFits(s, w'.specs, n);
    }
    forall n: nat | n < |s.calls|
      ensures InSync(Context(w.project, s.calls[n].spec), w.e0, OfService(w.observed, w.project, s.calls[n].spec.name))
    {
      assert CallOfSpread(c, rank, w, s.calls[n]);
      assert InSync(w'.At(s.calls[n].spec.name), w'.e0, w'.Actual(s.calls[n].spec.name));
    }
  }

  ghost predicate CallOfSpread(c: T.Config, rank: map<Name, nat>, w: Setting, call: ServiceCall)
    requires Fits(c, rank, w)
  {
    call.spec.name in w.specs && call.spec == Spread(c, rank, w).specs[call.spec.name]
  }

  /** A run as one of a pool of calls. */
  lemma RunOfPool(c: T.Config, rank: map<Name, nat>, w: Setting, moves: seq<CMove>) returns (k: Creation)
    requires Fits(c, rank, w) && CFeasible(c, w, moves)
    ensures var s := CExec(c, w, moves);
      && k == CreationOf(w, s, k.moves) && k.Valid() && k.After() == s.pool
      && (CWilling(c, w, moves) ==> AllWilling(k.Before(), k.moves))
      && forall n :: 0 <= n < |s.calls| ==> CallOfSpread(c, rank, w, s.calls[n])
  {
    hide P.XInv;
    hide Shown;
    hide CallsFit;
    CReachable(c, rank, w, moves);
    var s := CExec(c, w, moves);
    CallsStart(c, rank, w, s);
    var pmoves := PoolRun(c, w, moves);
    k := CreationOf(w, s, pmoves);
  }

  /** Whose goroutine it is. */
  lemma CallerOf(c: T.Config, rank: map<Name, nat>, w: Setting, s: CState, i: nat) returns (n: nat)
    requires Fits(c, rank, w) && CallsFit(s, Spread(c, rank, w).specs) && i in s.x.decided
    ensures n < |s.calls| && n < |s.callers| && s.callers[n] == i && i < |s.x.base.tasks|
    ensures s.x.base.tasks[i].node == Some(s.calls[n].spec.name) && s.calls[n].spec.name in w.specs
  {
    n :| 0 <= n < |s.callers| && s.callers[n] == i;
    assert CallFits(s, Spread(c, rank, w).specs, n);
  }

  /** In an error-free run at rest all goroutines of all calls have succeeded. */
  lemma AllFinished(c: T.Config, rank: map<Name, nat>, w: Setting, s: CState)
    requires Fits(c, rank, w) && CInv(c, rank, w, s) && T.Quiescent(s.x.base) && !T.SomeFailed(s.x.base)
    ensures Succeeded(s.pool)
  {
    hide P.XInv;
    hide CallsOk;
    forall p: nat | p < |s.pool.jobs|
      ensures Finished(s.pool.jobs[p])
    {
      var i := s.owner[p];
      var n := CallerOf(c, rank, w, s, i);
      assert s.x.base.tasks[i].phase != T.Failed;
      assert HasWon(s.x.base.tasks[i]);
      assert IsOf(s, p, i);
    }
  }

  lemma CallForInvoked(c: T.Config, rank: map<Name, nat>, w: Setting, s: CState, v: Name) returns (n: nat)
    requires Fits(c, rank, w) && CallsFit(s, Spread(c, rank, w).specs) && Answered(s)
    requires T.Quiescent(s.x.base) && !T.SomeFailed(s.x.base) && T.Invoked(s.x.base, v)
    ensures n < |s.calls| && s.calls[n].spec.name == v
  {
    hide InSync;
    hide AllDone;
    var i :| 0 <= i < |s.x.base.tasks| && s.x.base.tasks[i].node == Some(v);
    assert HasWon(s.x.base.tasks[i]);
    n := CallerOf(c, rank, w, s, i);
  }

  lemma CalledByTheEnd(c: T.Config, rank: map<Name, nat>, w: Setting, moves: seq<CMove>, v: Name) returns (n: nat)
    requires Fits(c, rank, w) && CFeasible(c, w, moves) && v in w.specs
    requires T.Quiescent(CExec(c, w, moves).x.base) && !T.SomeFailed(CExec(c, w, moves).x.base)
    ensures n < |CExec(c, w, moves).calls| && CExec(c, w, moves).calls[n].spec.name == v
  {
    hide P.XInv;
    hide InSync;
    hide CallsFit;
    hide CallsOk;
    hide Owned;
    hide Marked;
    hide Answered;
    CReachable(c, rank, w, moves);
    var base := BaseRun(c, w, moves);
    T.Completes(c, rank, base, v);
    n := CallForInvoked(c, rank, w, CExec(c, w, moves), v);
  }

  lemma ScaledByPool(c: T.Config, rank: map<Name, nat>, w: Setting, k: Creation, n: nat, v: Name)
    requires Fits(c, rank, w) && k.Valid() && Succeeded(k.After()) && k.project == w.project
    requires n < |k.calls| && CallOfSpread(c, rank, w, k.calls[n]) && k.calls[n].spec.name == v
    ensures v in w.specs && |ServiceIds(k.After().engine, w.project, v)| == w.ScaleOf(v)
  {
    hide InSync;
    hide Shown;
    hide CallsOk;
    hide Succeeded;
    CreateScales(k, n);
  }

  /**
   * An error-free `Create` of an acyclic project leaves every service with exactly as many containers as its
   * configuration asks for, in whatever order and however often services were called and whatever interleaved.
   */
  lemma EveryServiceAtItsScale(c: T.Config, rank: map<Name, nat>, w: Setting, moves: seq<CMove>, v: Name)
    requires Fits(c, rank, w) && CFeasible(c, w, moves) && v in w.specs
    requires T.Quiescent(CExec(c, w, moves).x.base) && !T.SomeFailed(CExec(c, w, moves).x.base)
    ensures Asks(w.specs[v], |ServiceIds(CExec(c, w, moves).pool.engine, w.project, v)|)
  {
    hide CInv;
    hide InSync;
    hide CFeasible;
    hide CExec;
    hide Succeeded;
    CReachable(c, rank, w, moves);
    AllFinished(c, rank, w, CExec(c, w, moves));
    var n := CalledByTheEnd(c, rank, w, moves, v);
    var k := RunOfPool(c, rank, w, moves);
    ScaledByPool(c, rank, w, k, n, v);
    ScaleIsAsked(w.specs[v]);
  }

  /** It replaces containers of exactly the services the forcing rule says. */
  lemma ReplacesIffMust(c: T.Config, rank: map<Name, nat>, w: Setting, moves: seq<CMove>, v: Name)
    requires Fits(c, rank, w) && CFeasible(c, w, moves) && v in w.specs
    requires T.Quiescent(CExec(c, w, moves).x.base) && !T.SomeFailed(CExec(c, w, moves).x.base)
    ensures (exists p: nat :: ReplacedFor(CExec(c, w, moves), p, v)) <==> P.Must(c, rank, w.Site(), v)
  {
    hide CInv;
    hide P.Must;
    hide P.XInv;
    hide InSync;
    var s := CExec(c, w, moves);
    CReachable(c, rank, w, moves);
    if p: nat :| ReplacedFor(s, p, v) {
      ReplacerMust(c, rank, w, s, p, v);
    }
    if P.Must(c, rank, w.Site(), v) {
      AllFinished(c, rank, w, s);
      var n := CalledByTheEnd(c, rank, w, moves, v);
      var p := MustReplace(c, rank, w, s, n, v);
    }
  }

  lemma ReplacerMust(c: T.Config, rank: map<Name, nat>, w: Setting, s: CState, p: nat, v: Name)
    requires Fits(c, rank, w) && CInv(c, rank, w, s) && ReplacedFor(s, p, v) && v in w.specs
    ensures P.Must(c, rank, w.Site(), v)
  {
    hide P.XInv;
    hide CallsOk;
    hide P.Must;
    DecidedIffMust(c, rank, w, s, s.owner[p]);
  }

  lemma MustReplace(c: T.Config, rank: map<Name, nat>, w: Setting, s: CState, n: nat, v: Name) returns (p: nat)
    requires Fits(c, rank, w) && CInv(c, rank, w, s) && Succeeded(s.pool)
    requires n < |s.calls| && s.calls[n].spec.name == v && v in w.specs && P.Must(c, rank, w.Site(), v)
    ensures ReplacedFor(s, p, v)
  {
    hide P.XInv;
    hide CallsOk;
    hide InSync;
    hide Marked;
    hide Answered;
    hide P.Must;
    assert CallFits(s, Spread(c, rank, w).specs, n);
    DecidedIffMust(c, rank, w, s, s.callers[n]);
    p :| IsOf(s, p, s.callers[n]) && s.pool.jobs[p].work.Recreate?;
  }

  /** A goroutine of a call for the service has replaced a container. */
  predicate ReplacedFor(s: CState, p: nat, v: Name) {
    && p < |s.pool.jobs| && p < |s.owner| && Flags(s.pool.jobs[p])
    && s.owner[p] < |s.x.base.tasks| && s.x.base.tasks[s.owner[p]].node == Some(v)
  }

  lemma DecidedIffMust(c: T.Config, rank: map<Name, nat>, w: Setting, s: CState, i: nat)
    requires Fits(c, rank, w) && CInv(c, rank, w, s) && i in s.x.decided
    ensures i < |s.x.base.tasks| && s.x.base.tasks[i].node.Some? && s.x.base.tasks[i].node.value in w.specs
    ensures s.x.decided[i] <==> P.Must(c, rank, w.Site(), s.x.base.tasks[i].node.value)
  {
    var n := CallerOf(c, rank, w, s, i);
    assert P.TaskKnows(c, rank, w.Site(), s.x, i);
  }

  /** Two calls are for one service only if it, or something it awaits, directly or not, awaits two others. */
  lemma OnlyRepeatableTwice(c: T.Config, rank: map<Name, nat>, w: Setting, moves: seq<CMove>, m: nat, n: nat)
    requires Fits(c, rank, w) && CFeasible(c, w, moves)
    requires m < |CExec(c, w, moves).calls| && n < |CExec(c, w, moves).calls| && m != n
    requires CExec(c, w, moves).calls[m].spec.name == CExec(c, w, moves).calls[n].spec.name
    ensures X.MayRepeat(c, CExec(c, w, moves).calls[m].spec.name)
  {
    hide P.XInv;
    hide CallsOk;
    var s := CExec(c, w, moves);
    var v := s.calls[m].spec.name;
    CReachable(c, rank, w, moves);
    assert CallFits(s, Spread(c, rank, w).specs, m) && CallFits(s, Spread(c, rank, w).specs, n);
    assert s.callers[m] != s.callers[n];
    var base := BaseRun(c, w, moves);
    X.TwiceBy(s.x.base, s.callers[m], s.callers[n], v);
    if !X.MayRepeat(c, v) {
      X.UnrepeatedIsSingle(c, base, v);
    }
  }

  /**
   * A service called twice that has containers to make or remove, or whose last kept one has diverged: the run
   * does not end without error, whatever was captured and however everything interleaved.
   */
  lemma CalledTwiceFails(c: T.Config, rank: map<Name, nat>, w: Setting, moves: seq<CMove>, m: nat, n: nat)
    requires Fits(c, rank, w) && CFeasible(c, w, moves) && T.Quiescent(CExec(c, w, moves).x.base)
    requires m < n < |CExec(c, w, moves).calls|
    requires CExec(c, w, moves).calls[m].spec.name == CExec(c, w, moves).calls[n].spec.name
    requires HasLastingWork(w.project, w.observed, CExec(c, w, moves).calls[m].spec)
    ensures T.SomeFailed(CExec(c, w, moves).x.base)
  {
    hide CInv;
    hide HasLastingWork;
    CReachable(c, rank, w, moves);
    var k := RunOfPool(c, rank, w, moves);
    RepeatedCallFails(k, m, n);
    if !T.SomeFailed(CExec(c, w, moves).x.base) {
      AllFinished(c, rank, w, CExec(c, w, moves));
    }
  }
}
