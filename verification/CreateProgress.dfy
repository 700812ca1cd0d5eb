/** `Create` always gets on: every run on a willing engine can be continued to its end. */
module CreateProgress {
  import opened Digraph
  import T = Traversal
  import M = Termination
  import P = Propagation
  import opened ContainerEngine
  import opened Convergence
  import opened ConvergencePlan
  import opened EnsureService
  import opened ProjectCreate
  import opened Willing
  import opened CreateMachine

  // ---------- the next step of a call ----------

  /** A step the engine may be asked for and takes or refuses as it must. */
  ghost predicate Next(c: T.Config, w: Setting, s: CState, m: CMove) {
    CEnabled(c, w, s, m) && (m.Step? ==> IsWilling(s.pool, m.e))
  }

  lemma InCallback(c: T.Config, rank: map<Name, nat>, w: Setting, s: CState, i: nat)
    requires Fits(c, rank, w) && P.XInv(c, rank, w.Site(), s.x) && i < |s.x.base.tasks| && s.x.base.tasks[i].phase == T.Calling
    ensures Calls(w, s, i) && s.x.base.tasks[i].node.value in c.triggers
  {
    assert T.TaskOk(c, s.x.base, s.x.base.tasks[i]);
  }

  /** A call that has not begun begins, or is refused. */
  lemma BeginOrFail(c: T.Config, rank: map<Name, nat>, w: Setting, s: CState, i: nat, capture: seq<nat>)
    requires Fits(c, rank, w) && Calls(w, s, i) && i !in s.x.decided
    requires var v := s.x.base.tasks[i].node.value;
      v in w.specs && Scalable(w.specs[v]) && Capture(w.KeptOf(v), capture)
    ensures if IsRejected(w, s, i) then CEnabled(c, w, s, Base(T.Fail(i))) else CEnabled(c, w, s, Begin(i, capture))
  {
    hide InSync;
    hide Rejected;
  }

  /** A goroutine that has replaced its container can flag the dependents. */
  lemma CanFlag(c: T.Config, w: Setting, s: CState, p: nat, i: nat)
    requires Owned(s) && Calls(w, s, i) && s.x.base.tasks[i].node.value in c.triggers
    requires IsOf(s, p, i) && Flags(s.pool.jobs[p]) && p !in s.flagged
    ensures CEnabled(c, w, s, Flag(p))
  {
  }

  /** When all have returned the call succeeds if all have succeeded and fails otherwise. */
  lemma CanReturn(c: T.Config, w: Setting, s: CState, i: nat)
    requires Owned(s) && Marked(s) && Calls(w, s, i) && i in s.x.decided && AllReturned(s, i)
    ensures if AllDone(s, i) then CEnabled(c, w, s, Base(T.Succeed(i))) else CEnabled(c, w, s, Base(T.Fail(i)))
  {
    if AllDone(s, i) && s.x.decided[i] {
      var p: nat :| IsOf(s, p, i) && s.pool.jobs[p].work.Recreate?;
      assert Flags(s.pool.jobs[p]);
    }
  }

  /** A call that has begun and not settled: one of its goroutines has something to do. */
  lemma GoroutineStep(c: T.Config, w: Setting, s: CState, i: nat) returns (m: CMove)
    requires Owned(s) && WithinScript(s.pool.jobs) && Calls(w, s, i) && s.x.base.tasks[i].node.value in c.triggers && !AllReturned(s, i)
    ensures Next(c, w, s, m) && (m.Step? || m.Flag?)
    ensures m.Step? ==> IsOf(s, m.e.i, i)
  {
    var p: nat :| IsOf(s, p, i) && (!Ended(s.pool.jobs[p]) || (Flags(s.pool.jobs[p]) && p !in s.flagged));
    if !Ended(s.pool.jobs[p]) {
      var e := NextWilling(s.pool, p);
      m := Step(e);
    } else {
      CanFlag(c, w, s, p, i);
      m := Flag(p);
    }
  }

  lemma CallStep(c: T.Config, rank: map<Name, nat>, w: Setting, s: CState, i: nat) returns (m: CMove)
    requires Fits(c, rank, w) && CInv(c, rank, w, s) && WithinScript(s.pool.jobs)
    requires i < |s.x.base.tasks| && s.x.base.tasks[i].phase == T.Calling
    ensures Next(c, w, s, m)
  {
    hide P.XInv;
    hide CEnabled;
    hide CallsFit;
    hide Owned;
    hide Marked;
    hide Answered;
    hide AllReturned;
    hide AllDone;
    hide InSync;
    InCallback(c, rank, w, s, i);
    if i !in s.x.decided {
      var v := s.x.base.tasks[i].node.value;
      BeginOrFail(c, rank, w, s, i, OwnElement(w.KeptOf(v)));
      m := if IsRejected(w, s, i) then Base(T.Fail(i)) else Begin(i, OwnElement(w.KeptOf(v)));
    } else if !AllReturned(s, i) {
      m := GoroutineStep(c, w, s, i);
    } else {
      CanReturn(c, w, s, i);
      m := if AllDone(s, i) then Base(T.Succeed(i)) else Base(T.Fail(i));
    }
  }

  /** Whatever has not come to rest can go on. */
  lemma NextStep(c: T.Config, rank: map<Name, nat>, w: Setting, s: CState) returns (m: CMove)
    requires Fits(c, rank, w) && CInv(c, rank, w, s) && WithinScript(s.pool.jobs) && !T.Quiescent(s.x.base)
    ensures Next(c, w, s, m)
  {
    hide CallsFit;
    hide CallsOk;
    hide Owned;
    hide Marked;
    hide Answered;
    hide InSync;
    var i :| 0 <= i < |s.x.base.tasks| && !s.x.base.tasks[i].phase.Returned? && !s.x.base.tasks[i].phase.Failed?;
    if s.x.base.tasks[i].phase == T.Calling {
      m := CallStep(c, rank, w, s, i);
    } else {
      var b := M.NothingGetsStuck(c, s.x.base, i);
      m := Base(b);
    }
  }

  // ---------- what every step lowers ----------

  /** Goroutines of the traversal that have not begun a call. */
  function Undecided(s: CState): set<nat> {
    set i: nat | i < |s.x.base.tasks| && i !in s.x.decided
  }

  function Unflagged(s: CState): set<nat> {
    set p: nat | p < |s.pool.jobs| && p !in s.flagged
  }

  ghost predicate Lower(c: T.Config, rank: map<Name, nat>, s: CState, s': CState)
    requires T.WellFormed(c) && Ranks(c.awaits, rank)
  {
    || M.Weight(c, rank, s'.x.base) < M.Weight(c, rank, s.x.base)
    || (s'.x.base == s.x.base &&
        (|| Undecided(s') < Undecided(s)
         || (Undecided(s') == Undecided(s) &&
             (|| TotalLeft(s'.pool.jobs) < TotalLeft(s.pool.jobs)
              || (s'.pool == s.pool && Unflagged(s') < Unflagged(s))))))
  }

  lemma BaseIsLower(c: T.Config, rank: map<Name, nat>, w: Setting, s: CState, b: T.Move)
    requires Fits(c, rank, w) && P.XInv(c, rank, w.Site(), s.x) && CEnabled(c, w, s, Base(b))
    ensures Lower(c, rank, s, CApply(c, w, s, Base(b)))
  {
    hide Calls;
    hide AllReturned;
    hide AllDone;
    M.StepDecreases(c, rank, s.x.base, b);
  }

  lemma BeginIsLower(c: T.Config, rank: map<Name, nat>, w: Setting, s: CState, i: nat, capture: seq<nat>)
    requires T.WellFormed(c) && Ranks(c.awaits, rank) && CEnabled(c, w, s, Begin(i, capture))
    ensures Lower(c, rank, s, CApply(c, w, s, Begin(i, capture)))
  {
    hide CallOk;
    hide CallJobs;
    hide Rejected;
    assert i in Undecided(s) && i !in Undecided(CApply(c, w, s, Begin(i, capture)));
  }

  lemma FlagIsLower(c: T.Config, rank: map<Name, nat>, w: Setting, s: CState, p: nat)
    requires T.WellFormed(c) && Ranks(c.awaits, rank) && CEnabled(c, w, s, Flag(p))
    ensures Lower(c, rank, s, CApply(c, w, s, Flag(p)))
  {
    assert p in Unflagged(s) && p !in Unflagged(CApply(c, w, s, Flag(p)));
  }

  lemma StepIsLower(c: T.Config, rank: map<Name, nat>, w: Setting, s: CState, e: Move)
    requires T.WellFormed(c) && Ranks(c.awaits, rank) && CEnabled(c, w, s, Step(e)) && WithinScript(s.pool.jobs)
    ensures Lower(c, rank, s, CApply(c, w, s, Step(e)))
  {
    StepsOn(s.pool, e);
    assert Undecided(CApply(c, w, s, Step(e))) == Undecided(s);
  }

  lemma EveryStepIsLower(c: T.Config, rank: map<Name, nat>, w: Setting, s: CState, m: CMove)
    requires Fits(c, rank, w) && CInv(c, rank, w, s) && CEnabled(c, w, s, m) && WithinScript(s.pool.jobs)
    ensures Lower(c, rank, s, CApply(c, w, s, m))
  {
    hide Lower;
    hide CEnabled;
    hide P.XInv;
    hide InSync;
    match m {
      case Begin(i, capture) => BeginIsLower(c, rank, w, s, i, capture);
      case Step(e) => StepIsLower(c, rank, w, s, e);
      case Flag(p) => FlagIsLower(c, rank, w, s, p);
      case Base(b) => BaseIsLower(c, rank, w, s, b);
    }
  }

  // ---------- to the end ----------

  lemma StartsWithinScript(project: string, observed: seq<Snapshot>, call: ServiceCall)
    requires CallOk(project, observed, call)
    ensures WithinScript(CallJobs(project, observed, call))
  {
  }

  lemma ScriptStep(c: T.Config, w: Setting, s: CState, m: CMove)
    requires CEnabled(c, w, s, m) && WithinScript(s.pool.jobs)
    ensures WithinScript(CApply(c, w, s, m).pool.jobs)
  {
    hide CallOk;
    hide CallJobs;
    hide Rejected;
    match m {
      case Begin(i, capture) =>
        StartsWithinScript(w.project, w.observed, CallBy(w, s, i, capture));
      case Step(e) => StepsOn(s.pool, e);
      case _ =>
    }
  }

  lemma {:induction false} ScriptsHold(c: T.Config, w: Setting, moves: seq<CMove>)
    requires CFeasible(c, w, moves)
    ensures WithinScript(CExec(c, w, moves).pool.jobs)
    decreases |moves|
  {
    if moves != [] {
      ScriptsHold(c, w, moves[..|moves| - 1]);
      ScriptStep(c, w, CExec(c, w, moves[..|moves| - 1]), moves[|moves| - 1]);
    }
  }

  /** Goroutines that have failed stay failed, those of the traversal and those of calls. */
  ghost predicate StillFailed(s: CState, s': CState) {
    && (T.SomeFailed(s.x.base) ==> T.SomeFailed(s'.x.base))
    && |s.pool.jobs| <= |s'.pool.jobs|
    && forall p :: 0 <= p < |s.pool.jobs| && s.pool.jobs[p].failed ==> s'.pool.jobs[p].failed
  }

  lemma FailuresRemain(c: T.Config, w: Setting, s: CState, m: CMove)
    requires CEnabled(c, w, s, m)
    ensures StillFailed(s, CApply(c, w, s, m))
  {
    hide CallOk;
    hide CallJobs;
    hide Rejected;
    hide AllReturned;
    hide AllDone;
    match m {
      case Base(b) =>
        if T.SomeFailed(s.x.base) {
          var i :| 0 <= i < |s.x.base.tasks| && s.x.base.tasks[i].phase == T.Failed;
          assert T.Apply(c, s.x.base, b).tasks[i].phase == T.Failed;
        }
      case _ =>
    }
  }

  /** A run on a willing engine. */
  ghost predicate WillingRun(c: T.Config, w: Setting, moves: seq<CMove>) {
    CFeasible(c, w, moves) && CWilling(c, w, moves)
  }

  lemma WillingExtend(c: T.Config, w: Setting, moves: seq<CMove>, m: CMove)
    requires WillingRun(c, w, moves) && Next(c, w, CExec(c, w, moves), m)
    ensures WillingRun(c, w, moves + [m]) && CExec(c, w, moves + [m]) == CApply(c, w, CExec(c, w, moves), m)
  {
    hide CEnabled;
    CExtend(c, w, moves, m);
    assert (moves + [m])[..|moves|] == moves;
  }

  /** Every run can be continued to its end. */
  lemma {:induction false} RunOut(c: T.Config, rank: map<Name, nat>, w: Setting, moves: seq<CMove>) returns (moves': seq<CMove>)
    requires Fits(c, rank, w) && WillingRun(c, w, moves)
    ensures WillingRun(c, w, moves') && T.Quiescent(CExec(c, w, moves').x.base)
    ensures StillFailed(CExec(c, w, moves), CExec(c, w, moves'))
    decreases M.Weight(c, rank, CExec(c, w, moves).x.base), Undecided(CExec(c, w, moves)),
              TotalLeft(CExec(c, w, moves).pool.jobs), Unflagged(CExec(c, w, moves))
  {
    hide CInv;
    hide Next;
    hide CEnabled;
    hide InSync;
    var s := CExec(c, w, moves);
    if T.Quiescent(s.x.base) {
      moves' := moves;
    } else {
      CReachable(c, rank, w, moves);
      ScriptsHold(c, w, moves);
      var m := NextStep(c, rank, w, s);
      assert CEnabled(c, w, s, m) by { IsEnabled(c, w, s, m); }
      EveryStepIsLower(c, rank, w, s, m);
      FailuresRemain(c, w, s, m);
      WillingExtend(c, w, moves, m);
      moves' := RunOut(c, rank, w, moves + [m]);
    }
  }

  lemma IsEnabled(c: T.Config, w: Setting, s: CState, m: CMove)
    requires Next(c, w, s, m)
    ensures CEnabled(c, w, s, m)
  {
  }
}
