/** Goroutines served by an engine that refuses only what it must: when none of them can fail. */
module Willing {
  import opened ContainerEngine
  import opened Convergence
  import opened Completion
  import opened EnsureService

  /** A refusal is of a call that is not possible, or the number label does not parse. */
  ghost predicate IsWilling(s: State, m: Move)
    requires Enabled(s, m)
  {
    var call := NextCall(s.jobs[m.i], m.newId);
    !m.ok ==> Unparsable(s.jobs[m.i]) || (!Possible(s.engine, call) && (call.CreateCall? ==> m.newId !in s.issued))
  }

  ghost predicate AllWilling(s0: State, moves: seq<Move>)
    requires Feasible(s0, moves)
    decreases |moves|
  {
    moves == [] ||
    var before := moves[..|moves| - 1];
    AllWilling(s0, before) && IsWilling(Exec(s0, before), moves[|moves| - 1])
  }

  /** All goroutines have returned. */
  predicate AtRest(s: State) {
    forall i :: 0 <= i < |s.jobs| ==> Ended(s.jobs[i])
  }

  // ---------- goroutines that keep out of each other's way ----------

  /** The names a goroutine gives to containers. */
  function Claims(c: Context, w: Work): set<string> {
    match w
    case Create(number) => {ContainerName(c, number)}
    case Recreate(was) => {was.info.name, TemporaryName(was)}
    case _ => {}
  }

  /** They give different names, and work on different containers unless both only start theirs. */
  predicate Separate(c: Context, v: Work, d: Context, w: Work) {
    && Claims(c, v) !! Claims(d, w)
    && (!v.Create? && !w.Create? && v.was.id == w.was.id ==> v.Restart? && w.Restart?)
  }

  predicate Idle(x: Container) {
    x.state != Running && x.state != Restarting
  }

  /** The goroutine has not failed and nothing stands in the way of its next call. */
  ghost predicate Poised(e: Engine, j: Job) {
    !j.failed &&
    match j.work
    case Create(number) => j.pc <= 2 && (j.pc == 0 ==> !NameUsed(e, ContainerName(j.c, number)))
    case Remove(was) => j.pc <= 2 && (j.pc <= 1 ==> was.id in e && (j.pc == 1 ==> Idle(e[was.id])))
    case Recreate(was) => j.pc <= 5 && was.info.number.Some? && (j.pc <= 4 ==> was.id in e && ReplacesAt(e, was, j.pc))
    case Restart(was) => j.pc <= 1 && (j.pc == 0 ==> was.id in e)
  }

  /** What a replacement that has come this far relies on. */
  ghost predicate ReplacesAt(e: Engine, was: Snapshot, pc: nat)
    requires was.id in e
  {
    && (pc >= 1 ==> Idle(e[was.id]))
    && e[was.id].name == (if pc <= 1 then was.info.name else TemporaryName(was))
    && (pc <= 1 ==> !NameUsed(e, TemporaryName(was)))
    && (pc == 2 ==> !NameUsed(e, was.info.name))
  }

  ghost predicate Harmony(s: State) {
    && UniqueNames(s.engine) && s.engine.Keys <= s.issued
    && (forall i :: 0 <= i < |s.jobs| ==> Poised(s.engine, s.jobs[i]))
    && (forall i, k :: 0 <= i < |s.jobs| && 0 <= k < |s.jobs| && i != k ==> SeparateJobs(s.jobs[i], s.jobs[k]))
  }

  predicate SeparateJobs(j: Job, k: Job) {
    Separate(j.c, j.work, k.c, k.work)
  }

  /** A willing engine does not refuse a poised goroutine. */
  lemma NotRefused(s: State, m: Move)
    requires Enabled(s, m) && IsWilling(s, m) && Poised(s.engine, s.jobs[m.i]) && s.engine.Keys <= s.issued
    ensures m.ok
  {
    var j := s.jobs[m.i];
    match j.work {
      case Create(_) => assert j.pc == 0 || j.pc == 1;
      case Remove(_) => assert j.pc == 0 || j.pc == 1;
      case Recreate(_) => assert j.pc == 0 || j.pc == 1 || j.pc == 2 || j.pc == 3 || j.pc == 4;
      case Restart(_) => assert j.pc == 0;
    }
  }

  /** What a call by a goroutine for this work may change. */
  ghost predicate Leaves(c: Context, w: Work, e: Engine, e': Engine) {
    && (forall id :: id in e && !TakesAway(w, id) ==> id in e' && e'[id].name == e[id].name)
    && (forall id :: id in e && !WorksOn(w, id) ==> id in e' && e'[id] == e[id])
    && (forall name :: NameUsed(e', name) ==> NameUsed(e, name) || name in Claims(c, w))
  }

  lemma OwnCallLeaves(s: State, m: Move)
    requires Enabled(s, m) && m.ok && Poised(s.engine, s.jobs[m.i])
    ensures Leaves(s.jobs[m.i].c, s.jobs[m.i].work, s.engine, Apply(s, m).engine)
  {
    var j := s.jobs[m.i];
    match j.work {
      case Create(_) => assert j.pc == 0 || j.pc == 1;
      case Remove(_) => assert j.pc == 0 || j.pc == 1;
      case Recreate(_) => assert j.pc == 0 || j.pc == 1 || j.pc == 2 || j.pc == 3 || j.pc == 4;
      case Restart(_) => assert j.pc == 0;
    }
  }

  lemma OwnCallPoised(s: State, m: Move)
    requires Enabled(s, m) && m.ok && Poised(s.engine, s.jobs[m.i]) && UniqueNames(s.engine)
    ensures Poised(Apply(s, m).engine, Apply(s, m).jobs[m.i])
  {
    var j := s.jobs[m.i];
    match j.work {
      case Create(_) => assert j.pc == 0 || j.pc == 1;
      case Remove(_) => assert j.pc == 0 || j.pc == 1;
      case Recreate(_) => assert j.pc == 0 || j.pc == 1 || j.pc == 2 || j.pc == 3 || j.pc == 4;
      case Restart(_) => assert j.pc == 0;
    }
  }

  lemma OwnCallUnique(s: State, m: Move)
    requires Enabled(s, m) && m.ok && UniqueNames(s.engine)
    ensures UniqueNames(Apply(s, m).engine)
  {
  }

  /** Whoever keeps out of its way stays poised. */
  lemma OtherCall(e: Engine, e': Engine, c: Context, w: Work, j: Job)
    requires Leaves(c, w, e, e') && Poised(e, j) && Separate(c, w, j.c, j.work)
    ensures Poised(e', j)
  {
  }

  lemma HarmonyStep(s: State, m: Move)
    requires Harmony(s) && Enabled(s, m) && IsWilling(s, m)
    ensures Harmony(Apply(s, m))
  {
    hide Poised;
    hide Separate;
    hide UniqueNames;
    hide Leaves;
    NotRefused(s, m);
    OwnCallLeaves(s, m);
    OwnCallPoised(s, m);
    OwnCallUnique(s, m);
    var s' := Apply(s, m);
    SameWork(s, m);
    forall i | 0 <= i < |s'.jobs|
      ensures Poised(s'.engine, s'.jobs[i])
    {
      if i != m.i {
        assert SeparateJobs(s.jobs[m.i], s.jobs[i]);
        OtherCall(s.engine, s'.engine, s.jobs[m.i].c, s.jobs[m.i].work, s.jobs[i]);
      }
    }
    forall i, k | 0 <= i < |s'.jobs| && 0 <= k < |s'.jobs| && i != k
      ensures SeparateJobs(s'.jobs[i], s'.jobs[k])
    {
      assert SeparateJobs(s.jobs[i], s.jobs[k]);
    }
  }

  /** Goroutines that keep out of each other's way all succeed. */
  lemma {:induction false} HarmonyLasts(s0: State, moves: seq<Move>)
    requires Harmony(s0) && Feasible(s0, moves) && AllWilling(s0, moves)
    ensures Harmony(Exec(s0, moves))
    decreases |moves|
  {
    if moves != [] {
      var before := moves[..|moves| - 1];
      HarmonyLasts(s0, before);
      HarmonyStep(Exec(s0, before), moves[|moves| - 1]);
    }
  }

  lemma HarmoniousSucceed(s0: State, moves: seq<Move>)
    requires Harmony(s0) && Feasible(s0, moves) && AllWilling(s0, moves) && AtRest(Exec(s0, moves))
    ensures Succeeded(Exec(s0, moves))
  {
    HarmonyLasts(s0, moves);
    var s := Exec(s0, moves);
    forall i | 0 <= i < |s.jobs|
      ensures Finished(s.jobs[i])
    {
      assert Poised(s.engine, s.jobs[i]);
    }
  }

  // ---------- there is always a next call ----------

  /** What a willing engine does with the next call of a goroutine. */
  lemma NextWilling(s: State, i: nat) returns (m: Move)
    requires i < |s.jobs| && WithinScript(s.jobs) && !Ended(s.jobs[i])
    ensures Enabled(s, m) && IsWilling(s, m) && m.i == i
  {
    var j := s.jobs[i];
    var newId := UnusedId(s.issued);
    assert j.pc < |Script(j, newId)|;
    m := Move(i, !Unparsable(j) && Possible(s.engine, NextCall(j, newId)), newId);
  }

  lemma StepsOn(s: State, m: Move)
    requires Enabled(s, m) && WithinScript(s.jobs)
    ensures WithinScript(Apply(s, m).jobs) && TotalLeft(Apply(s, m).jobs) < TotalLeft(s.jobs)
  {
    var j' := Apply(s, m).jobs[m.i];
    assert Apply(s, m).jobs == s.jobs[m.i := j'];
    OneFewer(s.jobs, m.i, j');
  }
}
