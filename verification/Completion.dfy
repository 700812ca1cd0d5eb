/** When the engine has no reason to refuse a call, `ensureService` can succeed, whatever its closures captured. */
module Completion {
  import opened Wrappers
  import opened ContainerEngine
  import opened Convergence

  ghost predicate UniqueNames(e: Engine) {
    forall x, y :: x in e && y in e && x != y ==> e[x].name != e[y].name
  }

  lemma {:induction false} LongerThanAll(ids: set<Id>) returns (n: nat)
    ensures forall id :: id in ids ==> |id| <= n
  {
    if ids == {} {
      n := 0;
    } else {
      var id :| id in ids;
      var rest := LongerThanAll(ids - {id});
      n := rest + |id|;
    }
  }

  /** There is always another id. */
  lemma UnusedId(issued: set<Id>) returns (id: Id)
    ensures id !in issued
  {
    var n := LongerThanAll(issued);
    id := seq(n + 12, _ => '0');
  }

  predicate Untouched(j: Job) {
    j.pc == 0 && j.made == None && !j.failed
  }

  /** Nothing stands in the way of this piece of work. */
  ghost predicate Clear(c: Context, e: Engine, w: Work) {
    match w
    case Create(number) => !NameUsed(e, ContainerName(c, number))
    case Remove(was) => was.id in e
    case Recreate(was) =>
      was.id in e && e[was.id].name == was.info.name && was.info.number.Some? && !NameUsed(e, TemporaryName(was))
    case Restart(was) => was.id in e
  }

  /** Two pieces of work do not get in each other's way, if restarts come first. */
  ghost predicate Compatible(c: Context, v: Work, d: Context, w: Work) {
    && (v.Create? && w.Create? ==> ContainerName(c, v.number) != ContainerName(d, w.number))
    && (v.Create? && w.Recreate? ==> ContainerName(c, v.number) != TemporaryName(w.was))
    && ((v.Recreate? || v.Remove?) && !w.Create? && !w.Restart? ==> v.was.id != w.was.id)
  }

  ghost predicate CompatibleJobs(j: Job, k: Job) {
    Compatible(j.c, j.work, k.c, k.work)
  }

  ghost predicate Orderly(s: State) {
    && UniqueNames(s.engine) && s.engine.Keys <= s.issued
    && (forall i :: 0 <= i < |s.jobs| ==> Finished(s.jobs[i]) || (Untouched(s.jobs[i]) && Clear(s.jobs[i].c, s.engine, s.jobs[i].work)))
    && (forall i, k :: 0 <= i < |s.jobs| && 0 <= k < |s.jobs| && i != k && Untouched(s.jobs[i]) && Untouched(s.jobs[k])
          ==> CompatibleJobs(s.jobs[i], s.jobs[k]))
  }

  /** What completing a piece of work may change. */
  ghost predicate Settled(c: Context, e: Engine, e': Engine, w: Work) {
    && UniqueNames(e')
    && (forall id :: id in e && !WorksOn(w, id) ==> id in e' && e'[id] == e[id])
    && (forall name :: NameUsed(e', name) ==> NameUsed(e, name) || (w.Create? && name == ContainerName(c, w.number)))
    && (w.Restart? ==> forall id :: id in e ==> id in e' && e'[id].name == e[id].name)
  }

  lemma CompleteCreate(s: State, i: nat, newId: Id)
    requires i < |s.jobs| && Untouched(s.jobs[i]) && s.jobs[i].work.Create? && Clear(s.jobs[i].c, s.engine, s.jobs[i].work)
    requires UniqueNames(s.engine) && s.engine.Keys <= s.issued && newId !in s.issued
    ensures var m := Move(i, true, newId);
      && Enabled(s, m) && Enabled(Apply(s, m), m)
      && var s' := Apply(Apply(s, m), m);
      && Settled(s.jobs[i].c, s.engine, s'.engine, s.jobs[i].work) && Finished(s'.jobs[i]) && s'.jobs == s.jobs[i := s'.jobs[i]]
      && s'.engine.Keys <= s'.issued && s'.jobs[i].work == s.jobs[i].work
  {
    var m := Move(i, true, newId);
    var s' := Apply(Apply(s, m), m);
    forall name | NameUsed(s'.engine, name)
      ensures NameUsed(s.engine, name) || name == ContainerName(s.jobs[i].c, s.jobs[i].work.number)
    {
    }
  }

  lemma CompleteRestart(s: State, i: nat, newId: Id)
    requires i < |s.jobs| && Untouched(s.jobs[i]) && s.jobs[i].work.Restart? && Clear(s.jobs[i].c, s.engine, s.jobs[i].work)
    requires UniqueNames(s.engine) && s.engine.Keys <= s.issued
    ensures Enabled(s, Move(i, true, newId))
    ensures var s' := Apply(s, Move(i, true, newId));
      && Settled(s.jobs[i].c, s.engine, s'.engine, s.jobs[i].work) && Finished(s'.jobs[i]) && s'.jobs == s.jobs[i := s'.jobs[i]]
      && s'.engine.Keys <= s'.issued && s'.jobs[i].work == s.jobs[i].work
  {
    var s' := Apply(s, Move(i, true, newId));
    forall name | NameUsed(s'.engine, name)
      ensures NameUsed(s.engine, name)
    {
      var id :| id in s'.engine && s'.engine[id].name == name;
      assert id in s.engine && s.engine[id].name == name;
    }
  }

  lemma CompleteRemove(s: State, i: nat, newId: Id)
    requires i < |s.jobs| && Untouched(s.jobs[i]) && s.jobs[i].work.Remove? && Clear(s.jobs[i].c, s.engine, s.jobs[i].work)
    requires UniqueNames(s.engine) && s.engine.Keys <= s.issued
    ensures var m := Move(i, true, newId);
      && Enabled(s, m) && Enabled(Apply(s, m), m)
      && var s' := Apply(Apply(s, m), m);
      && Settled(s.jobs[i].c, s.engine, s'.engine, s.jobs[i].work) && Finished(s'.jobs[i]) && s'.jobs == s.jobs[i := s'.jobs[i]]
      && s'.engine.Keys <= s'.issued && s'.jobs[i].work == s.jobs[i].work
  {
    var m := Move(i, true, newId);
    var s1 := Apply(s, m);
    var s2 := Apply(s1, m);
    forall name | NameUsed(s2.engine, name)
      ensures NameUsed(s.engine, name)
    {
      var id :| id in s2.engine && s2.engine[id].name == name;
      assert id in s.engine && s.engine[id].name == name;
    }
  }

  /** The state after the first two calls of a replacement: stopped and out of the way. */
  lemma StopAndRename(s: State, i: nat, newId: Id)
    requires i < |s.jobs| && Untouched(s.jobs[i]) && s.jobs[i].work.Recreate? && Clear(s.jobs[i].c, s.engine, s.jobs[i].work)
    requires UniqueNames(s.engine)
    ensures var m, was := Move(i, true, newId), s.jobs[i].work.was;
      && Enabled(s, m) && Enabled(Apply(s, m), m)
      && var s' := Apply(Apply(s, m), m);
      && s'.jobs == s.jobs[i := s.jobs[i].(pc := 2)] && s'.issued == s.issued && was.id in s'.engine
      && s'.engine[was.id].state != Running && s'.engine[was.id].state != Restarting
      && s'.engine[was.id].name == TemporaryName(was)
      && s'.engine.Keys == s.engine.Keys && (forall id :: id in s.engine && id != was.id ==> s'.engine[id] == s.engine[id])
      && !NameUsed(s'.engine, was.info.name)
  {
    var m, was := Move(i, true, newId), s.jobs[i].work.was;
    var s1 := Apply(s, m);
    forall id | id in s1.engine
      ensures s1.engine[id].name == s.engine[id].name
    {
    }
    assert !NameUsed(s1.engine, TemporaryName(was));
    var s2 := Apply(s1, m);
    forall id | id in s2.engine
      ensures s2.engine[id].name != was.info.name
    {
      assert id == was.id ==> NameUsed(s.engine, was.info.name);
    }
  }

  /** The next two: the new container under the old name, connected. */
  lemma CreateAndConnect(s: State, i: nat, newId: Id)
    requires i < |s.jobs| && s.jobs[i].work.Recreate? && s.jobs[i].pc == 2 && !s.jobs[i].failed
    requires s.jobs[i].work.was.info.number.Some? && s.jobs[i].work.was.id in s.engine
    requires s.engine.Keys <= s.issued && newId !in s.issued && !NameUsed(s.engine, s.jobs[i].work.was.info.name)
    ensures var m, was := Move(i, true, newId), s.jobs[i].work.was;
      && Enabled(s, m) && Enabled(Apply(s, m), m)
      && var s' := Apply(Apply(s, m), m);
      && s'.jobs == s.jobs[i := s.jobs[i].(pc := 4, made := Some(newId))]
      && s'.issued == s.issued + {newId}
      && s'.engine == s.engine[newId := Product(s.jobs[i].c, s.jobs[i].work)]
  {
  }

  /** The last one: the old container gone. */
  lemma RemoveReplaced(s: State, i: nat, newId: Id)
    requires i < |s.jobs| && s.jobs[i].work.Recreate? && s.jobs[i].pc == 4 && !s.jobs[i].failed
    requires s.jobs[i].work.was.id in s.engine
    requires s.engine[s.jobs[i].work.was.id].state != Running && s.engine[s.jobs[i].work.was.id].state != Restarting
    ensures var m, was := Move(i, true, newId), s.jobs[i].work.was;
      && Enabled(s, m)
      && var s' := Apply(s, m);
      && Finished(s'.jobs[i]) && s'.jobs == s.jobs[i := s'.jobs[i]] && s'.jobs[i].work == s.jobs[i].work
      && s'.issued == s.issued && s'.engine == s.engine - {was.id}
  {
  }

  lemma ReplacementSettles(c: Context, e: Engine, e2: Engine, e': Engine, w: Work, newId: Id)
    requires w.Recreate? && Clear(c, e, w) && UniqueNames(e) && newId !in e
    requires e2.Keys == e.Keys && forall id :: id in e && id != w.was.id ==> e2[id] == e[id]
    requires e' == (e2 - {w.was.id})[newId := Product(c, w)]
    ensures Settled(c, e, e', w)
  {
    forall id | id in e'
      ensures id != newId ==> id in e && e'[id] == e[id] && id != w.was.id
    {
    }
    forall name | NameUsed(e', name)
      ensures NameUsed(e, name)
    {
      var id :| id in e' && e'[id].name == name;
      assert id == newId ==> e[w.was.id].name == name;
    }
  }

  /** The second half of a replacement, from where the old container is out of the way. */
  lemma Exchange(s0: State, half: seq<Move>, i: nat, newId: Id) returns (moves': seq<Move>)
    requires Feasible(s0, half)
    requires var s := Exec(s0, half);
      && i < |s.jobs| && s.jobs[i].work.Recreate? && s.jobs[i].pc == 2 && !s.jobs[i].failed
      && s.jobs[i].work.was.info.number.Some? && s.jobs[i].work.was.id in s.engine
      && s.engine[s.jobs[i].work.was.id].state != Running && s.engine[s.jobs[i].work.was.id].state != Restarting
      && s.engine.Keys <= s.issued && newId !in s.issued && !NameUsed(s.engine, s.jobs[i].work.was.info.name)
    ensures Feasible(s0, moves')
    ensures var s, s' := Exec(s0, half), Exec(s0, moves');
      && |s'.jobs| == |s.jobs| && Finished(s'.jobs[i]) && s'.jobs == s.jobs[i := s'.jobs[i]]
      && s'.engine.Keys <= s'.issued
      && s'.engine == (s.engine - {s.jobs[i].work.was.id})[newId := Product(s.jobs[i].c, s.jobs[i].work)]
  {
    hide Feasible;
    hide Exec;
    hide NameUsed;
    var s, m := Exec(s0, half), Move(i, true, newId);
    CreateAndConnect(s, i, newId);
    var most := Twice(s0, half, m);
    RemoveReplaced(Exec(s0, most), i, newId);
    Extend(s0, most, m);
    moves' := most + [m];
  }

  lemma CompleteRecreate(s0: State, moves: seq<Move>, i: nat, newId: Id) returns (moves': seq<Move>)
    requires Feasible(s0, moves)
    requires var s := Exec(s0, moves);
      && i < |s.jobs| && Untouched(s.jobs[i]) && s.jobs[i].work.Recreate? && Clear(s.jobs[i].c, s.engine, s.jobs[i].work)
      && UniqueNames(s.engine) && s.engine.Keys <= s.issued && newId !in s.issued
    ensures Feasible(s0, moves')
    ensures var s, s' := Exec(s0, moves), Exec(s0, moves');
      && |s'.jobs| == |s.jobs| && Finished(s'.jobs[i]) && s'.jobs == s.jobs[i := s'.jobs[i]]
      && s'.engine.Keys <= s'.issued && Settled(s.jobs[i].c, s.engine, s'.engine, s.jobs[i].work)
  {
    hide Settled;
    hide UniqueNames;
    hide Feasible;
    hide Exec;
    var s := Exec(s0, moves);
    StopAndRename(s, i, newId);
    var half := Twice(s0, moves, Move(i, true, newId));
    var s2 := Exec(s0, half);
    moves' := Exchange(s0, half, i, newId);
    ReplacementSettles(s.jobs[i].c, s.engine, s2.engine, Exec(s0, moves').engine, s.jobs[i].work, newId);
  }

  /** Carry one untouched piece of work through to its end. */
  lemma CompleteOne(s0: State, moves: seq<Move>, i: nat) returns (moves': seq<Move>)
    requires Feasible(s0, moves) && Orderly(Exec(s0, moves))
    requires i < |Exec(s0, moves).jobs| && Untouched(Exec(s0, moves).jobs[i])
    ensures Feasible(s0, moves')
    ensures var s, s' := Exec(s0, moves), Exec(s0, moves');
      && |s'.jobs| == |s.jobs| && Finished(s'.jobs[i]) && s'.jobs == s.jobs[i := s'.jobs[i]]
      && s'.engine.Keys <= s'.issued && Settled(s.jobs[i].c, s.engine, s'.engine, s.jobs[i].work)
  {
    var s := Exec(s0, moves);
    var newId := UnusedId(s.issued);
    var m, w := Move(i, true, newId), s.jobs[i].work;
    assert !Finished(s.jobs[i]);
    match w {
      case Create(_) =>
        CompleteCreate(s, i, newId);
        moves' := Twice(s0, moves, m);
      case Restart(_) =>
        CompleteRestart(s, i, newId);
        Extend(s0, moves, m);
        moves' := moves + [m];
      case Remove(_) =>
        CompleteRemove(s, i, newId);
        moves' := Twice(s0, moves, m);
      case Recreate(_) =>
        moves' := CompleteRecreate(s0, moves, i, newId);
    }
  }

  lemma Twice(s0: State, moves: seq<Move>, m: Move) returns (moves': seq<Move>)
    requires Feasible(s0, moves) && Enabled(Exec(s0, moves), m) && Enabled(Apply(Exec(s0, moves), m), m)
    ensures Feasible(s0, moves')
    ensures Exec(s0, moves') == Apply(Apply(Exec(s0, moves), m), m)
  {
    Extend(s0, moves, m);
    Extend(s0, moves + [m], m);
    moves' := moves + [m] + [m];
  }

  function Remaining(jobs: seq<Job>): (n: nat)
    ensures n == 0 <==> forall i :: 0 <= i < |jobs| ==> !Untouched(jobs[i])
  {
    if jobs == [] then 0
    else
      var n := |jobs| - 1;
      Remaining(jobs[..n]) + if Untouched(jobs[n]) then 1 else 0
  }

  lemma {:induction false} OneLess(jobs: seq<Job>, i: nat, j: Job)
    requires i < |jobs| && Untouched(jobs[i]) && !Untouched(j)
    ensures Remaining(jobs[i := j]) == Remaining(jobs) - 1
  {
    var n := |jobs| - 1;
    if i < n {
      OneLess(jobs[..n], i, j);
      assert jobs[i := j][..n] == jobs[..n][i := j];
    } else {
      assert jobs[i := j][..n] == jobs[..n];
    }
  }

  /** Completing restarts first keeps the rest of the work clear. */
  lemma StaysOrderly(s: State, s': State, i: nat)
    requires Orderly(s) && i < |s.jobs| && Untouched(s.jobs[i])
    requires |s'.jobs| == |s.jobs| && Finished(s'.jobs[i]) && s'.jobs == s.jobs[i := s'.jobs[i]]
    requires s'.engine.Keys <= s'.issued && Settled(s.jobs[i].c, s.engine, s'.engine, s.jobs[i].work)
    requires s.jobs[i].work.Restart? || forall k :: 0 <= k < |s.jobs| && Untouched(s.jobs[k]) ==> !s.jobs[k].work.Restart?
    ensures Orderly(s')
  {
    forall k | 0 <= k < |s.jobs| && k != i && Untouched(s.jobs[k])
      ensures Clear(s.jobs[k].c, s'.engine, s.jobs[k].work)
    {
      assert CompatibleJobs(s.jobs[i], s.jobs[k]) && CompatibleJobs(s.jobs[k], s.jobs[i]);
      assert Clear(s.jobs[k].c, s.engine, s.jobs[k].work);
    }
  }

  /** From a state in which all remaining work is clear, some schedule carries all of it out. */
  lemma {:induction false} CompleteAll(s0: State, moves: seq<Move>) returns (moves': seq<Move>)
    requires Feasible(s0, moves) && Orderly(Exec(s0, moves))
    ensures Feasible(s0, moves') && Succeeded(Exec(s0, moves'))
    decreases Remaining(Exec(s0, moves).jobs)
  {
    var s := Exec(s0, moves);
    if exists i :: 0 <= i < |s.jobs| && Untouched(s.jobs[i]) {
      var i :| 0 <= i < |s.jobs| && Untouched(s.jobs[i]);
      if exists k :: 0 <= k < |s.jobs| && Untouched(s.jobs[k]) && s.jobs[k].work.Restart? {
        i :| 0 <= i < |s.jobs| && Untouched(s.jobs[i]) && s.jobs[i].work.Restart?;
      }
      var longer := CompleteOne(s0, moves, i);
      var s' := Exec(s0, longer);
      StaysOrderly(s, s', i);
      OneLess(s.jobs, i, s'.jobs[i]);
      moves' := CompleteAll(s0, longer);
    } else {
      moves' := moves;
    }
  }
}
