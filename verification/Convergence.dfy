/**
 * Bringing services' containers to their configuration: the calls `ensureService` decides on, and the
 * goroutines that make them, interleaved in any order with any call refused. A pool may hold the
 * goroutines of several services and of several calls for the same one.
 */
module Convergence {
  import opened Wrappers
  import opened Numerals
  import opened ContainerEngine

  /** `forceRecreate` is the lifecycle flag as the call that uses this configuration reads it; others may set it before. */
  datatype ServiceSpec = ServiceSpec(
    name: string,
    containerName: string,
    replicas: Option<int>,
    scale: int,
    hash: string,
    networks: nat,
    forceRecreate: bool)

  /** What a goroutine started by `ensureService` is to do. */
  datatype Work =
    | Create(number: int)
    | Remove(was: Snapshot)
    | Recreate(was: Snapshot)
    | Restart(was: Snapshot)

  datatype Context = Context(project: string, service: ServiceSpec)

  /** A goroutine for a service after `pc` successful calls; `made` is the id its create call returned. */
  datatype Job = Job(c: Context, work: Work, pc: nat, made: Option<Id>, failed: bool)

  /** `issued` are all the ids the engine has ever given out; it does not reuse them. */
  datatype State = State(engine: Engine, issued: set<Id>, jobs: seq<Job>)

  /** Goroutine `i` makes its next call; a created container gets the id `newId`. */
  datatype Move = Move(i: nat, ok: bool, newId: Id)

  function ContainerName(c: Context, number: int): string {
    if c.service.containerName != "" then c.service.containerName
    else c.project + "_" + c.service.name + "_" + Itoa(number)
  }

  function TemporaryName(was: Snapshot): string {
    was.id[..12] + "_" + was.info.name
  }

  /** The container a create call asks for. */
  function Fresh(c: Context, name: string, number: int): Container {
    Container(name, c.project, c.service.name, Some(number), c.service.hash, Created)
  }

  function NumberOf(was: Snapshot): int {
    if was.info.number.Some? then was.info.number.value else 0
  }

  /** The container a goroutine creates, if it gets that far. */
  function Product(c: Context, w: Work): Container {
    match w
    case Create(number) => Fresh(c, ContainerName(c, number), number)
    case Remove(was) => was.info
    case Recreate(was) => Fresh(c, was.info.name, NumberOf(was))
    case Restart(was) => was.info
  }

  /** The calls a goroutine makes, in order. */
  function Script(j: Job, newId: Id): seq<Call> {
    var create := CreateCall(newId, Product(j.c, j.work));
    match j.work
    case Create(_) => [create, ConnectCall(newId)]
    case Remove(was) => [StopCall(was.id), RemoveCall(was.id)]
    case Recreate(was) => [StopCall(was.id), RenameCall(was.id, TemporaryName(was)), create, ConnectCall(newId), RemoveCall(was.id)]
    case Restart(was) => [StartCall(was.id)]
  }

  predicate Finished(j: Job) {
    !j.failed && j.pc == match j.work case Create(_) => 2 case Remove(_) => 2 case Recreate(_) => 5 case Restart(_) => 1
  }

  predicate Ended(j: Job) {
    j.failed || Finished(j)
  }

  /** `recreateContainer` parses the number label after renaming; a label it cannot parse ends it there. */
  predicate Unparsable(j: Job) {
    j.work.Recreate? && j.pc == 2 && j.work.was.info.number.None?
  }

  function NextCall(j: Job, newId: Id): Call
    requires !Ended(j) && j.pc < |Script(j, newId)|
  {
    var call := Script(j, newId)[j.pc];
    if call.ConnectCall? && j.made.Some? then ConnectCall(j.made.value) else call
  }

  ghost predicate Enabled(s: State, m: Move) {
    && m.i < |s.jobs| && !Ended(s.jobs[m.i])
    && s.jobs[m.i].pc < |Script(s.jobs[m.i], m.newId)|
    && (!m.ok && NextCall(s.jobs[m.i], m.newId).ConnectCall? ==> s.jobs[m.i].c.service.networks > 0)
    && (m.ok ==>
          && !Unparsable(s.jobs[m.i])
          && var call := NextCall(s.jobs[m.i], m.newId);
          Possible(s.engine, call) && (call.CreateCall? ==> m.newId !in s.issued))
  }

  function Apply(s: State, m: Move): State
    requires m.i < |s.jobs| && !Ended(s.jobs[m.i])
    requires s.jobs[m.i].pc < |Script(s.jobs[m.i], m.newId)|
  {
    var j := s.jobs[m.i];
    if !m.ok then
      s.(jobs := s.jobs[m.i := j.(failed := true)])
    else
      var call := NextCall(j, m.newId);
      State(Perform(s.engine, call),
            if call.CreateCall? then s.issued + {m.newId} else s.issued,
            s.jobs[m.i := j.(pc := j.pc + 1, made := if call.CreateCall? then Some(m.newId) else j.made)])
  }

  ghost predicate Feasible(s0: State, moves: seq<Move>)
    decreases |moves|, 0
  {
    moves == [] ||
    (Feasible(s0, moves[..|moves| - 1]) && Enabled(Exec(s0, moves[..|moves| - 1]), moves[|moves| - 1]))
  }

  ghost function Exec(s0: State, moves: seq<Move>): State
    requires Feasible(s0, moves)
    decreases |moves|, 1
  {
    if moves == [] then s0
    else Apply(Exec(s0, moves[..|moves| - 1]), moves[|moves| - 1])
  }

  lemma Extend(s0: State, moves: seq<Move>, m: Move)
    requires Feasible(s0, moves) && Enabled(Exec(s0, moves), m)
    ensures Feasible(s0, moves + [m])
    ensures Exec(s0, moves + [m]) == Apply(Exec(s0, moves), m)
  {
    assert (moves + [m])[..|moves|] == moves;
  }

  ghost predicate Succeeded(s: State) {
    forall i :: 0 <= i < |s.jobs| ==> Finished(s.jobs[i])
  }

  /** The existing container a goroutine works on. */
  predicate WorksOn(w: Work, id: Id) {
    !w.Create? && w.was.id == id
  }

  predicate Replaces(w: Work, id: Id) {
    w.Recreate? && w.was.id == id
  }

  predicate TakesAway(w: Work, id: Id) {
    (w.Recreate? || w.Remove?) && w.was.id == id
  }

  /** Goroutines at their start, working on containers as they are in `e0`. */
  ghost predicate Start(e0: Engine, jobs: seq<Job>) {
    forall i :: 0 <= i < |jobs| ==>
      && jobs[i].pc == 0 && jobs[i].made == None && !jobs[i].failed
      && Current(e0, jobs[i].work)
  }

  predicate Current(e0: Engine, w: Work) {
    !w.Create? ==> w.was.id in e0 && e0[w.was.id] == w.was.info
  }

  // ---------- the invariant of every interleaving ----------

  ghost predicate JobOk(e0: Engine, e: Engine, j: Job) {
    && Current(e0, j.work)
    && (j.made.Some? <==> (j.work.Create? && j.pc >= 1) || (j.work.Recreate? && j.pc >= 3))
    && (j.work.Recreate? && j.pc >= 3 ==> j.work.was.info.number.Some?)
    && (j.made.Some? ==> j.made.value !in e0 && j.made.value in e && e[j.made.value] == Product(j.c, j.work))
    && (j.work.Recreate? && j.pc >= 2 && j.work.was.id in e ==> e[j.work.was.id].name == TemporaryName(j.work.was))
    && ((j.work.Recreate? && j.pc >= 5) || (j.work.Remove? && j.pc >= 2) ==> j.work.was.id !in e && Finished(j))
  }

  /** What has become of an existing container. */
  ghost predicate FateOk(e0: Engine, s: State, id: Id)
    requires id in e0
  {
    && (id in s.engine ==> s.engine[id] == e0[id].(name := s.engine[id].name, state := s.engine[id].state))
    && (id in s.engine && s.engine[id].name != e0[id].name ==> exists i :: 0 <= i < |s.jobs| && Replaces(s.jobs[i].work, id))
    && (id in s.engine && s.engine[id].state != e0[id].state ==> exists i :: 0 <= i < |s.jobs| && WorksOn(s.jobs[i].work, id))
    && (id !in s.engine ==> exists i :: 0 <= i < |s.jobs| && TakesAway(s.jobs[i].work, id))
    && (forall i :: 0 <= i < |s.jobs| && s.jobs[i].work.Restart? && s.jobs[i].work.was.id == id && s.jobs[i].pc >= 1 ==>
          (id in s.engine && s.engine[id].state == Running) || exists k :: 0 <= k < |s.jobs| && TakesAway(s.jobs[k].work, id))
  }

  ghost predicate Inv(e0: Engine, s: State) {
    && e0.Keys <= s.issued && s.engine.Keys <= s.issued
    && (forall i :: 0 <= i < |s.jobs| ==> JobOk(e0, s.engine, s.jobs[i]))
    && (forall i, k :: 0 <= i < |s.jobs| && 0 <= k < |s.jobs| && i != k ==> Apart(s.jobs[i], s.jobs[k]))
    && (forall id :: id in e0 ==> FateOk(e0, s, id))
    && (forall id :: id in s.engine && id !in e0 ==> exists i :: 0 <= i < |s.jobs| && s.jobs[i].made == Some(id))
  }

  /** Two goroutines that have not created the same container or name, nor both renamed or removed the same one. */
  predicate Apart(j: Job, k: Job) {
    && (j.made.Some? ==> j.made != k.made)
    && (j.made.Some? && k.made.Some? ==> Product(j.c, j.work).name != Product(k.c, k.work).name)
    && !(j.work.Recreate? && k.work.Recreate? && j.work.was.id == k.work.was.id && j.pc >= 2 && k.pc >= 2)
    && !(j.work.Remove? && k.work.Remove? && j.work.was.id == k.work.was.id && j.pc >= 2 && k.pc >= 2)
  }

  lemma StartInv(e0: Engine, issued: set<Id>, jobs: seq<Job>)
    requires Start(e0, jobs) && e0.Keys <= issued
    ensures Inv(e0, State(e0, issued, jobs))
  {
  }

  /** The goroutine that makes the call. */
  lemma OwnStep(e0: Engine, s: State, m: Move)
    requires Enabled(s, m) && m.ok && JobOk(e0, s.engine, s.jobs[m.i])
    requires NextCall(s.jobs[m.i], m.newId).CreateCall? ==> m.newId !in e0
    ensures JobOk(e0, Apply(s, m).engine, Apply(s, m).jobs[m.i])
  {
    var j := s.jobs[m.i];
    var call := NextCall(j, m.newId);
    match j.work {
      case Create(_) => assert j.pc == 0 || j.pc == 1;
      case Remove(_) => assert j.pc == 0 || j.pc == 1;
      case Recreate(_) => assert j.pc == 0 || j.pc == 1 || j.pc == 2 || j.pc == 3 || j.pc == 4;
      case Restart(_) => assert j.pc == 0;
    }
  }

  /** Any other goroutine. */
  lemma OtherStep(e0: Engine, s: State, m: Move, i: nat)
    requires Enabled(s, m) && m.ok && i < |s.jobs| && i != m.i
    requires JobOk(e0, s.engine, s.jobs[i]) && JobOk(e0, s.engine, s.jobs[m.i])
    requires NextCall(s.jobs[m.i], m.newId).CreateCall? ==> m.newId !in e0
    requires s.engine.Keys <= s.issued && Apart(s.jobs[i], s.jobs[m.i])
    ensures JobOk(e0, Apply(s, m).engine, Apply(s, m).jobs[i])
    ensures Apart(Apply(s, m).jobs[i], Apply(s, m).jobs[m.i])
  {
    // a name another goroutine has given is refused, and so is a second renaming or removal of one container
  }

  /** Which goroutine works on which container never changes. */
  lemma SameWork(s: State, m: Move)
    requires Enabled(s, m)
    ensures |Apply(s, m).jobs| == |s.jobs|
    ensures forall i :: 0 <= i < |s.jobs| ==> Apply(s, m).jobs[i].work == s.jobs[i].work && Apply(s, m).jobs[i].c == s.jobs[i].c
  {
  }

  lemma WorkersStay(jobs: seq<Job>, jobs': seq<Job>, id: Id)
    requires SameWorks(jobs, jobs')
    ensures (exists i :: 0 <= i < |jobs| && Replaces(jobs[i].work, id)) ==> exists i :: 0 <= i < |jobs'| && Replaces(jobs'[i].work, id)
    ensures (exists i :: 0 <= i < |jobs| && WorksOn(jobs[i].work, id)) ==> exists i :: 0 <= i < |jobs'| && WorksOn(jobs'[i].work, id)
    ensures (exists i :: 0 <= i < |jobs| && TakesAway(jobs[i].work, id)) ==> exists i :: 0 <= i < |jobs'| && TakesAway(jobs'[i].work, id)
  {
    if i :| 0 <= i < |jobs| && Replaces(jobs[i].work, id) {
      assert Replaces(jobs'[i].work, id);
    }
    if i :| 0 <= i < |jobs| && WorksOn(jobs[i].work, id) {
      assert WorksOn(jobs'[i].work, id);
    }
    if i :| 0 <= i < |jobs| && TakesAway(jobs[i].work, id) {
      assert TakesAway(jobs'[i].work, id);
    }
  }

  /** The call is not on this container. */
  lemma FateUntouched(e0: Engine, s: State, m: Move, id: Id)
    requires Enabled(s, m) && id in e0 && FateOk(e0, s, id)
    requires m.ok ==> NextCall(s.jobs[m.i], m.newId).ConnectCall? || NextCall(s.jobs[m.i], m.newId).id != id
    ensures FateOk(e0, Apply(s, m), id)
  {
    SameWork(s, m);
    WorkersStay(s.jobs, Apply(s, m).jobs, id);
  }

  /** The call is on this container, by a goroutine that works on it. */
  lemma FateTouched(e0: Engine, s: State, m: Move, id: Id)
    requires Enabled(s, m) && id in e0 && FateOk(e0, s, id) && m.ok
    requires var call := NextCall(s.jobs[m.i], m.newId);
      call.id == id && !call.ConnectCall? && !call.CreateCall?
    ensures FateOk(e0, Apply(s, m), id)
  {
    SameWork(s, m);
    var s' := Apply(s, m);
    WorkersStay(s.jobs, s'.jobs, id);
    var w, call := s'.jobs[m.i].work, NextCall(s.jobs[m.i], m.newId);
    assert WorksOn(w, id);
    assert call.RenameCall? ==> Replaces(w, id);
    assert call.RemoveCall? || call.StopCall? ==> TakesAway(w, id);
  }

  lemma FateStep(e0: Engine, s: State, m: Move, id: Id)
    requires Enabled(s, m) && id in e0 && FateOk(e0, s, id)
    requires m.ok && m.newId == id ==> !NextCall(s.jobs[m.i], m.newId).CreateCall?
    ensures FateOk(e0, Apply(s, m), id)
  {
    hide FateOk;
    if !m.ok || NextCall(s.jobs[m.i], m.newId).ConnectCall? || NextCall(s.jobs[m.i], m.newId).id != id {
      FateUntouched(e0, s, m, id);
    } else {
      FateTouched(e0, s, m, id);
    }
  }

  lemma MadeStep(e0: Engine, s: State, m: Move, id: Id)
    requires Enabled(s, m) && m.ok && id in Apply(s, m).engine && id !in e0
    requires JobOk(e0, s.engine, s.jobs[m.i])
    requires id in s.engine ==> exists i :: 0 <= i < |s.jobs| && s.jobs[i].made == Some(id)
    ensures exists i :: 0 <= i < |s.jobs| && Apply(s, m).jobs[i].made == Some(id)
  {
    var s' := Apply(s, m);
    var call := NextCall(s.jobs[m.i], m.newId);
    if id in s.engine {
      var i :| 0 <= i < |s.jobs| && s.jobs[i].made == Some(id);
      assert i == m.i ==> !call.CreateCall?;
      assert s'.jobs[i].made == Some(id);
    } else {
      assert s'.jobs[m.i].made == Some(id);
    }
  }

  lemma StepInv(e0: Engine, s: State, m: Move)
    requires Inv(e0, s) && Enabled(s, m)
    ensures Inv(e0, Apply(s, m))
  {
    hide JobOk;
    hide FateOk;
    hide Apart;
    forall id | id in e0
      ensures FateOk(e0, Apply(s, m), id)
    {
      FateStep(e0, s, m, id);
    }
    if m.ok {
      SuccessInv(e0, s, m);
    } else {
      RefusalInv(e0, s, m);
    }
  }

  lemma StillOk(e0: Engine, e: Engine, j: Job)
    requires JobOk(e0, e, j) && !Ended(j)
    ensures JobOk(e0, e, j.(failed := true))
    ensures forall k :: (Apart(j, k) ==> Apart(j.(failed := true), k)) && (Apart(k, j) ==> Apart(k, j.(failed := true)))
  {
  }

  lemma RefusalInv(e0: Engine, s: State, m: Move)
    requires Inv(e0, s) && Enabled(s, m) && !m.ok
    requires forall id :: id in e0 ==> FateOk(e0, Apply(s, m), id)
    ensures Inv(e0, Apply(s, m))
  {
    hide FateOk;
    hide JobOk;
    hide Apart;
    var s' := Apply(s, m);
    StillOk(e0, s.engine, s.jobs[m.i]);
    assert s'.engine == s.engine && s'.jobs == s.jobs[m.i := s.jobs[m.i].(failed := true)];
    forall i, k | 0 <= i < |s'.jobs| && 0 <= k < |s'.jobs| && i != k
      ensures Apart(s'.jobs[i], s'.jobs[k])
    {
      assert Apart(s.jobs[i], s.jobs[k]);
    }
    forall id | id in s'.engine && id !in e0
      ensures exists i :: 0 <= i < |s'.jobs| && s'.jobs[i].made == Some(id)
    {
      var i :| 0 <= i < |s.jobs| && s.jobs[i].made == Some(id);
      assert s'.jobs[i].made == Some(id);
    }
  }

  lemma SuccessInv(e0: Engine, s: State, m: Move)
    requires Inv(e0, s) && Enabled(s, m) && m.ok
    requires forall id :: id in e0 ==> FateOk(e0, Apply(s, m), id)
    ensures Inv(e0, Apply(s, m))
  {
    var s' := Apply(s, m);
    OwnStep(e0, s, m);
    forall i | 0 <= i < |s'.jobs|
      ensures JobOk(e0, s'.engine, s'.jobs[i])
      ensures i != m.i ==> Apart(s'.jobs[i], s'.jobs[m.i])
    {
      if i != m.i {
        OtherStep(e0, s, m, i);
      }
    }
    ApartStep(s.jobs, s'.jobs, m.i);
    forall id | id in s'.engine && id !in e0
      ensures exists i :: 0 <= i < |s'.jobs| && s'.jobs[i].made == Some(id)
    {
      MadeStep(e0, s, m, id);
    }
  }

  lemma ApartStep(jobs: seq<Job>, jobs': seq<Job>, n: nat)
    requires n < |jobs| == |jobs'| && jobs' == jobs[n := jobs'[n]]
    requires forall i, k :: 0 <= i < |jobs| && 0 <= k < |jobs| && i != k ==> Apart(jobs[i], jobs[k])
    requires forall i :: 0 <= i < |jobs'| && i != n ==> Apart(jobs'[i], jobs'[n])
    ensures forall i, k :: 0 <= i < |jobs'| && 0 <= k < |jobs'| && i != k ==> Apart(jobs'[i], jobs'[k])
  {
    forall i, k | 0 <= i < |jobs'| && 0 <= k < |jobs'| && i != k
      ensures Apart(jobs'[i], jobs'[k])
    {
      if i == n {
        assert Apart(jobs'[k], jobs'[n]);
      }
    }
  }

  lemma {:induction false} Reachable(e0: Engine, issued: set<Id>, jobs: seq<Job>, moves: seq<Move>)
    requires Start(e0, jobs) && e0.Keys <= issued && Feasible(State(e0, issued, jobs), moves)
    ensures Inv(e0, Exec(State(e0, issued, jobs), moves))
    ensures SameWorks(jobs, Exec(State(e0, issued, jobs), moves).jobs)
    decreases |moves|
  {
    var s0 := State(e0, issued, jobs);
    if moves == [] {
      StartInv(e0, issued, jobs);
    } else {
      var before := moves[..|moves| - 1];
      Reachable(e0, issued, jobs, before);
      StepInv(e0, Exec(s0, before), moves[|moves| - 1]);
    }
  }

  ghost predicate SameWorks(jobs: seq<Job>, jobs': seq<Job>) {
    |jobs| == |jobs'| && forall i :: 0 <= i < |jobs| ==> jobs[i].work == jobs'[i].work && jobs[i].c == jobs'[i].c
  }
}
