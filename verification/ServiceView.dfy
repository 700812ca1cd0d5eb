/** What one service sees of a pool of goroutines for several: a run of its own goroutines on its own containers. */
module ServiceView {
  import opened ContainerEngine
  import opened Convergence

  predicate Mine(j: Job, project: string, service: string) {
    j.c.project == project && j.c.service.name == service
  }

  /** A service's goroutines, in order. */
  function MineOf(jobs: seq<Job>, project: string, service: string): seq<Job> {
    if jobs == [] then []
    else
      var n := |jobs| - 1;
      var rest := MineOf(jobs[..n], project, service);
      if Mine(jobs[n], project, service) then rest + [jobs[n]] else rest
  }

  /** A service's containers. */
  function Part(e: Engine, project: string, service: string): Engine {
    map id | id in e && Belongs(e[id], project, service) :: e[id]
  }

  lemma {:induction false} MineConcat(a: seq<Job>, b: seq<Job>, project: string, service: string)
    ensures MineOf(a + b, project, service) == MineOf(a, project, service) + MineOf(b, project, service)
  {
    if b == [] {
      assert a + b == a;
    } else {
      var n := |b| - 1;
      assert (a + b)[..|a + b| - 1] == a + b[..n];
      MineConcat(a, b[..n], project, service);
    }
  }

  /** Where a service's goroutine stands among its own. */
  function Place(jobs: seq<Job>, project: string, service: string, i: nat): nat
    requires i <= |jobs|
  {
    |MineOf(jobs[..i], project, service)|
  }

  lemma Around(jobs: seq<Job>, i: nat)
    requires i < |jobs|
    ensures jobs == jobs[..i] + [jobs[i]] + jobs[i + 1..]
  {
  }

  lemma MineSplit(a: seq<Job>, j: Job, b: seq<Job>, project: string, service: string)
    ensures MineOf(a + [j] + b, project, service)
            == MineOf(a, project, service) + (if Mine(j, project, service) then [j] else []) + MineOf(b, project, service)
  {
    MineConcat(a + [j], b, project, service);
    assert (a + [j])[..|a|] == a;
  }

  /** What becomes of a service's goroutines when one goroutine of the pool moves on. */
  lemma MineUpdate(jobs: seq<Job>, project: string, service: string, i: nat, j: Job)
    requires i < |jobs| && j.c == jobs[i].c
    ensures var mine, place := MineOf(jobs, project, service), Place(jobs, project, service, i);
      if Mine(j, project, service)
      then place < |mine| && mine[place] == jobs[i] && MineOf(jobs[i := j], project, service) == mine[place := j]
      else MineOf(jobs[i := j], project, service) == mine
  {
    var a, b := jobs[..i], jobs[i + 1..];
    Around(jobs, i);
    assert jobs[i := j] == a + [j] + b;
    MineSplit(a, jobs[i], b, project, service);
    MineSplit(a, j, b, project, service);
    Middle(MineOf(a, project, service), jobs[i], j, MineOf(b, project, service));
  }

  lemma Middle(a: seq<Job>, x: Job, y: Job, b: seq<Job>)
    ensures (a + [x] + b)[|a|] == x && (a + [x] + b)[|a| := y] == a + [y] + b
  {
  }

  /** Goroutines work on containers of their own service. */
  ghost predicate OwnWork(jobs: seq<Job>) {
    forall i :: 0 <= i < |jobs| ==> OwnContainer(jobs[i])
  }

  predicate OwnContainer(j: Job) {
    !j.work.Create? ==> Belongs(j.work.was.info, j.c.project, j.c.service.name)
  }

  /** A call on a container of the service, or one that makes one. */
  predicate Concerns(e: Engine, call: Call, project: string, service: string) {
    match call
    case CreateCall(_, container) => Belongs(container, project, service)
    case _ => call.id in e && Belongs(e[call.id], project, service)
  }

  lemma PartOfOwn(e: Engine, call: Call, project: string, service: string)
    requires Possible(e, call) && !call.ConnectCall? && Concerns(e, call, project, service)
    ensures Possible(Part(e, project, service), call)
    ensures Part(Perform(e, call), project, service) == Perform(Part(e, project, service), call)
  {
  }

  lemma PartOfOthers(e: Engine, call: Call, project: string, service: string)
    requires Possible(e, call) && !Concerns(e, call, project, service)
    ensures Part(Perform(e, call), project, service) == Part(e, project, service)
  {
  }

  /** The calls of a goroutine concern its service and no other. */
  lemma CallsConcernOwn(e0: Engine, s: State, m: Move, project: string, service: string)
    requires Inv(e0, s) && Enabled(s, m) && m.ok && OwnContainer(s.jobs[m.i])
    ensures var call := NextCall(s.jobs[m.i], m.newId);
      !call.ConnectCall? ==> (Concerns(s.engine, call, project, service) <==> Mine(s.jobs[m.i], project, service))
  {
    var j := s.jobs[m.i];
    assert JobOk(e0, s.engine, j);
    if !j.work.Create? {
      assert FateOk(e0, s, j.work.was.id);
    }
  }

  /** The state as the service sees it. */
  ghost predicate Sees(v: State, s: State, project: string, service: string) {
    v.engine == Part(s.engine, project, service) && v.jobs == MineOf(s.jobs, project, service) && v.issued <= s.issued
  }

  lemma OtherMove(e0: Engine, s: State, v: State, m: Move, project: string, service: string)
    requires Inv(e0, s) && Enabled(s, m) && OwnContainer(s.jobs[m.i]) && Sees(v, s, project, service)
    requires !Mine(s.jobs[m.i], project, service)
    ensures Sees(v, Apply(s, m), project, service)
  {
    MineUpdate(s.jobs, project, service, m.i, Apply(s, m).jobs[m.i]);
    if m.ok {
      var call := NextCall(s.jobs[m.i], m.newId);
      CallsConcernOwn(e0, s, m, project, service);
      if !call.ConnectCall? {
        PartOfOthers(s.engine, call, project, service);
      }
    }
  }

  lemma OwnMove(e0: Engine, s: State, v: State, m: Move, project: string, service: string) returns (own: Move)
    requires Inv(e0, s) && Enabled(s, m) && OwnContainer(s.jobs[m.i]) && Sees(v, s, project, service)
    requires Mine(s.jobs[m.i], project, service)
    ensures Enabled(v, own) && Sees(Apply(v, own), Apply(s, m), project, service)
  {
    own := m.(i := Place(s.jobs, project, service, m.i));
    MineUpdate(s.jobs, project, service, m.i, Apply(s, m).jobs[m.i]);
    if m.ok {
      var call := NextCall(s.jobs[m.i], m.newId);
      CallsConcernOwn(e0, s, m, project, service);
      if !call.ConnectCall? {
        PartOfOwn(s.engine, call, project, service);
      }
    }
    SameMove(s, v, m, own, project, service);
  }

  /** The move the service sees is the same one. */
  lemma SameMove(s: State, v: State, m: Move, own: Move, project: string, service: string)
    requires Enabled(s, m) && own.ok == m.ok && own.newId == m.newId && own.i < |v.jobs| && v.jobs[own.i] == s.jobs[m.i]
    requires v.issued <= s.issued && Apply(s, m).issued == if m.ok && NextCall(s.jobs[m.i], m.newId).CreateCall? then s.issued + {m.newId} else s.issued
    requires MineOf(Apply(s, m).jobs, project, service) == v.jobs[own.i := Apply(s, m).jobs[m.i]]
    requires !m.ok ==> v.engine == Part(s.engine, project, service)
    requires var call := NextCall(s.jobs[m.i], m.newId);
      m.ok ==> Possible(v.engine, call) && Part(Perform(s.engine, call), project, service) == Perform(v.engine, call)
    ensures Enabled(v, own) && Sees(Apply(v, own), Apply(s, m), project, service)
  {
  }

  lemma SameOwners(jobs: seq<Job>, jobs': seq<Job>)
    requires SameWorks(jobs, jobs') && OwnWork(jobs)
    ensures OwnWork(jobs')
  {
    forall i | 0 <= i < |jobs'|
      ensures OwnContainer(jobs'[i])
    {
      assert OwnContainer(jobs[i]);
    }
  }

  /**
   * However the goroutines of several services interleave, what one service sees is a schedule of its own
   * goroutines on its own containers.
   */
  lemma {:induction false} ViewOf(e0: Engine, issued: set<Id>, jobs: seq<Job>, moves: seq<Move>, project: string, service: string)
    returns (own: seq<Move>)
    requires Start(e0, jobs) && OwnWork(jobs) && e0.Keys <= issued && Feasible(State(e0, issued, jobs), moves)
    ensures var v0 := State(Part(e0, project, service), issued, MineOf(jobs, project, service));
      Feasible(v0, own) && Sees(Exec(v0, own), Exec(State(e0, issued, jobs), moves), project, service)
    decreases |moves|
  {
    var s0 := State(e0, issued, jobs);
    var v0 := State(Part(e0, project, service), issued, MineOf(jobs, project, service));
    if moves == [] {
      own := [];
    } else {
      var before, m := moves[..|moves| - 1], moves[|moves| - 1];
      own := ViewOf(e0, issued, jobs, before, project, service);
      Reachable(e0, issued, jobs, before);
      var s := Exec(s0, before);
      SameOwners(jobs, s.jobs);
      if Mine(s.jobs[m.i], project, service) {
        var n := OwnMove(e0, s, Exec(v0, own), m, project, service);
        Extend(v0, own, n);
        own := own + [n];
      } else {
        OtherMove(e0, s, Exec(v0, own), m, project, service);
      }
    }
  }
}
