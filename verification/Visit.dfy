/** `visit` on the graph object itself: build it, refuse cycles, then run the goroutines in any order. */
module Visit {
  import opened Wrappers
  import opened Digraph
  import opened DependencyGraph
  import opened Traversal
  import opened Termination

  datatype Outcome = CycleFound(path: seq<Name>) | Traversed(final: State)

  /** The traversal of a project, in dependency order or in reverse. */
  ghost function ProjectConfig(services: seq<Service>, up: bool): Config {
    if up then UpConfig(Dependencies(services), Dependents(services))
    else DownConfig(Dependencies(services), Dependents(services))
  }

  function Initial(up: bool): ServiceStatus {
    if up then Stopped else Started
  }

  predicate Ended(t: Task) {
    t.phase.Returned? || t.phase.Failed?
  }

  lemma ProjectConfigIsWellFormed(services: seq<Service>, up: bool)
    ensures WellFormed(ProjectConfig(services, up))
  {
  }

  /** A topological numbering of the dependencies serves both directions. */
  lemma RankBothWays(services: seq<Service>, up: bool, rank: map<Name, nat>)
    requires Ranks(Dependencies(services), rank)
    ensures exists rank' :: Ranks(ProjectConfig(services, up).awaits, rank')
  {
    if up {
      assert Ranks(ProjectConfig(services, up).awaits, rank);
    } else {
      TransposeRanks(Dependencies(services), Dependents(services), rank);
      var rank' :| Ranks(Dependents(services), rank');
      assert Ranks(ProjectConfig(services, up).awaits, rank');
    }
  }

  ghost predicate Shows(g: Graph, c: Config, up: bool)
    reads g, g.vertices.Values
  {
    g.Valid() && c == (if up then UpConfig(g.Children(), g.Parents()) else DownConfig(g.Children(), g.Parents()))
  }

  /** `UpdateStatus`, then the vertices to look at next. */
  method RecordSuccess(g: Graph, ghost c: Config, up: bool, v: Name) returns (next: set<Name>)
    requires Shows(g, c, up) && v in g.vertices
    modifies g.vertices[v]
    ensures Shows(g, c, up) && g.vertices == old(g.vertices)
    ensures g.Status() == old(g.Status())[v := c.target]
    ensures next == c.triggers[v]
  {
    g.UpdateStatus(v, if up then Started else Stopped);
    next := Keys(if up then g.vertices[v].parents else g.vertices[v].children);
  }

  /** `filterAdjacentByStatusFn` of the direction. */
  method FilterAdjacent(g: Graph, ghost c: Config, up: bool, v: Name) returns (unfinished: set<Name>)
    requires Shows(g, c, up) && v in g.vertices
    ensures unfinished == set u | u in c.awaits[v] && u in g.Status() && g.Status()[u] == c.skip
  {
    if up {
      unfinished := g.FilterChildren(v, Stopped);
    } else {
      unfinished := g.FilterParents(v, Started);
    }
  }

  /** What a step needs to know about its goroutine. */
  predicate Runnable(c: Config, t: Task) {
    && !Ended(t)
    && (t.phase == Succeeded ==> t.node.Some? && t.node.value in c.awaits && t.node.value in c.triggers)
    && (t.phase.Expanding? ==> t.phase.todo <= c.awaits.Keys)
  }

  lemma InvRunnable(c: Config, s: State, i: nat)
    requires WellFormed(c) && Inv(c, s) && i < |s.tasks| && !Ended(s.tasks[i])
    ensures Runnable(c, s.tasks[i])
  {
    assert TaskOk(c, s, s.tasks[i]);
  }

  /** One step of goroutine `i` on the graph object, with any outcome of its callback. */
  method Step(g: Graph, ghost c: Config, up: bool, tasks: seq<Task>, firstError: Option<nat>, i: nat)
    returns (tasks': seq<Task>, firstError': Option<nat>, ghost m: Move)
    requires Shows(g, c, up)
    requires i < |tasks| && Runnable(c, tasks[i])
    modifies g.vertices.Values
    ensures Shows(g, c, up) && g.vertices == old(g.vertices)
    ensures var s := State(old(g.Status()), tasks, firstError);
      Enabled(c, s, m) && Apply(c, s, m) == State(g.Status(), tasks', firstError')
  {
    var t := tasks[i];
    tasks', firstError' := tasks, firstError;
    match t.phase {
      case Calling =>
        var ok: bool := *;
        if ok {
          m := Succeed(i);
          tasks' := tasks[i := t.(phase := Succeeded)];
        } else {
          m := Fail(i);
          tasks' := tasks[i := t.(phase := Failed)];
          firstError' := if firstError == None then Some(i) else firstError;
        }
      case Succeeded =>
        m := Update(i);
        var next := RecordSuccess(g, c, up, t.node.value);
        tasks' := tasks[i := t.(phase := Expanding(next))];
      case Expanding(todo) =>
        if todo == {} {
          m := Return(i);
          tasks' := tasks[i := t.(phase := Returned)];
        } else {
          var v :| v in todo;
          m := Check(i, v);
          tasks' := LookAtNext(g, c, up, tasks, firstError, i, v);
        }
      case _ =>
    }
  }

  /** The goroutine looks at one of the vertices it still has to look at. */
  method LookAtNext(g: Graph, ghost c: Config, up: bool, tasks: seq<Task>, ghost firstError: Option<nat>, i: nat, v: Name)
    returns (tasks': seq<Task>)
    requires Shows(g, c, up) && v in g.vertices && v in c.awaits
    requires i < |tasks| && tasks[i].phase.Expanding? && v in tasks[i].phase.todo
    ensures var s := State(g.Status(), tasks, firstError);
      Enabled(c, s, Check(i, v)) && Apply(c, s, Check(i, v)) == State(g.Status(), tasks', firstError)
  {
    ghost var s := State(g.Status(), tasks, firstError);
    var spawned := LookAt(g, c, up, v, s, Check(i, v));
    tasks' := tasks[i := tasks[i].(phase := Expanding(tasks[i].phase.todo - {v}))] + spawned;
  }

  /** A goroutine is started on `v` iff nothing `v` awaits is unfinished. */
  method LookAt(g: Graph, ghost c: Config, up: bool, v: Name, ghost s: State, ghost m: Move) returns (spawned: seq<Task>)
    requires Shows(g, c, up) && v in g.vertices && s.status == g.Status() && m.Check? && m.v == v
    ensures spawned == Spawned(c, s, m)
  {
    var unfinished := FilterAdjacent(g, c, up, v);
    spawned := if |unfinished| == 0 then [Task(Some(v), Calling)] else [];
  }

  /**
   * The whole traversal. Either the cycle check refuses the project, naming a cycle and calling nothing,
   * or the run ends in a state that a feasible schedule leads to and in which no goroutine is left. The error
   * it returns is that of the goroutine that failed first in this schedule, if any.
   */
  method Visit(services: seq<Service>, up: bool) returns (r: Outcome, ghost moves: seq<Move>)
    ensures r.CycleFound? <==> Cyclic(Dependencies(services))
    ensures r.CycleFound? ==> CycleReport(Dependencies(services), r.path)
    ensures r.Traversed? ==> Quiescent(r.final)
    ensures r.Traversed? ==> Feasible(ProjectConfig(services, up), moves) && Exec(ProjectConfig(services, up), moves) == r.final
    ensures r.Traversed? ==> forall i: nat :: r.final.firstError == Some(i) <==> FailsFirst(moves, i)
    ensures r.Traversed? ==> (r.final.firstError == None <==> forall k :: 0 <= k < |moves| ==> !moves[k].Fail?)
  {
    var g, cyclic, path := Prepare(services, up);
    if cyclic {
      return CycleFound(path), [];
    }
    ghost var rank := RankOf(services, up);
    ProjectConfigIsWellFormed(services, up);
    r, moves := Run(g, ProjectConfig(services, up), up, rank);
    ReturnedError(ProjectConfig(services, up), moves);
  }

  lemma RankOf(services: seq<Service>, up: bool) returns (rank: map<Name, nat>)
    requires exists depRank :: Ranks(Dependencies(services), depRank)
    ensures Ranks(ProjectConfig(services, up).awaits, rank)
  {
    var depRank :| Ranks(Dependencies(services), depRank);
    RankBothWays(services, up, depRank);
    rank :| Ranks(ProjectConfig(services, up).awaits, rank);
  }

  lemma ReturnedError(c: Config, moves: seq<Move>)
    requires Feasible(c, moves)
    ensures forall i: nat :: Exec(c, moves).firstError == Some(i) <==> FailsFirst(moves, i)
    ensures Exec(c, moves).firstError == None <==> forall k :: 0 <= k < |moves| ==> !moves[k].Fail?
  {
    FirstErrorIsKept(c, moves, 0);
    forall i: nat
      ensures Exec(c, moves).firstError == Some(i) <==> FailsFirst(moves, i)
    {
      FirstErrorIsKept(c, moves, i);
    }
  }

  method Prepare(services: seq<Service>, up: bool) returns (g: Graph, cyclic: bool, path: seq<Name>)
    ensures fresh(g) && fresh(g.vertices.Values)
    ensures Shows(g, ProjectConfig(services, up), up) && g.Status() == Init(ProjectConfig(services, up)).status
    ensures cyclic <==> Cyclic(Dependencies(services))
    ensures cyclic ==> CycleReport(Dependencies(services), path)
    ensures !cyclic ==> exists depRank :: Ranks(Dependencies(services), depRank)
  {
    g := BuildGraph(services, up);
    cyclic, path := CheckCycles(g, ProjectConfig(services, up), up, Init(ProjectConfig(services, up)).status);
  }

  method CheckCycles(g: Graph, ghost c: Config, up: bool, ghost status: map<Name, ServiceStatus>)
    returns (cyclic: bool, path: seq<Name>)
    requires Shows(g, c, up) && g.Status() == status
    ensures Shows(g, c, up) && g.Status() == status
    ensures cyclic <==> Cyclic(g.Children())
    ensures cyclic ==> CycleReport(g.Children(), path)
    ensures !cyclic ==> exists rank :: Ranks(g.Children(), rank)
    ensures g.Children() == old(g.Children())
  {
    cyclic, path := g.HasCycles();
  }

  method BuildGraph(services: seq<Service>, up: bool) returns (g: Graph)
    ensures fresh(g) && fresh(g.vertices.Values) && g.Children() == Dependencies(services)
    ensures Shows(g, ProjectConfig(services, up), up) && g.Status() == Init(ProjectConfig(services, up)).status
  {
    g := new Graph.NewGraph(services, Initial(up));
    g.GraphOfProject(services, Initial(up));
  }

  method FirstTask(g: Graph, ghost c: Config, up: bool) returns (tasks: seq<Task>)
    requires Shows(g, c, up) && g.Status() == Init(c).status
    ensures State(g.Status(), tasks, None) == Init(c)
  {
    var nodes: set<Name>;
    if up {
      nodes := g.Leaves();
    } else {
      nodes := g.Roots();
    }
    assert nodes == Extremities(c);
    tasks := [Task(None, Expanding(nodes))];
  }

  /** Starts the first goroutine and lets any goroutine that has not ended take the next step. */
  method Run(g: Graph, ghost c: Config, up: bool, ghost rank: map<Name, nat>) returns (r: Outcome, ghost moves: seq<Move>)
    requires Shows(g, c, up) && WellFormed(c) && Ranks(c.awaits, rank)
    requires g.Status() == Init(c).status
    modifies g.vertices.Values
    ensures r.Traversed? && Quiescent(r.final)
    ensures Feasible(c, moves) && Exec(c, moves) == r.final
  {
    var tasks := FirstTask(g, c, up);
    r, moves := RunAll(g, c, up, rank, tasks);
  }

  method RunAll(g: Graph, ghost c: Config, up: bool, ghost rank: map<Name, nat>, start: seq<Task>)
    returns (r: Outcome, ghost moves: seq<Move>)
    requires Shows(g, c, up) && WellFormed(c) && Ranks(c.awaits, rank)
    requires State(g.Status(), start, None) == Init(c)
    modifies g.vertices.Values
    ensures r.Traversed? && Quiescent(r.final)
    ensures Feasible(c, moves) && Exec(c, moves) == r.final
  {
    var tasks, firstError: Option<nat> := start, None;
    moves := [];
    NothingScheduled(c);
    while exists i :: 0 <= i < |tasks| && !Ended(tasks[i])
      invariant Shows(g, c, up) && g.vertices == old(g.vertices)
      invariant Feasible(c, moves) && Exec(c, moves) == State(g.Status(), tasks, firstError)
      decreases Weight(c, rank, Exec(c, moves))
    {
      var i :| 0 <= i < |tasks| && !Ended(tasks[i]);
      tasks, firstError, moves := NextStep(g, c, up, rank, moves, tasks, firstError, i);
    }
    r := Traversed(State(g.Status(), tasks, firstError));
  }

  method NextStep(g: Graph, ghost c: Config, up: bool, ghost rank: map<Name, nat>, ghost moves: seq<Move>,
                  tasks: seq<Task>, firstError: Option<nat>, i: nat)
    returns (tasks': seq<Task>, firstError': Option<nat>, ghost moves': seq<Move>)
    requires Shows(g, c, up) && WellFormed(c) && Ranks(c.awaits, rank)
    requires Feasible(c, moves) && Exec(c, moves) == State(g.Status(), tasks, firstError)
    requires i < |tasks| && !Ended(tasks[i])
    modifies g.vertices.Values
    ensures Shows(g, c, up) && g.vertices == old(g.vertices)
    ensures Feasible(c, moves') && Exec(c, moves') == State(g.Status(), tasks', firstError')
    ensures Weight(c, rank, Exec(c, moves')) < Weight(c, rank, Exec(c, moves))
  {
    InvRunnableAfter(c, moves, i);
    ghost var m;
    tasks', firstError', m := Step(g, c, up, tasks, firstError, i);
    moves' := LongerSchedule(c, rank, moves, m);
  }

  lemma NothingScheduled(c: Config)
    ensures Feasible(c, []) && Exec(c, []) == Init(c)
  {
  }

  lemma InvRunnableAfter(c: Config, moves: seq<Move>, i: nat)
    requires WellFormed(c) && Feasible(c, moves)
    requires i < |Exec(c, moves).tasks| && !Ended(Exec(c, moves).tasks[i])
    ensures Runnable(c, Exec(c, moves).tasks[i])
  {
    Reachable(c, moves);
    InvRunnable(c, Exec(c, moves), i);
  }

  lemma LongerSchedule(c: Config, rank: map<Name, nat>, moves: seq<Move>, m: Move) returns (longer: seq<Move>)
    requires WellFormed(c) && Ranks(c.awaits, rank) && Feasible(c, moves) && Enabled(c, Exec(c, moves), m)
    ensures Feasible(c, longer) && Exec(c, longer) == Apply(c, Exec(c, moves), m)
    ensures Weight(c, rank, Exec(c, longer)) < Weight(c, rank, Exec(c, moves))
  {
    Reachable(c, moves);
    StepDecreases(c, rank, Exec(c, moves), m);
    Extend(c, moves, m);
    longer := moves + [m];
  }

  /**
   * Going up, the callback is started on a service only after one on each of its dependencies has succeeded;
   * going down, on a dependency only after one on each service that depends on it.
   */
  lemma DependenciesFirst(services: seq<Service>, up: bool, moves: seq<Move>, v: Name, d: Name)
    requires Feasible(ProjectConfig(services, up), moves) && Named(services, v) && Depends(services, v, d)
    ensures var s := Exec(ProjectConfig(services, up), moves);
      if up then Invoked(s, v) ==> Won(s, d) else Invoked(s, d) ==> Won(s, v)
  {
    var c := ProjectConfig(services, up);
    ProjectConfigIsWellFormed(services, up);
    if up {
      assert d in c.awaits[v];
      OrderIsRespected(c, moves, v, d);
    } else {
      assert v in c.awaits[d];
      OrderIsRespected(c, moves, d, v);
    }
  }
}
