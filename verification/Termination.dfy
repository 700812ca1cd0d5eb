/** Every interleaving of the traversal of an acyclic graph ends, duplicate calls included. */
module Termination {
  import opened Wrappers
  import opened Digraph
  import opened Traversal

  /** Work a call can still cause when at most `d` edges follow its vertex and a vertex has at most `n` followers. */
  function Level(n: nat, d: nat): (w: nat)
    ensures w >= 3
  {
    if d == 0 then 3 else 3 + n * (1 + Level(n, d - 1))
  }

  lemma {:induction false} LevelMonotone(n: nat, d: nat, e: nat)
    requires d <= e
    ensures Level(n, d) <= Level(n, e)
  {
    if 0 < d {
      LevelMonotone(n, d - 1, e - 1);
      MulMonotone(n, n, 1 + Level(n, d - 1), 1 + Level(n, e - 1));
    }
  }

  lemma MulMonotone(a: nat, b: nat, x: nat, y: nat)
    requires a <= b && x <= y
    ensures a * x <= b * y
  {
    assert b * y == a * x + a * (y - x) + (b - a) * y;
  }

  lemma SubsetSize(a: set<Name>, b: set<Name>)
    requires a <= b
    ensures |a| <= |b|
  {
    assert b == a + (b - a);
  }

  /** How many edges can still be followed behind the vertices a goroutine looks at. */
  ghost function Depth(rank: map<Name, nat>, node: Option<Name>): nat {
    if node.None? then HighestRank(rank) + 1
    else if node.value in rank && rank[node.value] <= HighestRank(rank) then HighestRank(rank) - rank[node.value]
    else 0
  }

  ghost function TaskWeight(c: Config, rank: map<Name, nat>, t: Task): nat {
    PhaseWeight(|c.awaits.Keys|, Depth(rank, t.node), t.phase)
  }

  function PhaseWeight(n: nat, d: nat, phase: Phase): nat {
    match phase
    case Calling => Level(n, d)
    case Succeeded => Level(n, d) - 1
    case Expanding(todo) => if d == 0 then 1 + |todo| else 1 + |todo| * (1 + Level(n, d - 1))
    case Returned => 0
    case Failed => 0
  }

  ghost function Total(c: Config, rank: map<Name, nat>, tasks: seq<Task>): nat {
    if tasks == [] then 0
    else Total(c, rank, tasks[..|tasks| - 1]) + TaskWeight(c, rank, tasks[|tasks| - 1])
  }

  ghost function Weight(c: Config, rank: map<Name, nat>, s: State): nat {
    Total(c, rank, s.tasks)
  }

  lemma {:induction false} TotalUpdate(c: Config, rank: map<Name, nat>, tasks: seq<Task>, i: nat, t: Task)
    requires i < |tasks|
    ensures Total(c, rank, tasks[i := t]) + TaskWeight(c, rank, tasks[i]) == Total(c, rank, tasks) + TaskWeight(c, rank, t)
  {
    var n := |tasks| - 1;
    if i < n {
      TotalUpdate(c, rank, tasks[..n], i, t);
      assert tasks[i := t][..n] == tasks[..n][i := t];
    } else {
      assert tasks[i := t][..n] == tasks[..n];
    }
  }

  lemma TotalAppend(c: Config, rank: map<Name, nat>, tasks: seq<Task>, t: Task)
    ensures Total(c, rank, tasks + [t]) == Total(c, rank, tasks) + TaskWeight(c, rank, t)
  {
    assert (tasks + [t])[..|tasks|] == tasks;
  }


  /** Every step makes the total weight smaller. */
  lemma StepDecreases(c: Config, rank: map<Name, nat>, s: State, m: Move)
    requires WellFormed(c) && Inv(c, s) && Enabled(c, s, m)
    requires Ranks(c.awaits, rank)
    ensures Weight(c, rank, Apply(c, s, m)) < Weight(c, rank, s)
  {
    var t := s.tasks[m.i];
    assert TaskOk(c, s, t);
    TaskDecreases(c, rank, t, m);
    StepTotal(c, rank, s, m);
  }

  lemma StepTotal(c: Config, rank: map<Name, nat>, s: State, m: Move)
    requires Enabled(c, s, m)
    ensures Weight(c, rank, Apply(c, s, m)) + TaskWeight(c, rank, s.tasks[m.i])
            <= Weight(c, rank, s) + TaskWeight(c, rank, Advance(c, s.tasks[m.i], m)) + SpawnWeight(c, rank, m)
  {
    var t' := Advance(c, s.tasks[m.i], m);
    TotalUpdate(c, rank, s.tasks, m.i, t');
    if Spawned(c, s, m) == [] {
      assert Apply(c, s, m).tasks == s.tasks[m.i := t'];
    } else {
      TotalAppend(c, rank, s.tasks[m.i := t'], Task(Some(m.v), Calling));
    }
  }

  ghost function SpawnWeight(c: Config, rank: map<Name, nat>, m: Move): nat {
    if m.Check? then TaskWeight(c, rank, Task(Some(m.v), Calling)) else 0
  }

  lemma TaskDecreases(c: Config, rank: map<Name, nat>, t: Task, m: Move)
    requires WellFormed(c) && Ranks(c.awaits, rank)
    requires t.phase.Expanding? ==> t.phase.todo <= Followers(c, t.node)
    requires Ready(c, t, m)
    ensures TaskWeight(c, rank, Advance(c, t, m)) + SpawnWeight(c, rank, m) < TaskWeight(c, rank, t)
  {
    match m
    case Update(_) => UpdateWeight(c, rank, t);
    case Check(_, v) => CheckWeight(c, rank, t, v);
    case _ =>
  }

  lemma UpdateWeight(c: Config, rank: map<Name, nat>, t: Task)
    requires WellFormed(c) && Ranks(c.awaits, rank)
    requires t.phase == Succeeded && t.node.Some? && t.node.value in c.triggers
    ensures TaskWeight(c, rank, t.(phase := Expanding(c.triggers[t.node.value]))) < TaskWeight(c, rank, t)
  {
    var n, d, todo := |c.awaits.Keys|, Depth(rank, t.node), c.triggers[t.node.value];
    if todo != {} {
      var v :| v in todo;
      assert t.node.value in c.awaits[v];
      assert rank[v] <= HighestRank(rank);
    }
    SubsetSize(todo, c.awaits.Keys);
    ExpandingIsLighter(n, d, todo);
  }

  lemma ExpandingIsLighter(n: nat, d: nat, todo: set<Name>)
    requires |todo| <= n && (d == 0 ==> todo == {})
    ensures PhaseWeight(n, d, Expanding(todo)) < PhaseWeight(n, d, Succeeded)
  {
    if d > 0 {
      MulMonotone(|todo|, n, 1 + Level(n, d - 1), 1 + Level(n, d - 1));
    }
  }

  lemma CheckWeight(c: Config, rank: map<Name, nat>, t: Task, v: Name)
    requires WellFormed(c) && Ranks(c.awaits, rank) && t.phase.Expanding? && v in t.phase.todo
    requires t.phase.todo <= Followers(c, t.node)
    ensures TaskWeight(c, rank, t.(phase := Expanding(t.phase.todo - {v}))) + TaskWeight(c, rank, Task(Some(v), Calling))
            < TaskWeight(c, rank, t)
  {
    var d, e := Depth(rank, t.node), Depth(rank, Some(v));
    assert v in rank && rank[v] <= HighestRank(rank);
    if t.node.Some? {
      assert t.node.value in c.awaits[v];
      assert rank[t.node.value] < rank[v];
    }
    assert e < d;
    SpawningIsLighter(|c.awaits.Keys|, d, e, t.phase.todo, v);
  }

  lemma SpawningIsLighter(n: nat, d: nat, e: nat, todo: set<Name>, v: Name)
    requires e < d && v in todo
    ensures PhaseWeight(n, d, Expanding(todo - {v})) + PhaseWeight(n, e, Calling) < PhaseWeight(n, d, Expanding(todo))
  {
    LevelMonotone(n, e, d - 1);
    var k, x := |todo|, 1 + Level(n, d - 1);
    assert |todo - {v}| == k - 1;
    assert k * x == (k - 1) * x + x;
  }

  /** No schedule of an acyclic graph is longer than the weight of the initial state. */
  lemma {:induction false} EveryScheduleEnds(c: Config, rank: map<Name, nat>, moves: seq<Move>)
    requires WellFormed(c) && Feasible(c, moves) && Ranks(c.awaits, rank)
    ensures |moves| + Weight(c, rank, Exec(c, moves)) <= Weight(c, rank, Init(c))
    decreases |moves|
  {
    if moves != [] {
      var before := moves[..|moves| - 1];
      EveryScheduleEnds(c, rank, before);
      Reachable(c, before);
      StepDecreases(c, rank, Exec(c, before), moves[|moves| - 1]);
    }
  }

  /** Nothing gets stuck: a goroutine that has not ended can always take a step, without failing. */
  lemma NothingGetsStuck(c: Config, s: State, i: nat) returns (m: Move)
    requires WellFormed(c) && Inv(c, s) && i < |s.tasks|
    requires !s.tasks[i].phase.Returned? && !s.tasks[i].phase.Failed?
    ensures m.i == i && Enabled(c, s, m) && !m.Fail?
  {
    var t := s.tasks[i];
    assert TaskOk(c, s, t);
    match t.phase {
      case Calling => m := Succeed(i);
      case Succeeded => m := Update(i);
      case Expanding(todo) =>
        if todo == {} {
          m := Return(i);
        } else {
          var v :| v in todo;
          m := Check(i, v);
        }
    }
  }
}
