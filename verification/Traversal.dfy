/**
 * The concurrent traversal of a dependency graph as a step machine.
 *
 * A state is the status of every vertex and a table of goroutines. A schedule is a sequence of
 * moves, each naming the goroutine that takes the next step and how that step turns out, so a
 * statement about every feasible schedule is a statement about every interleaving. The machine
 * is generic over the direction: `awaits` are the vertices that have to be done first, `triggers`
 * the vertices looked at afterwards.
 */
module Traversal {
  import opened Wrappers
  import opened Digraph
  import opened DependencyGraph

  datatype Config = Config(awaits: Relation, triggers: Relation, skip: ServiceStatus, target: ServiceStatus)

  /**
   * What a goroutine still has to do: run the callback, record its success, look at the vertices
   * in `todo`, or nothing any more.
   */
  datatype Phase = Calling | Succeeded | Expanding(todo: set<Name>) | Returned | Failed

  /** A goroutine: the one started first has no vertex of its own. */
  datatype Task = Task(node: Option<Name>, phase: Phase)

  /** `firstError` is the goroutine whose error the group retains. */
  datatype State = State(status: map<Name, ServiceStatus>, tasks: seq<Task>, firstError: Option<nat>)

  datatype Move =
    | Succeed(i: nat)
    | Fail(i: nat)
    | Update(i: nat)
    | Check(i: nat, v: Name)
    | Return(i: nat)

  ghost predicate WellFormed(c: Config) {
    Inverse(c.awaits, c.triggers) && c.skip != c.target
  }

  function UpConfig(children: Relation, parents: Relation): Config {
    Config(children, parents, Stopped, Started)
  }

  function DownConfig(children: Relation, parents: Relation): Config {
    Config(parents, children, Started, Stopped)
  }

  /** Leaves when going up, roots when going down. */
  function Extremities(c: Config): set<Name> {
    set v | v in c.awaits && c.awaits[v] == {}
  }

  function Init(c: Config): State {
    State(map v | v in c.awaits :: c.skip, [Task(None, Expanding(Extremities(c)))], None)
  }

  /** The adjacent vertices of `v` that make `run` skip it. */
  function Unfinished(c: Config, s: State, v: Name): set<Name>
    requires v in c.awaits
  {
    set u | u in c.awaits[v] && u in s.status && s.status[u] == c.skip
  }

  predicate Enabled(c: Config, s: State, m: Move) {
    m.i < |s.tasks| && Ready(c, s.tasks[m.i], m)
  }

  predicate Ready(c: Config, t: Task, m: Move) {
    match m
    case Succeed(_) => t.phase == Calling
    case Fail(_) => t.phase == Calling
    case Update(_) => t.phase == Succeeded && t.node.Some? && t.node.value in c.triggers
    case Check(_, v) => t.phase.Expanding? && v in t.phase.todo && v in c.awaits
    case Return(_) => t.phase == Expanding({})
  }

  /** The vertices a goroutine is given to look at. */
  function Followers(c: Config, node: Option<Name>): set<Name> {
    if node.None? then Extremities(c) else if node.value in c.triggers then c.triggers[node.value] else {}
  }

  /** The goroutine after its own step. */
  function Advance(c: Config, t: Task, m: Move): Task {
    match m
    case Succeed(_) => t.(phase := Succeeded)
    case Fail(_) => t.(phase := Failed)
    case Update(_) => t.(phase := Expanding(Followers(c, t.node)))
    case Check(_, v) => if t.phase.Expanding? then t.(phase := Expanding(t.phase.todo - {v})) else t
    case Return(_) => t.(phase := Returned)
  }

  /** The goroutine a step starts, if any. */
  function Spawned(c: Config, s: State, m: Move): seq<Task> {
    if m.Check? && m.v in c.awaits && Unfinished(c, s, m.v) == {} then [Task(Some(m.v), Calling)] else []
  }

  function Apply(c: Config, s: State, m: Move): (s': State)
    requires Enabled(c, s, m)
  {
    var t := s.tasks[m.i];
    State(
      if m.Update? then s.status[t.node.value := c.target] else s.status,
      s.tasks[m.i := Advance(c, t, m)] + Spawned(c, s, m),
      if m.Fail? && s.firstError == None then Some(m.i) else s.firstError)
  }

  ghost predicate Feasible(c: Config, moves: seq<Move>)
    decreases |moves|, 0
  {
    moves == [] ||
    (Feasible(c, moves[..|moves| - 1]) && Enabled(c, Exec(c, moves[..|moves| - 1]), moves[|moves| - 1]))
  }

  /** The state a schedule leads to. */
  ghost function Exec(c: Config, moves: seq<Move>): State
    requires Feasible(c, moves)
    decreases |moves|, 1
  {
    if moves == [] then Init(c)
    else Apply(c, Exec(c, moves[..|moves| - 1]), moves[|moves| - 1])
  }

  lemma Extend(c: Config, moves: seq<Move>, m: Move)
    requires Feasible(c, moves) && Enabled(c, Exec(c, moves), m)
    ensures Feasible(c, moves + [m])
    ensures Exec(c, moves + [m]) == Apply(c, Exec(c, moves), m)
  {
    assert (moves + [m])[..|moves|] == moves;
  }

  // ---------- what a state says about a vertex ----------

  predicate Done(p: Phase) { p.Expanding? || p.Returned? }

  /** The callback has been started on `v`. */
  ghost predicate Invoked(s: State, v: Name) {
    exists i :: 0 <= i < |s.tasks| && s.tasks[i].node == Some(v)
  }

  /** Some call of the callback on `v` has succeeded. */
  ghost predicate Won(s: State, v: Name) {
    exists i :: 0 <= i < |s.tasks| && s.tasks[i].node == Some(v) && (Done(s.tasks[i].phase) || s.tasks[i].phase == Succeeded)
  }

  predicate AtTarget(c: Config, s: State, v: Name) {
    v in s.status && s.status[v] == c.target
  }

  ghost predicate Finished(s: State, v: Name) {
    exists i :: 0 <= i < |s.tasks| && s.tasks[i].node == Some(v) && Done(s.tasks[i].phase)
  }

  /** Some goroutine is still going to look at `v`. */
  ghost predicate Pending(s: State, v: Name) {
    exists i :: 0 <= i < |s.tasks| && s.tasks[i].phase.Expanding? && v in s.tasks[i].phase.todo
  }

  ghost predicate Quiescent(s: State) {
    forall i :: 0 <= i < |s.tasks| ==> s.tasks[i].phase.Returned? || s.tasks[i].phase.Failed?
  }

  ghost predicate SomeFailed(s: State) {
    exists i :: 0 <= i < |s.tasks| && s.tasks[i].phase == Failed
  }

  // ---------- the invariant of every interleaving ----------

  ghost predicate TaskOk(c: Config, s: State, t: Task) {
    && (t.node.Some? ==> t.node.value in c.awaits && Unfinished(c, s, t.node.value) == {})
    && (t.node.None? ==> Done(t.phase))
    && (t.phase.Expanding? ==>
          t.phase.todo <= Followers(c, t.node))
  }

  ghost predicate Inv(c: Config, s: State)
    requires WellFormed(c)
  {
    && s.status.Keys == c.awaits.Keys
    && |s.tasks| > 0 && s.tasks[0].node == None
    && (forall i :: 0 < i < |s.tasks| ==> s.tasks[i].node.Some?)
    && (forall i :: 0 <= i < |s.tasks| ==> TaskOk(c, s, s.tasks[i]))
    && (forall v :: AtTarget(c, s, v) <==> Finished(s, v))
    && (forall v :: v in c.awaits && Unfinished(c, s, v) == {} ==> Invoked(s, v) || Pending(s, v))
    && (s.firstError.None? ==> !SomeFailed(s))
    && (s.firstError.Some? ==> s.firstError.value < |s.tasks| && s.tasks[s.firstError.value].phase == Failed)
  }

  lemma InitInv(c: Config)
    requires WellFormed(c)
    ensures Inv(c, Init(c))
  {
    var s := Init(c);
    assert s.tasks[0].phase == Expanding(Extremities(c));
    forall v | v in c.awaits
      ensures Unfinished(c, s, v) == c.awaits[v]
    {
    }
  }

  lemma StepInv(c: Config, s: State, m: Move)
    requires WellFormed(c) && Inv(c, s) && Enabled(c, s, m)
    ensures Inv(c, Apply(c, s, m))
  {
    var s' := Apply(c, s, m);
    forall j | 0 <= j < |s'.tasks|
      ensures TaskOk(c, s', s'.tasks[j]) && (s'.tasks[j].node.None? <==> j == 0)
    {
      if j < |s.tasks| {
        TaskStep(c, s, m, j);
      }
    }
    forall v
      ensures AtTarget(c, s', v) <==> Finished(s', v)
    {
      FinishedStep(c, s, m, v);
    }
    forall v | v in c.awaits && Unfinished(c, s', v) == {}
      ensures Invoked(s', v) || Pending(s', v)
    {
      PendingStep(c, s, m, v);
    }
    ErrorStep(c, s, m);
  }

  lemma TaskStep(c: Config, s: State, m: Move, j: nat)
    requires WellFormed(c) && Enabled(c, s, m) && j < |s.tasks| && TaskOk(c, s, s.tasks[j])
    ensures TaskOk(c, Apply(c, s, m), Apply(c, s, m).tasks[j])
    ensures Apply(c, s, m).tasks[j].node == s.tasks[j].node
  {
  }

  lemma ErrorStep(c: Config, s: State, m: Move)
    requires Enabled(c, s, m)
    requires s.firstError.None? ==> !SomeFailed(s)
    requires s.firstError.Some? ==> s.firstError.value < |s.tasks| && s.tasks[s.firstError.value].phase == Failed
    ensures var s' := Apply(c, s, m);
      && (s'.firstError.None? ==> !SomeFailed(s'))
      && (s'.firstError.Some? ==> s'.firstError.value < |s'.tasks| && s'.tasks[s'.firstError.value].phase == Failed)
  {
    var s' := Apply(c, s, m);
    forall j | 0 <= j < |s'.tasks| && s'.firstError.None?
      ensures s'.tasks[j].phase != Failed
    {
      assert j < |s.tasks| ==> s.tasks[j].phase != Failed;
    }
  }

  lemma FinishedStep(c: Config, s: State, m: Move, v: Name)
    requires Enabled(c, s, m)
    ensures Finished(Apply(c, s, m), v) <==> Finished(s, v) || (m.Update? && s.tasks[m.i].node == Some(v))
  {
    var s' := Apply(c, s, m);
    if Finished(s, v) {
      var j :| 0 <= j < |s.tasks| && s.tasks[j].node == Some(v) && Done(s.tasks[j].phase);
      assert s'.tasks[j].node == Some(v) && Done(s'.tasks[j].phase);
    }
    if m.Update? && s.tasks[m.i].node == Some(v) {
      assert s'.tasks[m.i].node == Some(v) && Done(s'.tasks[m.i].phase);
    }
    if Finished(s', v) {
      var j :| 0 <= j < |s'.tasks| && s'.tasks[j].node == Some(v) && Done(s'.tasks[j].phase);
      assert j < |s.tasks| && s.tasks[j].node == Some(v);
    }
  }

  lemma PendingStep(c: Config, s: State, m: Move, v: Name)
    requires WellFormed(c) && Enabled(c, s, m) && v in c.awaits && s.status.Keys == c.awaits.Keys
    requires Unfinished(c, s, v) == {} ==> Invoked(s, v) || Pending(s, v)
    requires Unfinished(c, Apply(c, s, m), v) == {}
    ensures Invoked(Apply(c, s, m), v) || Pending(Apply(c, s, m), v)
  {
    var s' := Apply(c, s, m);
    if Unfinished(c, s, v) != {} {
      // only recording a success can unblock v, and that goroutine then looks at v
      var u :| u in Unfinished(c, s, v);
      assert u !in Unfinished(c, s', v);
      assert m.Update? && s.tasks[m.i].node == Some(u);
      assert v in c.triggers[u];
      assert s'.tasks[m.i].phase.Expanding? && v in s'.tasks[m.i].phase.todo;
    } else if Invoked(s, v) {
      var j :| 0 <= j < |s.tasks| && s.tasks[j].node == Some(v);
      assert s'.tasks[j].node == Some(v);
    } else {
      var j :| 0 <= j < |s.tasks| && s.tasks[j].phase.Expanding? && v in s.tasks[j].phase.todo;
      if m == Check(j, v) {
        assert s'.tasks[|s.tasks|].node == Some(v);
      } else {
        assert s'.tasks[j].phase.Expanding? && v in s'.tasks[j].phase.todo;
      }
    }
  }

  lemma {:induction false} Reachable(c: Config, moves: seq<Move>)
    requires WellFormed(c) && Feasible(c, moves)
    ensures Inv(c, Exec(c, moves))
    decreases |moves|
  {
    if moves == [] {
      InitInv(c);
    } else {
      var before := moves[..|moves| - 1];
      Reachable(c, before);
      StepInv(c, Exec(c, before), moves[|moves| - 1]);
    }
  }

  // ---------- the error that is returned ----------

  /** Goroutine `i` is the first one whose callback fails. */
  ghost predicate FailsFirst(moves: seq<Move>, i: nat) {
    exists k :: 0 <= k < |moves| && moves[k] == Fail(i) && forall j :: 0 <= j < k ==> !moves[j].Fail?
  }

  lemma FailsFirstSnoc(moves: seq<Move>, m: Move, i: nat)
    ensures FailsFirst(moves + [m], i) <==> FailsFirst(moves, i) || (m == Fail(i) && forall j :: 0 <= j < |moves| ==> !moves[j].Fail?)
  {
    var longer := moves + [m];
    if FailsFirst(moves, i) {
      var k :| 0 <= k < |moves| && moves[k] == Fail(i) && forall j :: 0 <= j < k ==> !moves[j].Fail?;
      assert longer[k] == Fail(i);
    }
    if m == Fail(i) && forall j :: 0 <= j < |moves| ==> !moves[j].Fail? {
      assert longer[|moves|] == Fail(i);
    }
    if FailsFirst(longer, i) {
      var k :| 0 <= k < |longer| && longer[k] == Fail(i) && forall j :: 0 <= j < k ==> !longer[j].Fail?;
      if k < |moves| {
        assert moves[k] == Fail(i) && forall j :: 0 <= j < k ==> moves[j] == longer[j];
      } else {
        assert forall j :: 0 <= j < |moves| ==> moves[j] == longer[j];
      }
    }
  }

  /** The group keeps the error of the goroutine that failed first, and none if none has failed. */
  lemma {:induction false} FirstErrorIsKept(c: Config, moves: seq<Move>, i: nat)
    requires Feasible(c, moves)
    ensures Exec(c, moves).firstError == Some(i) <==> FailsFirst(moves, i)
    ensures Exec(c, moves).firstError == None <==> forall k :: 0 <= k < |moves| ==> !moves[k].Fail?
    decreases |moves|
  {
    if moves != [] {
      var before, m := moves[..|moves| - 1], moves[|moves| - 1];
      FirstErrorIsKept(c, before, i);
      FailsFirstSnoc(before, m, i);
      assert moves == before + [m];
    }
  }

  /** Whatever happens afterwards, another error does not replace it. */
  lemma {:induction false} FirstErrorStays(c: Config, moves: seq<Move>, n: nat)
    requires Feasible(c, moves) && n <= |moves|
    ensures Feasible(c, moves[..n])
    ensures Exec(c, moves[..n]).firstError.Some? ==> Exec(c, moves).firstError == Exec(c, moves[..n]).firstError
    decreases |moves|
  {
    if n == |moves| {
      assert moves[..n] == moves;
    } else {
      assert moves[..|moves| - 1][..n] == moves[..n];
      FirstErrorStays(c, moves[..|moves| - 1], n);
    }
  }

  // ---------- ordering ----------

  /**
   * In every state of every interleaving the callback has been started only on vertices all of whose
   * awaited vertices have had a successful call recorded, and the vertices at the target status are
   * closed under the awaited relation.
   */
  lemma OrderIsRespected(c: Config, moves: seq<Move>, v: Name, u: Name)
    requires WellFormed(c) && Feasible(c, moves)
    requires v in c.awaits && u in c.awaits[v]
    ensures Invoked(Exec(c, moves), v) ==> AtTarget(c, Exec(c, moves), u) && Won(Exec(c, moves), u)
    ensures AtTarget(c, Exec(c, moves), v) ==> AtTarget(c, Exec(c, moves), u)
  {
    Reachable(c, moves);
    var s := Exec(c, moves);
    if s.status[v] == c.target {
      assert Finished(s, v);
    }
    if Invoked(s, v) {
      var i :| 0 <= i < |s.tasks| && s.tasks[i].node == Some(v);
      assert TaskOk(c, s, s.tasks[i]);
      assert u !in Unfinished(c, s, v);
      assert Finished(s, u);
    }
  }

  // ---------- exactly which vertices are reached ----------

  lemma WonWasInvoked(s: State, v: Name)
    requires Won(s, v)
    ensures Invoked(s, v)
  {
  }

  /** Whatever a started vertex transitively awaits has had a successful call. */
  lemma {:induction false} InvokedNeedsAll(c: Config, moves: seq<Move>, p: seq<Name>)
    requires WellFormed(c) && Feasible(c, moves)
    requires Walk(c.awaits, p) && |p| >= 2 && Invoked(Exec(c, moves), p[0])
    ensures Won(Exec(c, moves), p[|p| - 1])
    decreases |p|
  {
    assert p[1] in c.awaits[p[0]];
    OrderIsRespected(c, moves, p[0], p[1]);
    if |p| > 2 {
      WonWasInvoked(Exec(c, moves), p[1]);
      assert Walk(c.awaits, p[1..]);
      InvokedNeedsAll(c, moves, p[1..]);
    }
  }

  /**
   * When nothing is left to run, whatever calls succeeded or failed on the way: the callback was
   * started on exactly the vertices all of whose transitively awaited vertices had a successful call,
   * the vertices with a successful call are those at the target status, and the group reports an error
   * iff some call failed.
   */
  lemma ReachUnderFailure(c: Config, moves: seq<Move>, v: Name)
    requires WellFormed(c) && Feasible(c, moves) && Quiescent(Exec(c, moves)) && v in c.awaits
    ensures Invoked(Exec(c, moves), v) <==> forall u :: Reaches(c.awaits, v, u) ==> Won(Exec(c, moves), u)
    ensures Won(Exec(c, moves), v) <==> AtTarget(c, Exec(c, moves), v)
    ensures Exec(c, moves).firstError.Some? <==> SomeFailed(Exec(c, moves))
  {
    Reachable(c, moves);
    var s := Exec(c, moves);
    if Invoked(s, v) {
      forall u | Reaches(c.awaits, v, u)
        ensures Won(s, u)
      {
        var p :| Walk(c.awaits, p) && |p| >= 2 && p[0] == v && p[|p| - 1] == u;
        InvokedNeedsAll(c, moves, p);
      }
    }
    if forall u :: Reaches(c.awaits, v, u) ==> Won(s, u) {
      forall u | u in c.awaits[v]
        ensures u !in Unfinished(c, s, v)
      {
        EdgeReaches(c.awaits, v, u);
        assert Won(s, u);
        assert Finished(s, u);
      }
      assert Unfinished(c, s, v) == {};
      assert !Pending(s, v);
    }
    assert Won(s, v) <==> Finished(s, v);
  }

  /** Without a failing call an acyclic traversal reaches every vertex before it comes to rest. */
  lemma {:induction false} Completes(c: Config, rank: map<Name, nat>, moves: seq<Move>, v: Name)
    requires WellFormed(c) && Ranks(c.awaits, rank) && Feasible(c, moves)
    requires Quiescent(Exec(c, moves)) && !SomeFailed(Exec(c, moves)) && v in c.awaits
    ensures Invoked(Exec(c, moves), v) && AtTarget(c, Exec(c, moves), v)
    decreases rank[v]
  {
    hide Inv;
    Reachable(c, moves);
    var s := Exec(c, moves);
    forall u | u in c.awaits[v]
      ensures u !in Unfinished(c, s, v)
    {
      Completes(c, rank, moves, u);
    }
    UnblockedAtRest(c, s, v);
  }

  lemma UnblockedAtRest(c: Config, s: State, v: Name)
    requires WellFormed(c) && Inv(c, s) && Quiescent(s) && !SomeFailed(s) && v in c.awaits
    requires forall u :: u in c.awaits[v] ==> u !in Unfinished(c, s, v)
    ensures Invoked(s, v) && AtTarget(c, s, v)
  {
    assert Unfinished(c, s, v) == {};
    assert !Pending(s, v);
    var i :| 0 <= i < |s.tasks| && s.tasks[i].node == Some(v);
    assert Done(s.tasks[i].phase);
    assert Finished(s, v);
  }
}
