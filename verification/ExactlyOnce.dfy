/** When the traversal calls its callback only once a vertex. */
module ExactlyOnce {
  import opened Wrappers
  import opened Digraph
  import opened Traversal
  import opened Termination

  ghost predicate NoRepeats(s: State) {
    forall i, j :: 0 <= i < j < |s.tasks| && s.tasks[i].node.Some? ==> s.tasks[i].node != s.tasks[j].node
  }

  ghost predicate CalledTwice(s: State, v: Name) {
    exists i, j :: 0 <= i < j < |s.tasks| && s.tasks[i].node == Some(v) && s.tasks[j].node == Some(v)
  }

  /** Goroutine `i` is still going to look at `v`. */
  predicate MayStart(s: State, i: nat, v: Name) {
    i < |s.tasks| && s.tasks[i].phase.Expanding? && v in s.tasks[i].phase.todo
  }

  // ---------- recording a success and starting what it unblocks as one step ----------

  /** No goroutine moves while another one is between recording its success and its return. */
  ghost predicate Uninterrupted(c: Config, moves: seq<Move>)
    requires Feasible(c, moves)
    decreases |moves|
  {
    moves == [] ||
    var before := moves[..|moves| - 1];
    && Uninterrupted(c, before)
    && forall i :: 0 <= i < |Exec(c, before).tasks| && Exec(c, before).tasks[i].phase.Expanding? ==> moves[|moves| - 1].i == i
  }

  ghost predicate AtomicInv(s: State) {
    && NoRepeats(s)
    && (forall i, j :: 0 <= i < j < |s.tasks| ==> !(s.tasks[i].phase.Expanding? && s.tasks[j].phase.Expanding?))
    && (forall i, v :: MayStart(s, i, v) ==> !Invoked(s, v))
  }

  lemma AtomicStep(c: Config, s: State, m: Move)
    requires WellFormed(c) && Inv(c, s) && Enabled(c, s, m) && AtomicInv(s)
    requires forall i :: 0 <= i < |s.tasks| && s.tasks[i].phase.Expanding? ==> m.i == i
    ensures AtomicInv(Apply(c, s, m))
  {
    var s' := Apply(c, s, m);
    NoRepeatsStep(c, s, m);
    forall i: nat, v | MayStart(s', i, v)
      ensures !Invoked(s', v)
    {
      FreshStep(c, s, m, i, v);
    }
  }

  lemma NoRepeatsStep(c: Config, s: State, m: Move)
    requires Enabled(c, s, m) && NoRepeats(s)
    requires m.Check? ==> MayStart(s, m.i, m.v) ==> !Invoked(s, m.v)
    ensures NoRepeats(Apply(c, s, m))
  {
    var s' := Apply(c, s, m);
    forall i, j | 0 <= i < j < |s'.tasks| && s'.tasks[i].node.Some?
      ensures s'.tasks[i].node != s'.tasks[j].node
    {
      assert s'.tasks[i].node == s.tasks[i].node;
      assert j < |s.tasks| ==> s'.tasks[j].node == s.tasks[j].node;
    }
  }

  /** Where the entries still to be looked at come from. */
  lemma MayStartStep(c: Config, s: State, m: Move, i: nat, v: Name)
    requires Enabled(c, s, m) && MayStart(Apply(c, s, m), i, v)
    ensures m != Check(i, v)
    ensures if m.Update? && i == m.i then s.tasks[i].phase == Succeeded && v in Followers(c, s.tasks[i].node) else MayStart(s, i, v)
  {
  }

  /** What is yet to be looked at stays uncalled, unless it was just called by the step itself. */
  lemma FreshStep(c: Config, s: State, m: Move, i: nat, v: Name)
    requires WellFormed(c) && Inv(c, s) && Enabled(c, s, m)
    requires m.Update? ==> !CalledTwice(s, s.tasks[m.i].node.value)
    requires MayStart(s, i, v) ==> !Invoked(s, v)
    requires MayStart(Apply(c, s, m), i, v)
    requires m.Check? && i != m.i ==> m.v != v
    ensures !Invoked(Apply(c, s, m), v)
  {
    MayStartStep(c, s, m, i, v);
    SameInvocations(c, s, m, v);
    if m.Update? && i == m.i {
      NotYetInvoked(c, s, i, v);
    }
  }

  /** A vertex awaiting `u` has not been called while the only call on `u` is not recorded yet. */
  lemma NotYetInvoked(c: Config, s: State, i: nat, v: Name)
    requires WellFormed(c) && Inv(c, s)
    requires i < |s.tasks| && s.tasks[i].phase == Succeeded && s.tasks[i].node.Some? && !CalledTwice(s, s.tasks[i].node.value)
    requires s.tasks[i].node.value in c.triggers && v in c.triggers[s.tasks[i].node.value]
    ensures !Invoked(s, v)
  {
    var u := s.tasks[i].node.value;
    assert !Finished(s, u);
    assert u in Unfinished(c, s, v);
    forall j | 0 <= j < |s.tasks|
      ensures s.tasks[j].node != Some(v)
    {
      assert TaskOk(c, s, s.tasks[j]);
    }
  }

  lemma SameInvocations(c: Config, s: State, m: Move, v: Name)
    requires Enabled(c, s, m)
    ensures Invoked(Apply(c, s, m), v) <==> Invoked(s, v) || Spawned(c, s, m) == [Task(Some(v), Calling)]
  {
    var s' := Apply(c, s, m);
    if Invoked(s, v) {
      var i :| 0 <= i < |s.tasks| && s.tasks[i].node == Some(v);
      assert s'.tasks[i].node == Some(v);
    }
    if Spawned(c, s, m) == [Task(Some(v), Calling)] {
      assert s'.tasks[|s.tasks|].node == Some(v);
    }
    if Invoked(s', v) {
      var i :| 0 <= i < |s'.tasks| && s'.tasks[i].node == Some(v);
      assert i < |s.tasks| ==> s.tasks[i].node == Some(v);
    }
  }

  lemma {:induction false} AtomicReachable(c: Config, moves: seq<Move>)
    requires WellFormed(c) && Feasible(c, moves) && Uninterrupted(c, moves)
    ensures AtomicInv(Exec(c, moves))
    decreases |moves|
  {
    if moves != [] {
      var before := moves[..|moves| - 1];
      AtomicReachable(c, before);
      Reachable(c, before);
      AtomicStep(c, Exec(c, before), moves[|moves| - 1]);
    }
  }

  /** Under an uninterrupted schedule the callback runs at most once a vertex, and exactly once if nothing fails. */
  lemma AtomicScheduleCallsOnce(c: Config, rank: map<Name, nat>, moves: seq<Move>)
    requires WellFormed(c) && Ranks(c.awaits, rank) && Feasible(c, moves) && Uninterrupted(c, moves)
    ensures NoRepeats(Exec(c, moves))
    ensures Quiescent(Exec(c, moves)) && !SomeFailed(Exec(c, moves)) ==>
              forall v :: v in c.awaits ==> Invoked(Exec(c, moves), v)
  {
    AtomicReachable(c, moves);
    if Quiescent(Exec(c, moves)) && !SomeFailed(Exec(c, moves)) {
      forall v | v in c.awaits
        ensures Invoked(Exec(c, moves), v)
      {
        Completes(c, rank, moves, v);
      }
    }
  }

  // ---------- free interleaving ----------

  /** `v`, or something it awaits, directly or not, awaits two others. */
  ghost predicate MayRepeat(c: Config, v: Name) {
    v in c.awaits && (|c.awaits[v]| > 1 || exists w :: w in c.awaits && Reaches(c.awaits, v, w) && |c.awaits[w]| > 1)
  }

  /** `v` has been called once at most; nobody is going to look at it after that, and at most one goroutine before. */
  ghost predicate SingleAt(s: State, v: Name) {
    && !CalledTwice(s, v)
    && (forall i :: MayStart(s, i, v) ==> !Invoked(s, v))
    && (forall i, j :: MayStart(s, i, v) && MayStart(s, j, v) ==> i == j)
  }

  ghost predicate AwaitsAtMostOne(c: Config) {
    forall v :: v in c.awaits ==> |c.awaits[v]| <= 1
  }

  lemma SameElement(vs: set<Name>, x: Name, y: Name)
    requires |vs| <= 1 && x in vs && y in vs
    ensures x == y
  {
    if x != y {
      assert {x, y} <= vs;
      SubsetSize({x, y}, vs);
    }
  }

  lemma RepeatsAbove(c: Config, v: Name, u: Name)
    requires WellFormed(c) && v in c.awaits && u in c.awaits[v] && MayRepeat(c, u)
    ensures MayRepeat(c, v)
  {
    if |c.awaits[u]| > 1 {
      EdgeReaches(c.awaits, v, u);
    } else {
      var w :| w in c.awaits && Reaches(c.awaits, u, w) && |c.awaits[w]| > 1;
      ReachesFrom(c.awaits, v, u, w);
    }
  }

  lemma ReachesFrom(r: Relation, v: Name, u: Name, w: Name)
    requires v in r && u in r[v] && Reaches(r, u, w)
    ensures Reaches(r, v, w)
  {
    var p :| Walk(r, p) && |p| >= 2 && p[0] == u && p[|p| - 1] == w;
    var q := [v] + p;
    assert Walk(r, q) && q[0] == v && q[|q| - 1] == w;
  }

  lemma StillOnce(c: Config, s: State, m: Move, v: Name)
    requires Enabled(c, s, m) && !CalledTwice(s, v)
    requires Spawned(c, s, m) == [Task(Some(v), Calling)] ==> !Invoked(s, v)
    ensures !CalledTwice(Apply(c, s, m), v)
  {
    var s' := Apply(c, s, m);
    forall i, j | 0 <= i < j < |s'.tasks| && s'.tasks[i].node == Some(v)
      ensures s'.tasks[j].node != Some(v)
    {
      assert s'.tasks[i].node == s.tasks[i].node;
      assert j < |s.tasks| ==> s'.tasks[j].node == s.tasks[j].node;
    }
  }

  lemma SingleStep(c: Config, s: State, m: Move, v: Name)
    requires WellFormed(c) && Inv(c, s) && Enabled(c, s, m) && v in c.awaits && |c.awaits[v]| <= 1
    requires SingleAt(s, v) && forall u :: u in c.awaits[v] ==> SingleAt(s, u)
    ensures SingleAt(Apply(c, s, m), v)
  {
    var s' := Apply(c, s, m);
    assert m.Check? ==> MayStart(s, m.i, m.v);
    StillOnce(c, s, m, v);
    forall i: nat | MayStart(s', i, v)
      ensures !Invoked(s', v)
    {
      MayStartStep(c, s, m, i, v);
      UncalledStep(c, s, m, i, v);
    }
    forall i: nat, j: nat | MayStart(s', i, v) && MayStart(s', j, v)
      ensures i == j
    {
      MayStartStep(c, s, m, i, v);
      MayStartStep(c, s, m, j, v);
      if m.Update? && (i == m.i || j == m.i) {
        NobodyElseStarts(c, s, m.i, if i == m.i then j else i, v);
      }
    }
  }

  lemma UncalledStep(c: Config, s: State, m: Move, i: nat, v: Name)
    requires WellFormed(c) && Inv(c, s) && Enabled(c, s, m) && v in c.awaits
    requires SingleAt(s, v) && forall u :: u in c.awaits[v] ==> SingleAt(s, u)
    requires MayStart(Apply(c, s, m), i, v)
    ensures !Invoked(Apply(c, s, m), v)
  {
    MayStartStep(c, s, m, i, v);
    SameInvocations(c, s, m, v);
    if m.Update? && i == m.i {
      assert s.tasks[m.i].node.value in c.awaits[v];
      NotYetInvoked(c, s, i, v);
    } else if m.Check? && m.v == v {
      assert MayStart(s, m.i, v);
    }
  }

  lemma NobodyElseStarts(c: Config, s: State, i: nat, j: nat, v: Name)
    requires WellFormed(c) && Inv(c, s) && v in c.awaits && |c.awaits[v]| <= 1
    requires i < |s.tasks| && s.tasks[i].phase == Succeeded && s.tasks[i].node.Some? && !CalledTwice(s, s.tasks[i].node.value)
    requires s.tasks[i].node.value in c.triggers && v in c.triggers[s.tasks[i].node.value]
    ensures MayStart(s, j, v) ==> i == j
  {
    if MayStart(s, j, v) {
      assert TaskOk(c, s, s.tasks[j]);
      assert s.tasks[i].node.value in c.awaits[v];
      assert s.tasks[j].node.Some?;
      SameElement(c.awaits[v], s.tasks[i].node.value, s.tasks[j].node.value);
      TwiceBy(s, i, j, s.tasks[i].node.value);
    }
  }

  lemma TwiceBy(s: State, i: nat, j: nat, v: Name)
    requires i < |s.tasks| && j < |s.tasks| && i != j && s.tasks[i].node == Some(v) && s.tasks[j].node == Some(v)
    ensures CalledTwice(s, v)
  {
    assert i < j || j < i;
  }

  /** Below a vertex that may not repeat every interleaving calls each vertex once at most. */
  lemma {:induction false} UnrepeatedIsSingle(c: Config, moves: seq<Move>, v: Name)
    requires WellFormed(c) && Feasible(c, moves) && v in c.awaits && !MayRepeat(c, v)
    ensures SingleAt(Exec(c, moves), v)
    decreases |moves|
  {
    if moves != [] {
      var before := moves[..|moves| - 1];
      UnrepeatedIsSingle(c, before, v);
      forall u | u in c.awaits[v]
        ensures SingleAt(Exec(c, before), u)
      {
        if MayRepeat(c, u) {
          RepeatsAbove(c, v, u);
        }
        UnrepeatedIsSingle(c, before, u);
      }
      Reachable(c, before);
      SingleStep(c, Exec(c, before), moves[|moves| - 1], v);
    }
  }

  /** If no vertex awaits two others, no interleaving calls one twice. */
  lemma SingleAwaitCallsOnce(c: Config, moves: seq<Move>)
    requires WellFormed(c) && AwaitsAtMostOne(c) && Feasible(c, moves)
    ensures NoRepeats(Exec(c, moves))
  {
    Reachable(c, moves);
    var s := Exec(c, moves);
    forall i, j | 0 <= i < j < |s.tasks| && s.tasks[i].node.Some?
      ensures s.tasks[i].node != s.tasks[j].node
    {
      assert TaskOk(c, s, s.tasks[i]);
      UnrepeatedIsSingle(c, moves, s.tasks[i].node.value);
      assert !CalledTwice(s, s.tasks[i].node.value);
    }
  }

  /** Nobody has looked at `v` yet, no call has failed, and whoever may unblock `v` still has it to look at. */
  ghost predicate HeldBack(c: Config, s: State, v: Name)
    requires v in c.awaits
  {
    && !Invoked(s, v) && !SomeFailed(s)
    && forall i :: 0 <= i < |s.tasks| && s.tasks[i].node.Some? && s.tasks[i].node.value in c.awaits[v] && Done(s.tasks[i].phase)
         ==> MayStart(s, i, v)
  }

  /** The only step anyone can take is to look at `v`. */
  ghost predicate Stalled(s: State, v: Name) {
    forall i :: 0 <= i < |s.tasks| ==> s.tasks[i].phase == Returned || s.tasks[i].phase == Expanding({v})
  }

  lemma HeldBackStep(c: Config, s: State, m: Move, v: Name)
    requires WellFormed(c) && Inv(c, s) && v in c.awaits && HeldBack(c, s, v)
    requires Enabled(c, s, m) && !m.Fail? && !(m.Check? && m.v == v)
    ensures HeldBack(c, Apply(c, s, m), v)
  {
    hide Inv;
    var s' := Apply(c, s, m);
    SameInvocations(c, s, m, v);
    forall i | 0 <= i < |s'.tasks| && s'.tasks[i].node.Some? && s'.tasks[i].node.value in c.awaits[v] && Done(s'.tasks[i].phase)
      ensures MayStart(s', i, v)
    {
      assert i < |s.tasks|;
      assert (m.Update? && i == m.i) || Done(s.tasks[i].phase);
      assert Done(s.tasks[i].phase) ==> MayStart(s, i, v);
    }
  }

  /** Goroutines are never forgotten. */
  ghost predicate Continues(s: State, s': State) {
    |s.tasks| <= |s'.tasks| && forall i :: 0 <= i < |s.tasks| ==> s'.tasks[i].node == s.tasks[i].node
  }

  /** Run everybody as far as possible without looking at `v`. */
  lemma {:induction false} DriveToStall(c: Config, rank: map<Name, nat>, v: Name, moves: seq<Move>) returns (moves': seq<Move>)
    requires WellFormed(c) && Ranks(c.awaits, rank) && v in c.awaits
    requires Feasible(c, moves) && HeldBack(c, Exec(c, moves), v)
    ensures Feasible(c, moves') && HeldBack(c, Exec(c, moves'), v) && Stalled(Exec(c, moves'), v)
    ensures Continues(Exec(c, moves), Exec(c, moves'))
    decreases Weight(c, rank, Exec(c, moves))
  {
    var s := Exec(c, moves);
    if Stalled(s, v) {
      moves' := moves;
    } else {
      Reachable(c, moves);
      var m := OtherMove(c, s, v);
      HeldBackStep(c, s, m, v);
      StepDecreases(c, rank, s, m);
      Extend(c, moves, m);
      StepContinues(c, s, m);
      moves' := DriveToStall(c, rank, v, moves + [m]);
    }
  }

  lemma StepContinues(c: Config, s: State, m: Move)
    requires Enabled(c, s, m)
    ensures Continues(s, Apply(c, s, m))
  {
  }

  lemma OtherMove(c: Config, s: State, v: Name) returns (m: Move)
    requires WellFormed(c) && Inv(c, s) && !SomeFailed(s) && !Stalled(s, v)
    ensures Enabled(c, s, m) && !m.Fail? && !(m.Check? && m.v == v)
  {
    var i :| 0 <= i < |s.tasks| && s.tasks[i].phase != Returned && s.tasks[i].phase != Expanding({v});
    var t := s.tasks[i];
    assert TaskOk(c, s, t);
    if t.phase == Calling {
      m := Succeed(i);
    } else if t.phase == Succeeded {
      m := Update(i);
    } else if t.phase == Expanding({}) {
      m := Return(i);
    } else {
      var w := OtherElement(t.phase.todo, v);
      m := Check(i, w);
    }
  }

  lemma NothingFails(c: Config, s: State, m: Move)
    requires Enabled(c, s, m) && !m.Fail? && !SomeFailed(s)
    ensures !SomeFailed(Apply(c, s, m))
  {
  }

  /** What has failed stays failed. */
  lemma StaysFailed(c: Config, s: State, m: Move)
    requires Enabled(c, s, m)
    ensures SomeFailed(s) || m.Fail? ==> SomeFailed(Apply(c, s, m))
  {
    if SomeFailed(s) {
      var i :| 0 <= i < |s.tasks| && s.tasks[i].phase == Failed;
      assert Apply(c, s, m).tasks[i].phase == Failed;
    }
    if m.Fail? {
      assert Apply(c, s, m).tasks[m.i].phase == Failed;
    }
  }

  lemma OtherElement(vs: set<Name>, v: Name) returns (w: Name)
    requires vs != {} && vs != {v}
    ensures w in vs && w != v
  {
    if v in vs {
      assert vs == {v} + (vs - {v});
    } else {
      assert vs - {v} == vs;
    }
    assert vs - {v} != {};
    w :| w in vs - {v};
  }

  /** In a stalled state everything `v` awaits, directly or not, is at the target status. */
  lemma {:induction false} StalledIsUnblocked(c: Config, rank: map<Name, nat>, s: State, v: Name, u: Name)
    requires WellFormed(c) && Ranks(c.awaits, rank) && Inv(c, s) && v in c.awaits && u in c.awaits
    requires HeldBack(c, s, v) && Stalled(s, v) && rank[u] < rank[v]
    ensures AtTarget(c, s, u)
    decreases rank[u]
  {
    hide Inv;
    hide HeldBack;
    hide Stalled;
    forall w | w in c.awaits[u]
      ensures w !in Unfinished(c, s, u)
    {
      StalledIsUnblocked(c, rank, s, v, w);
    }
    UnblockedInStall(c, s, v, u);
  }

  lemma UnblockedInStall(c: Config, s: State, v: Name, u: Name)
    requires WellFormed(c) && Inv(c, s) && Stalled(s, v) && u in c.awaits && u != v
    requires forall w :: w in c.awaits[u] ==> w !in Unfinished(c, s, u)
    ensures AtTarget(c, s, u)
  {
    assert Unfinished(c, s, u) == {};
    assert !Pending(s, u);
    var i :| 0 <= i < |s.tasks| && s.tasks[i].node == Some(u);
    assert Done(s.tasks[i].phase);
    assert Finished(s, u);
  }

  /** Some failure-free schedule leads to a call on `v`. */
  lemma SomeCall(c: Config, rank: map<Name, nat>, v: Name) returns (moves: seq<Move>, i: nat)
    requires WellFormed(c) && Ranks(c.awaits, rank) && v in c.awaits
    ensures Feasible(c, moves) && !SomeFailed(Exec(c, moves))
    ensures i < |Exec(c, moves).tasks| && Exec(c, moves).tasks[i] == Task(Some(v), Calling)
  {
    hide Inv;
    hide Stalled;
    var start := DriveToStall(c, rank, v, []);
    Reachable(c, start);
    var s := Exec(c, start);
    NothingUnfinished(c, rank, s, v);
    var j := SomeoneWaits(c, s, v);
    StartsCall(c, s, j, v);
    Extend(c, start, Check(j, v));
    moves, i := start + [Check(j, v)], |s.tasks|;
  }

  lemma SomeoneWaits(c: Config, s: State, v: Name) returns (j: nat)
    requires WellFormed(c) && Inv(c, s) && v in c.awaits && !Invoked(s, v) && Unfinished(c, s, v) == {}
    ensures MayStart(s, j, v)
  {
    assert Pending(s, v);
    j :| 0 <= j < |s.tasks| && s.tasks[j].phase.Expanding? && v in s.tasks[j].phase.todo;
  }

  lemma StartsCall(c: Config, s: State, j: nat, v: Name)
    requires v in c.awaits && MayStart(s, j, v) && Unfinished(c, s, v) == {} && !SomeFailed(s)
    ensures var s' := Apply(c, s, Check(j, v));
      Enabled(c, s, Check(j, v)) && !SomeFailed(s') && |s'.tasks| == |s.tasks| + 1 && s'.tasks[|s.tasks|] == Task(Some(v), Calling)
  {
  }

  /** Two calls on `v` have been started, and no call on it has ended. */
  ghost predicate TwiceAtOnce(s: State, v: Name) {
    && CalledTwice(s, v)
    && (forall i :: 0 <= i < |s.tasks| && s.tasks[i].node == Some(v) ==> s.tasks[i].phase == Calling)
  }

  /** A vertex that awaits two others is called twice at the same time by some schedule in which nothing fails. */
  lemma TwoAwaitedCallTwice(c: Config, rank: map<Name, nat>, v: Name, u: Name, w: Name) returns (moves: seq<Move>)
    requires WellFormed(c) && Ranks(c.awaits, rank)
    requires v in c.awaits && u in c.awaits[v] && w in c.awaits[v] && u != w
    ensures Feasible(c, moves) && !SomeFailed(Exec(c, moves)) && TwiceAtOnce(Exec(c, moves), v)
  {
    var start := DriveToStall(c, rank, v, []);
    Reachable(c, start);
    var i := StalledHolder(c, rank, Exec(c, start), v, u);
    var j := StalledHolder(c, rank, Exec(c, start), v, w);
    moves := StartBoth(c, rank, start, i, j, v);
  }

  /** Two goroutines that wait to look at a stalled vertex both start it. */
  lemma StartBoth(c: Config, rank: map<Name, nat>, start: seq<Move>, i: nat, j: nat, v: Name) returns (moves: seq<Move>)
    requires WellFormed(c) && Ranks(c.awaits, rank) && v in c.awaits && Feasible(c, start)
    requires HeldBack(c, Exec(c, start), v) && Stalled(Exec(c, start), v)
    requires MayStart(Exec(c, start), i, v) && MayStart(Exec(c, start), j, v) && i != j
    ensures Feasible(c, moves) && !SomeFailed(Exec(c, moves)) && TwiceAtOnce(Exec(c, moves), v)
  {
    Reachable(c, start);
    NothingUnfinished(c, rank, Exec(c, start), v);
    BothStart(c, Exec(c, start), i, j, v);
    Extend(c, start, Check(i, v));
    Extend(c, start + [Check(i, v)], Check(j, v));
    moves := start + [Check(i, v)] + [Check(j, v)];
  }

  lemma BothStart(c: Config, s: State, i: nat, j: nat, v: Name)
    requires v in c.awaits && Unfinished(c, s, v) == {} && !SomeFailed(s) && !Invoked(s, v)
    requires MayStart(s, i, v) && MayStart(s, j, v) && i != j
    ensures var s1 := Apply(c, s, Check(i, v));
      Enabled(c, s1, Check(j, v)) && !SomeFailed(Apply(c, s1, Check(j, v))) && TwiceAtOnce(Apply(c, s1, Check(j, v)), v)
  {
    var s1 := Apply(c, s, Check(i, v));
    assert Unfinished(c, s1, v) == {} && s1.tasks[j] == s.tasks[j];
    var s2 := Apply(c, s1, Check(j, v));
    var n := |s.tasks|;
    TwiceBy(s2, n, n + 1, v);
  }

  /** Nobody above a vertex all of whose calls are still running has been looked at. */
  lemma NotLookedAtYet(c: Config, moves: seq<Move>, v: Name, u: Name)
    requires WellFormed(c) && Feasible(c, moves) && v in c.awaits && c.awaits[v] == {u}
    requires !SomeFailed(Exec(c, moves)) && TwiceAtOnce(Exec(c, moves), u)
    ensures HeldBack(c, Exec(c, moves), v)
  {
    Reachable(c, moves);
    var s := Exec(c, moves);
    assert !Finished(s, u);
    OrderIsRespected(c, moves, v, u);
  }

  /** Each success of a vertex called twice expands to what awaits it alone. */
  lemma TwiceAgain(c: Config, rank: map<Name, nat>, v: Name, u: Name, below: seq<Move>) returns (moves: seq<Move>)
    requires WellFormed(c) && Ranks(c.awaits, rank) && v in c.awaits && c.awaits[v] == {u}
    requires Feasible(c, below) && !SomeFailed(Exec(c, below)) && TwiceAtOnce(Exec(c, below), u)
    ensures Feasible(c, moves) && !SomeFailed(Exec(c, moves)) && TwiceAtOnce(Exec(c, moves), v)
  {
    NotLookedAtYet(c, below, v, u);
    var s := Exec(c, below);
    var i, j :| 0 <= i < j < |s.tasks| && s.tasks[i].node == Some(u) && s.tasks[j].node == Some(u);
    var start := DriveToStall(c, rank, v, below);
    assert MayStart(Exec(c, start), i, v) && MayStart(Exec(c, start), j, v);
    moves := StartBoth(c, rank, start, i, j, v);
  }

  lemma OnlyBelow(c: Config, v: Name) returns (u: Name)
    requires WellFormed(c) && MayRepeat(c, v) && |c.awaits[v]| <= 1
    ensures u in c.awaits && c.awaits[v] == {u} && MayRepeat(c, u)
  {
    var w :| w in c.awaits && Reaches(c.awaits, v, w) && |c.awaits[w]| > 1;
    var p :| Walk(c.awaits, p) && |p| >= 2 && p[0] == v && p[|p| - 1] == w;
    u := p[1];
    forall x | x in c.awaits[v]
      ensures x == u
    {
      SameElement(c.awaits[v], x, u);
    }
    if |p| > 2 {
      var q := p[1..];
      assert Walk(c.awaits, q) && q[0] == u && q[|q| - 1] == w;
    }
  }

  /** Wherever something below awaits two others, some failure-free schedule calls the vertex twice. */
  lemma {:induction false} RepeatedCall(c: Config, rank: map<Name, nat>, v: Name) returns (moves: seq<Move>)
    requires WellFormed(c) && Ranks(c.awaits, rank) && MayRepeat(c, v)
    ensures Feasible(c, moves) && !SomeFailed(Exec(c, moves)) && TwiceAtOnce(Exec(c, moves), v)
    decreases rank[v]
  {
    if |c.awaits[v]| > 1 {
      var u :| u in c.awaits[v];
      assert |{u}| == 1;
      var w := OtherElement(c.awaits[v], u);
      moves := TwoAwaitedCallTwice(c, rank, v, u, w);
    } else {
      var u := OnlyBelow(c, v);
      var below := RepeatedCall(c, rank, u);
      moves := TwiceAgain(c, rank, v, u, below);
    }
  }

  lemma NothingUnfinished(c: Config, rank: map<Name, nat>, s: State, v: Name)
    requires WellFormed(c) && Ranks(c.awaits, rank) && Inv(c, s) && v in c.awaits
    requires HeldBack(c, s, v) && Stalled(s, v)
    ensures Unfinished(c, s, v) == {}
  {
    forall u | u in c.awaits[v]
      ensures u !in Unfinished(c, s, v)
    {
      StalledIsUnblocked(c, rank, s, v, u);
    }
  }

  lemma StalledHolder(c: Config, rank: map<Name, nat>, s: State, v: Name, u: Name) returns (i: nat)
    requires WellFormed(c) && Ranks(c.awaits, rank) && Inv(c, s) && v in c.awaits && u in c.awaits[v]
    requires HeldBack(c, s, v) && Stalled(s, v)
    ensures i < |s.tasks| && s.tasks[i] == Task(Some(u), Expanding({v}))
  {
    StalledIsUnblocked(c, rank, s, v, u);
    assert Finished(s, u);
    i :| 0 <= i < |s.tasks| && s.tasks[i].node == Some(u) && Done(s.tasks[i].phase);
    assert MayStart(s, i, v);
  }

  /**
   * On an acyclic graph every interleaving calls a vertex once at most iff neither it nor anything it awaits,
   * directly or not, awaits two others.
   */
  lemma OnceIffNoneBelowAwaitsTwo(c: Config, rank: map<Name, nat>, v: Name)
    requires WellFormed(c) && Ranks(c.awaits, rank) && v in c.awaits
    ensures (forall moves :: Feasible(c, moves) ==> !CalledTwice(Exec(c, moves), v)) <==> !MayRepeat(c, v)
  {
    if MayRepeat(c, v) {
      var moves := RepeatedCall(c, rank, v);
    } else {
      forall moves | Feasible(c, moves)
        ensures !CalledTwice(Exec(c, moves), v)
      {
        UnrepeatedIsSingle(c, moves, v);
      }
    }
  }

  /** Every interleaving calls every vertex once at most iff no vertex awaits more than one other. */
  lemma OnceIffSingleAwaited(c: Config, rank: map<Name, nat>)
    requires WellFormed(c) && Ranks(c.awaits, rank)
    ensures (forall moves :: Feasible(c, moves) ==> NoRepeats(Exec(c, moves))) <==> AwaitsAtMostOne(c)
  {
    if AwaitsAtMostOne(c) {
      forall moves | Feasible(c, moves)
        ensures NoRepeats(Exec(c, moves))
      {
        SingleAwaitCallsOnce(c, moves);
      }
    } else {
      var v :| v in c.awaits && |c.awaits[v]| > 1;
      var moves := RepeatedCall(c, rank, v);
      assert CalledTwice(Exec(c, moves), v);
    }
  }
}
