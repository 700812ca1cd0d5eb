/** What overlapping callbacks of `Stop` and `Down` can leave in the list they share, and when they cannot. */
module Overlap {
  import opened Wrappers
  import opened Digraph
  import opened Traversal
  import opened Termination
  import opened ExactlyOnce
  import opened ContainerEngine
  import opened Teardown

  /** `w` is `v` or something `v` awaits, directly or not. */
  ghost predicate Concerns(r: Relation, v: Name, w: Name) {
    w == v || Reaches(r, v, w)
  }

  ghost predicate Comparable(r: Relation, u: Name, v: Name) {
    Concerns(r, u, v) || Concerns(r, v, u)
  }

  lemma ConcernsNext(r: Relation, v: Name, w: Name, n: Name)
    requires w in r && n in r[w] && Concerns(r, v, w)
    ensures Reaches(r, v, n)
  {
    if w == v {
      EdgeReaches(r, v, n);
    } else {
      var p :| Walk(r, p) && |p| >= 2 && p[0] == v && p[|p| - 1] == w;
      var q := p + [n];
      assert Walk(r, q) && q[0] == v && q[|q| - 1] == n;
    }
  }

  // ---------- running on with some callbacks held back ----------

  /** Nothing has failed, and of the callbacks that have not returned only held ones have read the list. */
  ghost predicate Calm(x: DState, held: set<nat>) {
    && !SomeFailed(x.base)
    && (forall i :: InCallback(x.base, i) && i in x.parts ==> i in held)
    && (forall i :: i in held ==> InCallback(x.base, i) && i in x.parts && i !in x.stored)
  }

  /** A callback that is held, or of a frozen service. */
  predicate Stays(s: State, frozen: set<Name>, held: set<nat>, i: nat) {
    InCallback(s, i) && (i in held || s.tasks[i].node.value in frozen)
  }

  /** Nobody else has anything left to do. */
  ghost predicate OnlyStays(s: State, frozen: set<Name>, held: set<nat>) {
    forall i :: 0 <= i < |s.tasks| ==> s.tasks[i].phase == Returned || Stays(s, frozen, held, i)
  }

  predicate Live(t: Task) {
    t.phase != Returned && t.phase != Failed
  }

  /** Nobody is going to look at `v` any more. */
  ghost predicate Quiet(c: Config, s: State, v: Name) {
    forall i :: 0 <= i < |s.tasks| && Live(s.tasks[i]) ==> QuietTask(c, s.tasks[i], v)
  }

  ghost predicate QuietTask(c: Config, t: Task, v: Name) {
    && (t.node.Some? ==> !Concerns(c.awaits, v, t.node.value))
    && (t.phase.Expanding? ==> forall w :: w in t.phase.todo ==> !Concerns(c.awaits, v, w))
  }

  lemma QuietStep(c: Config, s: State, m: Move, v: Name)
    requires WellFormed(c) && Enabled(c, s, m) && Quiet(c, s, v)
    ensures Quiet(c, Apply(c, s, m), v)
  {
    var s' := Apply(c, s, m);
    assert Live(s.tasks[m.i]) && QuietTask(c, s.tasks[m.i], v);
    if m.Update? {
      var n := s.tasks[m.i].node.value;
      forall w | w in c.triggers[n]
        ensures !Concerns(c.awaits, v, w)
      {
        assert w in c.awaits && n in c.awaits[w];
        if Concerns(c.awaits, v, w) {
          ConcernsNext(c.awaits, v, w, n);
        }
      }
    }
    forall i | 0 <= i < |s'.tasks| && Live(s'.tasks[i])
      ensures QuietTask(c, s'.tasks[i], v)
    {
      if i != m.i && i < |s.tasks| {
        assert QuietTask(c, s.tasks[i], v);
      }
    }
  }

  /** What running on keeps: what held callbacks have read, and a container of a service nobody looks at any more. */
  ghost predicate Onward(c: Config, x: DState, x': DState, frozen: set<Name>, held: set<nat>, k: Snapshot) {
    && (forall i :: i in held && i in x.parts ==> i in x'.parts && x'.parts[i] == x.parts[i])
    && Continues(x.base, x'.base)
    && x.handed <= x'.handed
    && (forall w :: w in frozen && w in StoredNames(x') ==> w in StoredNames(x))
    && (Quiet(c, x.base, k.info.service) && k in x.shared ==> Quiet(c, x'.base, k.info.service) && k in x'.shared)
  }

  lemma DExtend(c: Config, listed: seq<Snapshot>, moves: seq<DMove>, m: DMove)
    requires DFeasible(c, listed, moves) && DEnabled(c, DExec(c, listed, moves), m)
    ensures DFeasible(c, listed, moves + [m])
    ensures DExec(c, listed, moves + [m]) == DApply(c, DExec(c, listed, moves), m)
  {
    assert (moves + [m])[..|moves|] == moves;
  }

  /** The state after a whole callback, undisturbed. */
  function AfterCallback(c: Config, x: DState, i: nat): DState
    requires InCallback(x.base, i)
  {
    var v := x.base.tasks[i].node.value;
    DState(Apply(c, x.base, Succeed(i)), Without(x.shared, {v}), x.parts[i := Parts(Of(x.shared, {v}), Without(x.shared, {v}))],
           x.stored + {i}, x.handed + multiset(Of(x.shared, {v})))
  }

  lemma WholeCallback(c: Config, listed: seq<Snapshot>, moves: seq<DMove>, i: nat) returns (moves': seq<DMove>)
    requires DFeasible(c, listed, moves)
    requires InCallback(DExec(c, listed, moves).base, i) && i !in DExec(c, listed, moves).parts && i !in DExec(c, listed, moves).stored
    ensures DFeasible(c, listed, moves')
    ensures DExec(c, listed, moves') == AfterCallback(c, DExec(c, listed, moves), i)
  {
    DExtend(c, listed, moves, Read(i));
    DExtend(c, listed, moves + [Read(i)], Store(i));
    DExtend(c, listed, moves + [Read(i)] + [Store(i)], Base(Succeed(i)));
    moves' := moves + [Read(i)] + [Store(i)] + [Base(Succeed(i))];
  }

  lemma CallbackOnward(c: Config, x: DState, i: nat, frozen: set<Name>, held: set<nat>, k: Snapshot)
    requires WellFormed(c) && Tracked(x) && Calm(x, held)
    requires InCallback(x.base, i) && i !in held && x.base.tasks[i].node.value !in frozen
    ensures Calm(AfterCallback(c, x, i), held) && Onward(c, x, AfterCallback(c, x, i), frozen, held, k)
  {
    var x', v := AfterCallback(c, x, i), x.base.tasks[i].node.value;
    if Quiet(c, x.base, k.info.service) {
      QuietStep(c, x.base, Succeed(i), k.info.service);
      assert Live(x.base.tasks[i]) && QuietTask(c, x.base.tasks[i], k.info.service);
      WithoutMembers(x.shared, {v}, k);
    }
    assert forall j :: 0 <= j < |x.base.tasks| && j != i ==> x'.base.tasks[j] == x.base.tasks[j];
  }

  lemma BaseOnward(c: Config, x: DState, m: Move, frozen: set<Name>, held: set<nat>, k: Snapshot)
    requires WellFormed(c) && Tracked(x) && Calm(x, held) && Enabled(c, x.base, m) && !m.Succeed? && !m.Fail?
    ensures DEnabled(c, x, Base(m))
    ensures Calm(DApply(c, x, Base(m)), held) && Onward(c, x, DApply(c, x, Base(m)), frozen, held, k)
  {
    hide Quiet;
    hide StoredNames;
    hide WellFormed;
    var x' := DApply(c, x, Base(m));
    SameNames(c, x, m);
    if Quiet(c, x.base, k.info.service) {
      QuietStep(c, x.base, m, k.info.service);
    }
    forall i: nat | InCallback(x'.base, i) && i in x'.parts
      ensures i in held
    {
      assert i < |x.base.tasks| && x'.base.tasks[i] == x.base.tasks[i];
    }
  }

  /** The next step of somebody who need not stay. */
  lemma NextMove(c: Config, s: State, frozen: set<Name>, held: set<nat>) returns (m: Move)
    requires WellFormed(c) && Inv(c, s) && !SomeFailed(s) && !OnlyStays(s, frozen, held)
    ensures Enabled(c, s, m) && !m.Fail? && (m.Succeed? ==> InCallback(s, m.i) && !Stays(s, frozen, held, m.i))
  {
    var i :| 0 <= i < |s.tasks| && s.tasks[i].phase != Returned && !Stays(s, frozen, held, i);
    assert TaskOk(c, s, s.tasks[i]);
    m := NothingGetsStuck(c, s, i);
  }

  lemma OnwardTwice(c: Config, x: DState, x1: DState, x2: DState, frozen: set<Name>, held: set<nat>, k: Snapshot)
    requires Onward(c, x, x1, frozen, held, k) && Onward(c, x1, x2, frozen, held, k)
    ensures Onward(c, x, x2, frozen, held, k)
  {
  }

  lemma BaseInv(c: Config, listed: seq<Snapshot>, moves: seq<DMove>)
    requires WellFormed(c) && DFeasible(c, listed, moves)
    ensures Inv(c, DExec(c, listed, moves).base) && Tracked(DExec(c, listed, moves))
  {
    var base := Projects(c, listed, moves);
    Traversal.Reachable(c, base);
    DReachable(c, listed, moves);
  }

  /** Let everybody run, callbacks undisturbed, until only held callbacks and those of frozen services are left. */
  lemma {:induction false} Drive(c: Config, rank: map<Name, nat>, listed: seq<Snapshot>, moves: seq<DMove>,
                                 frozen: set<Name>, held: set<nat>, k: Snapshot) returns (moves': seq<DMove>)
    requires WellFormed(c) && Ranks(c.awaits, rank) && DFeasible(c, listed, moves)
    requires Calm(DExec(c, listed, moves), held)
    ensures DFeasible(c, listed, moves')
    ensures Calm(DExec(c, listed, moves'), held) && OnlyStays(DExec(c, listed, moves').base, frozen, held)
    ensures Onward(c, DExec(c, listed, moves), DExec(c, listed, moves'), frozen, held, k)
    decreases Weight(c, rank, DExec(c, listed, moves).base)
  {
    var x := DExec(c, listed, moves);
    if OnlyStays(x.base, frozen, held) {
      moves' := moves;
    } else {
      BaseInv(c, listed, moves);
      var m := NextMove(c, x.base, frozen, held);
      StepDecreases(c, rank, x.base, m);
      var longer := DriveOne(c, listed, moves, m, frozen, held, k);
      moves' := Drive(c, rank, listed, longer, frozen, held, k);
      OnwardTwice(c, x, DExec(c, listed, longer), DExec(c, listed, moves'), frozen, held, k);
    }
  }

  lemma DriveOne(c: Config, listed: seq<Snapshot>, moves: seq<DMove>, m: Move, frozen: set<Name>, held: set<nat>, k: Snapshot)
    returns (longer: seq<DMove>)
    requires WellFormed(c) && DFeasible(c, listed, moves) && Calm(DExec(c, listed, moves), held)
    requires Enabled(c, DExec(c, listed, moves).base, m) && !m.Fail? && Tracked(DExec(c, listed, moves))
    requires var s := DExec(c, listed, moves).base;
      m.Succeed? ==> InCallback(s, m.i) && !Stays(s, frozen, held, m.i)
    ensures DFeasible(c, listed, longer) && Calm(DExec(c, listed, longer), held)
    ensures Onward(c, DExec(c, listed, moves), DExec(c, listed, longer), frozen, held, k)
    ensures DExec(c, listed, longer).base == Apply(c, DExec(c, listed, moves).base, m)
  {
    var x := DExec(c, listed, moves);
    if m.Succeed? {
      longer := WholeCallback(c, listed, moves, m.i);
      CallbackOnward(c, x, m.i, frozen, held, k);
    } else {
      BaseOnward(c, x, m, frozen, held, k);
      DExtend(c, listed, moves, Base(m));
      longer := moves + [Base(m)];
    }
  }

  /** Every failure-free schedule of the traversal, with its callbacks undisturbed. */
  lemma {:induction false} Lift(c: Config, listed: seq<Snapshot>, base: seq<Move>, k: Snapshot) returns (moves: seq<DMove>)
    requires WellFormed(c) && Feasible(c, base) && !SomeFailed(Exec(c, base))
    ensures DFeasible(c, listed, moves) && DExec(c, listed, moves).base == Exec(c, base) && Calm(DExec(c, listed, moves), {})
    decreases |base|
  {
    if base == [] {
      moves := [];
    } else {
      var before, m := base[..|base| - 1], base[|base| - 1];
      StaysFailed(c, Exec(c, before), m);
      var start := Lift(c, listed, before, k);
      BaseInv(c, listed, start);
      assert TaskOk(c, Exec(c, before), Exec(c, before).tasks[m.i]);
      moves := DriveOne(c, listed, start, m, {}, {}, k);
    }
  }

  // ---------- what a callback that read early puts back ----------

  /** A held callback has a companion on the same service that is not held. */
  ghost predicate Covered(s: State, held: set<nat>) {
    forall h :: h in held && h < |s.tasks| ==> exists i :: 0 <= i < |s.tasks| && i !in held && s.tasks[i].node == s.tasks[h].node
  }

  /** With these held back, whatever awaits none of the frozen services has been called. */
  lemma {:induction false} FrozenIsInvoked(c: Config, rank: map<Name, nat>, s: State, frozen: set<Name>, held: set<nat>, w: Name)
    requires WellFormed(c) && Ranks(c.awaits, rank) && Inv(c, s) && !SomeFailed(s) && OnlyStays(s, frozen, held) && Covered(s, held)
    requires w in c.awaits && forall f :: f in frozen ==> !Reaches(c.awaits, w, f)
    ensures Invoked(s, w)
    decreases rank[w]
  {
    forall a | a in c.awaits[w]
      ensures a !in Unfinished(c, s, w)
    {
      EdgeReaches(c.awaits, w, a);
      forall f | f in frozen
        ensures !Reaches(c.awaits, a, f)
      {
        if Reaches(c.awaits, a, f) {
          ReachesFrom(c.awaits, w, a, f);
        }
      }
      FrozenIsInvoked(c, rank, s, frozen, held, a);
      var i := FreeTask(s, held, a);
      assert Traversal.Finished(s, a);
    }
    assert Unfinished(c, s, w) == {};
    assert !Pending(s, w);
  }

  lemma FreeTask(s: State, held: set<nat>, a: Name) returns (i: nat)
    requires Invoked(s, a) && Covered(s, held)
    ensures i < |s.tasks| && i !in held && s.tasks[i].node == Some(a)
  {
    i :| 0 <= i < |s.tasks| && s.tasks[i].node == Some(a);
    if i in held {
      i :| 0 <= i < |s.tasks| && i !in held && s.tasks[i].node == Some(a);
    }
  }

  /** A frozen service that has been called and has not stored still is to be given the list. */
  lemma StillToBeCalled(x: DState, frozen: set<Name>, held: set<nat>, u: Name) returns (i: nat)
    requires Tracked(x) && Calm(x, held) && u !in StoredNames(x) && OnlyStays(x.base, frozen, held) && Invoked(x.base, u)
    requires forall h :: h in held && h < |x.base.tasks| ==> x.base.tasks[h].node != Some(u)
    ensures InCallback(x.base, i) && i !in x.parts && i !in held && x.base.tasks[i].node == Some(u)
  {
    i :| 0 <= i < |x.base.tasks| && x.base.tasks[i].node == Some(u);
  }

  /** The only callback that has read and not returned is `i`, on `u`, and it will store `k`. */
  ghost predicate Holding(x: DState, i: nat, u: Name, k: Snapshot) {
    Calm(x, {i}) && i in x.parts && k in x.parts[i].others && InCallback(x.base, i) && x.base.tasks[i].node == Some(u)
  }

  /** The last callback left stores what it read long before, and everybody else runs to the end. */
  lemma StoreLate(c: Config, rank: map<Name, nat>, listed: seq<Snapshot>, late: seq<DMove>, i: nat, u: Name, k: Snapshot) returns (moves: seq<DMove>)
    requires WellFormed(c) && Ranks(c.awaits, rank) && DFeasible(c, listed, late)
    requires Holding(DExec(c, listed, late), i, u, k) && OnlyStays(DExec(c, listed, late).base, {}, {i}) && !Concerns(c.awaits, k.info.service, u)
    ensures DFeasible(c, listed, moves)
    ensures Quiescent(DExec(c, listed, moves).base) && !SomeFailed(DExec(c, listed, moves).base)
    ensures k in DExec(c, listed, moves).shared
  {
    hide Quiet;
    hide StoredNames;
    var x := DExec(c, listed, late);
    StoredLate(c, x, i, k);
    DExtend(c, listed, late, Store(i));
    DExtend(c, listed, late + [Store(i)], Base(Succeed(i)));
    moves := Drive(c, rank, listed, late + [Store(i)] + [Base(Succeed(i))], {}, {}, k);
  }

  lemma StoredLate(c: Config, x: DState, i: nat, k: Snapshot)
    requires Calm(x, {i}) && OnlyStays(x.base, {}, {i}) && InCallback(x.base, i) && i in x.parts && k in x.parts[i].others && i !in x.stored
    requires !Concerns(c.awaits, k.info.service, x.base.tasks[i].node.value)
    ensures DEnabled(c, x, Store(i)) && DEnabled(c, DApply(c, x, Store(i)), Base(Succeed(i)))
    ensures var x' := DApply(c, DApply(c, x, Store(i)), Base(Succeed(i)));
      Calm(x', {}) && Quiet(c, x'.base, k.info.service) && k in x'.shared
  {
    var x' := DApply(c, DApply(c, x, Store(i)), Base(Succeed(i)));
    assert |x'.base.tasks| == |x.base.tasks|;
    assert forall j :: 0 <= j < |x.base.tasks| && j != i ==> x'.base.tasks[j] == x.base.tasks[j];
  }

  lemma AwaitsNeither(r: Relation, rank: map<Name, nat>, u: Name, v: Name, frozen: set<Name>)
    requires Ranks(r, rank) && !Comparable(r, u, v) && frozen == {u, v}
    ensures forall f :: f in frozen ==> !Reaches(r, u, f)
  {
    RankedIsAcyclic(r, rank);
    forall f | f in frozen
      ensures !Reaches(r, u, f)
    {
    }
  }

  lemma DriveFromStart(c: Config, rank: map<Name, nat>, listed: seq<Snapshot>, frozen: set<Name>, k: Snapshot) returns (start: seq<DMove>)
    requires WellFormed(c) && Ranks(c.awaits, rank)
    ensures DFeasible(c, listed, start)
    ensures var x := DExec(c, listed, start);
      && Calm(x, {}) && OnlyStays(x.base, frozen, {}) && Inv(c, x.base) && Tracked(x) && (forall w :: w in frozen ==> w !in StoredNames(x))
  {
    start := Drive(c, rank, listed, [], frozen, {}, k);
    BaseInv(c, listed, start);
    assert StoredNames(DInit(c, listed)) == {};
  }

  /** Everybody but these two services has run, and the callback of `u` is about to read. */
  lemma BothHeldBack(c: Config, rank: map<Name, nat>, listed: seq<Snapshot>, u: Name, v: Name, k: Snapshot) returns (start: seq<DMove>, i: nat)
    requires WellFormed(c) && Ranks(c.awaits, rank) && u in c.awaits && !Comparable(c.awaits, u, v)
    ensures DFeasible(c, listed, start)
    ensures var x := DExec(c, listed, start);
      && Calm(x, {}) && v !in StoredNames(x)
      && InCallback(x.base, i) && i !in x.parts && x.base.tasks[i].node == Some(u)
  {
    var frozen := {u, v};
    start := DriveFromStart(c, rank, listed, frozen, k);
    AwaitsNeither(c.awaits, rank, u, v, frozen);
    FrozenIsInvoked(c, rank, DExec(c, listed, start).base, frozen, {}, u);
    i := StillToBeCalled(DExec(c, listed, start), frozen, {}, u);
  }

  /** A callback that reads before `k` is taken out will store `k`. */
  lemma ReadsBefore(c: Config, listed: seq<Snapshot>, start: seq<DMove>, i: nat, held: set<nat>, k: Snapshot) returns (moves: seq<DMove>)
    requires WellFormed(c) && DFeasible(c, listed, start) && Calm(DExec(c, listed, start), held)
    requires var x := DExec(c, listed, start);
      && k in x.shared && InCallback(x.base, i) && i !in x.parts && i !in x.stored && x.base.tasks[i].node != Some(k.info.service)
    ensures DFeasible(c, listed, moves) && DExec(c, listed, moves) == DApply(c, DExec(c, listed, start), Read(i))
    ensures var x := DExec(c, listed, moves);
      Calm(x, held + {i}) && i in x.parts && k in x.parts[i].others
  {
    var x := DExec(c, listed, start);
    WithoutMembers(x.shared, {x.base.tasks[i].node.value}, k);
    DExtend(c, listed, start, Read(i));
    moves := start + [Read(i)];
  }

  /**
   * Two services that do not await each other: some failure-free schedule comes to rest with a container of
   * one of them in the list, although its callback has taken it out.
   */
  lemma IndependentIsPutBack(c: Config, rank: map<Name, nat>, listed: seq<Snapshot>, u: Name, k: Snapshot) returns (moves: seq<DMove>)
    requires WellFormed(c) && Ranks(c.awaits, rank) && u in c.awaits && k in listed && k.info.service in c.awaits
    requires !Comparable(c.awaits, u, k.info.service)
    ensures DFeasible(c, listed, moves)
    ensures Quiescent(DExec(c, listed, moves).base) && !SomeFailed(DExec(c, listed, moves).base)
    ensures k in DExec(c, listed, moves).shared && k in DExec(c, listed, moves).handed
  {
    var start, i := BothHeldBack(c, rank, listed, u, k.info.service, k);
    ListLacksOnlyServed(c, listed, start, k);
    DReachable(c, listed, start);
    var early := ReadsBefore(c, listed, start, i, {}, k);
    var late := HoldOnly(c, rank, listed, early, i, u, k);
    moves := StoreLate(c, rank, listed, late, i, u, k);
    NothingIsForgotten(c, rank, listed, moves, k);
  }

  /** Everybody but one callback runs to the end. */
  lemma HoldOnly(c: Config, rank: map<Name, nat>, listed: seq<Snapshot>, early: seq<DMove>, i: nat, u: Name, k: Snapshot)
    returns (late: seq<DMove>)
    requires WellFormed(c) && Ranks(c.awaits, rank) && DFeasible(c, listed, early)
    requires Holding(DExec(c, listed, early), i, u, k)
    ensures DFeasible(c, listed, late) && Holding(DExec(c, listed, late), i, u, k) && OnlyStays(DExec(c, listed, late).base, {}, {i})
  {
    late := Drive(c, rank, listed, early, {}, {i}, k);
  }

  // ---------- what a repeated callback below puts back for one above ----------

  /** Some service awaits `w`, and something `w` awaits, directly or not, awaits two others. */
  ghost predicate Enclosed(c: Config, w: Name) {
    (exists y :: y in c.awaits && w in c.awaits[y]) && exists x :: x in c.awaits && Reaches(c.awaits, w, x) && |c.awaits[x]| > 1
  }

  /** While all calls on `x` are running nothing above it has been called. */
  lemma NothingAbove(c: Config, base: seq<Move>, x: Name, w: Name)
    requires WellFormed(c) && Feasible(c, base) && !SomeFailed(Exec(c, base)) && TwiceAtOnce(Exec(c, base), x) && Reaches(c.awaits, w, x)
    ensures !Invoked(Exec(c, base), w)
  {
    if Invoked(Exec(c, base), w) {
      var p :| Walk(c.awaits, p) && |p| >= 2 && p[0] == w && p[|p| - 1] == x;
      assert !Won(Exec(c, base), x);
      InvokedNeedsAll(c, base, p);
    }
  }

  /** Two callbacks of `x` are running, neither has read, and nothing above `x` has been called. */
  lemma TwoBelow(c: Config, rank: map<Name, nat>, listed: seq<Snapshot>, x: Name, k: Snapshot) returns (moves: seq<DMove>, i: nat, j: nat)
    requires WellFormed(c) && Ranks(c.awaits, rank) && MayRepeat(c, x)
    ensures DFeasible(c, listed, moves) && i != j
    ensures var d := DExec(c, listed, moves);
      && Calm(d, {}) && i < |d.base.tasks| && d.base.tasks[i].node == Some(x)
      && InCallback(d.base, j) && j !in d.parts && d.base.tasks[j].node == Some(x)
    ensures forall w :: Reaches(c.awaits, w, x) ==> !Invoked(DExec(c, listed, moves).base, w)
  {
    var base := RepeatedCall(c, rank, x);
    moves := Lift(c, listed, base, k);
    var s := DExec(c, listed, moves).base;
    i, j :| 0 <= i < j < |s.tasks| && s.tasks[i].node == Some(x) && s.tasks[j].node == Some(x);
    forall w | Reaches(c.awaits, w, x)
      ensures !Invoked(s, w)
    {
      NothingAbove(c, base, x, w);
    }
  }

  lemma UncalledIsUnstored(x: DState, w: Name)
    requires !Invoked(x.base, w)
    ensures w !in StoredNames(x)
  {
  }

  /** What Reaches and awaiting say about the three services. */
  lemma ThreeLevels(c: Config, rank: map<Name, nat>, x: Name, w: Name, y: Name)
    requires WellFormed(c) && Ranks(c.awaits, rank) && Reaches(c.awaits, w, x) && y in c.awaits && w in c.awaits[y]
    ensures x != w && w != y && x != y && Reaches(c.awaits, y, x) && !Reaches(c.awaits, w, y) && !Reaches(c.awaits, y, y)
  {
    ReachesFrom(c.awaits, y, w, x);
    RankedIsAcyclic(c.awaits, rank);
    if Reaches(c.awaits, w, y) {
      ReachesFrom(c.awaits, y, w, y);
    }
  }

  /** The second callback of `x` has read the list while `k` is still in it, and `y` has not been called. */
  lemma ReadBelow(c: Config, rank: map<Name, nat>, listed: seq<Snapshot>, x: Name, y: Name, k: Snapshot)
    returns (early: seq<DMove>, i: nat, j: nat)
    requires WellFormed(c) && Ranks(c.awaits, rank) && MayRepeat(c, x) && k in listed
    requires k.info.service in c.awaits && x != k.info.service
    requires Reaches(c.awaits, k.info.service, x) && Reaches(c.awaits, y, x)
    ensures DFeasible(c, listed, early) && i != j
    ensures var d := DExec(c, listed, early);
      Holding(d, j, x, k) && i < |d.base.tasks| && d.base.tasks[i].node == Some(x) && y !in StoredNames(d)
  {
    var start;
    start, i, j := TwoBelow(c, rank, listed, x, k);
    UncalledIsUnstored(DExec(c, listed, start), k.info.service);
    UncalledIsUnstored(DExec(c, listed, start), y);
    ListLacksOnlyServed(c, listed, start, k);
    DReachable(c, listed, start);
    early := ReadsBefore(c, listed, start, j, {}, k);
    SameStored(c, DExec(c, listed, start), j);
  }

  /** Then everybody runs but this callback and `y` ... */
  lemma RunBetween(c: Config, rank: map<Name, nat>, listed: seq<Snapshot>, early: seq<DMove>, x: Name, y: Name, i: nat, j: nat, k: Snapshot)
    returns (moves: seq<DMove>)
    requires WellFormed(c) && Ranks(c.awaits, rank) && DFeasible(c, listed, early) && i != j
    requires var d := DExec(c, listed, early);
      Holding(d, j, x, k) && i < |d.base.tasks| && d.base.tasks[i].node == Some(x) && y !in StoredNames(d)
    ensures DFeasible(c, listed, moves)
    ensures var d := DExec(c, listed, moves);
      && Holding(d, j, x, k) && OnlyStays(d.base, {y}, {j}) && Covered(d.base, {j}) && y !in StoredNames(d)
      && Inv(c, d.base) && Tracked(d)
  {
    hide Inv;
    hide Tracked;
    moves := Drive(c, rank, listed, early, {y}, {j}, k);
    BaseInv(c, listed, moves);
    CompanionStays(DExec(c, listed, early).base, DExec(c, listed, moves).base, i, j);
  }

  /** ... which is about to be given the list. */
  lemma HoldBelow(c: Config, rank: map<Name, nat>, listed: seq<Snapshot>, early: seq<DMove>, x: Name, y: Name, i: nat, j: nat, k: Snapshot)
    returns (moves: seq<DMove>, t: nat)
    requires WellFormed(c) && Ranks(c.awaits, rank) && DFeasible(c, listed, early) && i != j
    requires y in c.awaits && x != y && !Reaches(c.awaits, y, y)
    requires var d := DExec(c, listed, early);
      Holding(d, j, x, k) && i < |d.base.tasks| && d.base.tasks[i].node == Some(x) && y !in StoredNames(d)
    ensures DFeasible(c, listed, moves)
    ensures var d := DExec(c, listed, moves);
      Holding(d, j, x, k) && InCallback(d.base, t) && t !in d.parts && t != j && d.base.tasks[t].node == Some(y)
  {
    hide Inv;
    hide Tracked;
    hide Covered;
    hide DFeasible;
    hide DExec;
    moves := RunBetween(c, rank, listed, early, x, y, i, j, k);
    OnlyItself(c.awaits, y);
    FrozenIsInvoked(c, rank, DExec(c, listed, moves).base, {y}, {j}, y);
    t := StillToBeCalled(DExec(c, listed, moves), {y}, {j}, y);
  }

  lemma OnlyItself(r: Relation, y: Name)
    requires !Reaches(r, y, y)
    ensures forall f :: f in {y} ==> !Reaches(r, y, f)
  {
  }

  lemma SameStored(c: Config, x: DState, j: nat)
    requires DEnabled(c, x, Read(j))
    ensures StoredNames(DApply(c, x, Read(j))) == StoredNames(x)
  {
  }

  lemma CompanionStays(s: State, s': State, i: nat, j: nat)
    requires i < |s.tasks| && j < |s.tasks| && i != j && s.tasks[i].node == s.tasks[j].node && Continues(s, s')
    ensures Covered(s', {j})
  {
    assert i !in {j} && s'.tasks[i].node == s'.tasks[j].node;
  }

  /** It stores; `y` reads what it stored and is held in turn. */
  lemma PassOn(c: Config, listed: seq<Snapshot>, moves: seq<DMove>, x: Name, j: nat, t: nat, y: Name, k: Snapshot) returns (moves': seq<DMove>)
    requires WellFormed(c) && DFeasible(c, listed, moves)
    requires var d := DExec(c, listed, moves);
      && Holding(d, j, x, k) && y != k.info.service
      && InCallback(d.base, t) && t !in d.parts && t !in d.stored && t != j && d.base.tasks[t].node == Some(y)
    ensures DFeasible(c, listed, moves') && Holding(DExec(c, listed, moves'), t, y, k)
  {
    var d := DExec(c, listed, moves);
    DExtend(c, listed, moves, Store(j));
    var d1 := DApply(c, d, Store(j));
    WithoutMembers(d1.shared, {y}, k);
    DExtend(c, listed, moves + [Store(j)], Read(t));
    var d2 := DApply(c, d1, Read(t));
    DExtend(c, listed, moves + [Store(j)] + [Read(t)], Base(Succeed(j)));
    moves' := moves + [Store(j)] + [Read(t)] + [Base(Succeed(j))];
    var d3 := DApply(c, d2, Base(Succeed(j)));
    assert forall i :: 0 <= i < |d.base.tasks| && i != j ==> d3.base.tasks[i] == d.base.tasks[i];
    assert |d3.base.tasks| == |d.base.tasks|;
  }

  /**
   * A service that is awaited and awaits, not necessarily directly, one awaiting two others: some failure-free
   * schedule comes to rest with its container in the list, although a callback has taken it out.
   */
  lemma EnclosedIsPutBack(c: Config, rank: map<Name, nat>, listed: seq<Snapshot>, k: Snapshot) returns (moves: seq<DMove>)
    requires WellFormed(c) && Ranks(c.awaits, rank) && k in listed && k.info.service in c.awaits && Enclosed(c, k.info.service)
    ensures DFeasible(c, listed, moves)
    ensures Quiescent(DExec(c, listed, moves).base) && !SomeFailed(DExec(c, listed, moves).base)
    ensures k in DExec(c, listed, moves).shared && k in DExec(c, listed, moves).handed
  {
    var w := k.info.service;
    var y :| y in c.awaits && w in c.awaits[y];
    var x :| x in c.awaits && Reaches(c.awaits, w, x) && |c.awaits[x]| > 1;
    ThreeLevels(c, rank, x, w, y);
    var early, i, j := ReadBelow(c, rank, listed, x, y, k);
    var below, t := HoldBelow(c, rank, listed, early, x, y, i, j, k);
    DReachable(c, listed, below);
    var above := PassOn(c, listed, below, x, j, t, y, k);
    var late := HoldOnly(c, rank, listed, above, t, y, k);
    moves := StoreLate(c, rank, listed, late, t, y, k);
    NothingIsForgotten(c, rank, listed, moves, k);
  }

  // ---------- services below which nothing repeats ----------

  /** Once a callback of the service has stored, no list anybody has or will store holds `k`. */
  ghost predicate TakenForGood(x: DState, k: Snapshot) {
    && (forall i :: i in x.parts && i < |x.base.tasks| && x.base.tasks[i].node == Some(k.info.service) ==> k !in x.parts[i].others)
    && (k.info.service in StoredNames(x) ==> k !in x.shared && forall i: nat :: Open(x, i) ==> k !in x.parts[i].others)
  }

  /** When the first callback of a service stores nobody else is between reading and storing. */
  ghost predicate StoresAlone(x: DState, i: nat, w: Name) {
    i < |x.base.tasks| && x.base.tasks[i].node == Some(w) && w !in StoredNames(x) ==>
      forall j: nat :: Open(x, j) && j < |x.base.tasks| ==> x.base.tasks[j].node == Some(w)
  }

  lemma TakenStep(c: Config, x: DState, m: DMove, k: Snapshot)
    requires DEnabled(c, x, m) && Tracked(x) && TakenForGood(x, k)
    requires m.Store? ==> StoresAlone(x, m.i, k.info.service)
    ensures TakenForGood(DApply(c, x, m), k)
  {
    var x' := DApply(c, x, m);
    match m {
      case Read(i) =>
        WithoutMembers(x.shared, {x.base.tasks[i].node.value}, k);
        SameStored(c, x, i);
      case Store(i) =>
        StoreNames(c, x, i);
        forall j: nat | Open(x', j)
          ensures Open(x, j)
        {
        }
      case Base(b) =>
        SameNames(c, x, b);
        forall j: nat | Open(x', j)
          ensures Open(x, j)
        {
        }
    }
  }

  /** Below `w` every service is called once at most, and whoever is above is called after `w` has stored. */
  lemma NobodyElseIsOpen(c: Config, listed: seq<Snapshot>, moves: seq<DMove>, i: nat, j: nat, w: Name)
    requires WellFormed(c) && DFeasible(c, listed, moves) && (forall u :: u in c.awaits ==> Comparable(c.awaits, u, w))
    requires forall u :: u in c.awaits && Reaches(c.awaits, w, u) ==> |c.awaits[u]| <= 1
    requires var x := DExec(c, listed, moves);
      InCallback(x.base, i) && x.base.tasks[i].node == Some(w) && w !in StoredNames(x) && InCallback(x.base, j)
    ensures DExec(c, listed, moves).base.tasks[j].node == Some(w)
  {
    var base := Projects(c, listed, moves);
    BaseInv(c, listed, moves);
    var x := DExec(c, listed, moves);
    assert TaskOk(c, x.base, x.base.tasks[j]);
    var u := x.base.tasks[j].node.value;
    if Reaches(c.awaits, w, u) {
      BelowHasReturned(c, base, w, u, i, j);
    } else if Reaches(c.awaits, u, w) {
      AboveComesLater(c, base, x, u, w, j);
    }
  }

  lemma BelowHasReturned(c: Config, base: seq<Move>, w: Name, u: Name, i: nat, j: nat)
    requires WellFormed(c) && Feasible(c, base) && Reaches(c.awaits, w, u) && u in c.awaits
    requires forall v :: v in c.awaits && Reaches(c.awaits, w, v) ==> |c.awaits[v]| <= 1
    requires i < |Exec(c, base).tasks| && Exec(c, base).tasks[i].node == Some(w)
    requires j < |Exec(c, base).tasks| && Exec(c, base).tasks[j].node == Some(u)
    ensures Exec(c, base).tasks[j].phase != Calling
  {
    var s := Exec(c, base);
    NotBelowRepeats(c, w, u);
    UnrepeatedIsSingle(c, base, u);
    var p :| Walk(c.awaits, p) && |p| >= 2 && p[0] == w && p[|p| - 1] == u;
    assert Invoked(s, p[0]);
    InvokedNeedsAll(c, base, p);
    var n :| 0 <= n < |s.tasks| && s.tasks[n].node == Some(u) && (Done(s.tasks[n].phase) || s.tasks[n].phase == Succeeded);
    OneCall(s, u, n, j);
  }

  lemma OneCall(s: State, u: Name, n: nat, j: nat)
    requires !CalledTwice(s, u) && n < |s.tasks| && j < |s.tasks| && s.tasks[n].node == Some(u) && s.tasks[j].node == Some(u)
    ensures n == j
  {
    assert !(n < j) && !(j < n);
  }

  lemma NotBelowRepeats(c: Config, w: Name, u: Name)
    requires WellFormed(c) && u in c.awaits && Reaches(c.awaits, w, u)
    requires forall v :: v in c.awaits && Reaches(c.awaits, w, v) ==> |c.awaits[v]| <= 1
    ensures !MayRepeat(c, u)
  {
    forall v | v in c.awaits && Reaches(c.awaits, u, v)
      ensures |c.awaits[v]| <= 1
    {
      ReachesOn(c.awaits, w, u, v);
    }
  }

  lemma ReachesOn(r: Relation, w: Name, u: Name, v: Name)
    requires Reaches(r, w, u) && Reaches(r, u, v)
    ensures Reaches(r, w, v)
  {
    var p :| Walk(r, p) && |p| >= 2 && p[0] == w && p[|p| - 1] == u;
    var q :| Walk(r, q) && |q| >= 2 && q[0] == u && q[|q| - 1] == v;
    var both := p + q[1..];
    forall i | 0 <= i < |both| - 1
      ensures both[i] in r && both[i + 1] in r[both[i]]
    {
      if i >= |p| - 1 {
        assert both[i] == q[i - |p| + 1] && both[i + 1] == q[i - |p| + 2];
      }
    }
    assert Walk(r, both) && both[0] == w && both[|both| - 1] == v;
  }

  lemma AboveComesLater(c: Config, base: seq<Move>, x: DState, u: Name, w: Name, j: nat)
    requires WellFormed(c) && Feasible(c, base) && Exec(c, base) == x.base && Tracked(x) && Reaches(c.awaits, u, w)
    requires j < |x.base.tasks| && x.base.tasks[j].node == Some(u)
    ensures w in StoredNames(x)
  {
    var p :| Walk(c.awaits, p) && |p| >= 2 && p[0] == u && p[|p| - 1] == w;
    assert Invoked(x.base, p[0]);
    InvokedNeedsAll(c, base, p);
    var n :| 0 <= n < |x.base.tasks| && x.base.tasks[n].node == Some(w) && (Done(x.base.tasks[n].phase) || x.base.tasks[n].phase == Succeeded);
    assert n in x.stored;
  }

  lemma {:induction false} TakenReachable(c: Config, listed: seq<Snapshot>, moves: seq<DMove>, k: Snapshot)
    requires WellFormed(c) && DFeasible(c, listed, moves)
    requires forall u :: u in c.awaits ==> Comparable(c.awaits, u, k.info.service)
    requires forall u :: u in c.awaits && Reaches(c.awaits, k.info.service, u) ==> |c.awaits[u]| <= 1
    ensures TakenForGood(DExec(c, listed, moves), k)
    decreases |moves|
  {
    if moves == [] {
      assert StoredNames(DInit(c, listed)) == {};
    } else {
      var before, m := moves[..|moves| - 1], moves[|moves| - 1];
      TakenReachable(c, listed, before, k);
      BaseInv(c, listed, before);
      var x := DExec(c, listed, before);
      if m.Store? {
        forall j: nat | Open(x, j) && x.base.tasks[m.i].node == Some(k.info.service) && k.info.service !in StoredNames(x)
          ensures x.base.tasks[j].node == Some(k.info.service)
        {
          assert InCallback(x.base, j);
          NobodyElseIsOpen(c, listed, before, m.i, j, k.info.service);
        }
      }
      TakenStep(c, x, m, k);
    }
  }

  // ---------- a service nobody awaits ----------

  /** A goroutine that will store a list without `w`, or lead to one that does. */
  predicate Leads(x: DState, i: nat, w: Name) {
    i < |x.base.tasks| &&
    var t := x.base.tasks[i];
    if t.node == Some(w) then t.phase == Calling && i !in x.stored
    else t.phase == Calling || t.phase == Succeeded || (t.phase.Expanding? && t.phase.todo != {})
  }

  ghost predicate Upcoming(x: DState, w: Name) {
    exists i: nat :: Leads(x, i, w)
  }

  /** While the list holds `k` a callback of its service is still to store. */
  ghost predicate StillToTake(x: DState, k: Snapshot) {
    && (forall i :: i in x.parts && i < |x.base.tasks| && x.base.tasks[i].node == Some(k.info.service) ==> k !in x.parts[i].others)
    && (k in x.shared ==> Upcoming(x, k.info.service))
  }

  /** Everything is below `w`, and nothing awaits it. */
  ghost predicate Topmost(c: Config, w: Name) {
    w in c.awaits && (forall u :: u in c.awaits ==> w !in c.awaits[u]) && forall u :: u in c.awaits && u != w ==> Reaches(c.awaits, w, u)
  }

  lemma TopmostTriggers(c: Config, w: Name, u: Name)
    requires WellFormed(c) && Topmost(c, w) && u in c.awaits
    ensures u == w ==> c.triggers[u] == {}
    ensures u != w ==> c.triggers[u] != {}
  {
    if u != w {
      var p :| Walk(c.awaits, p) && |p| >= 2 && p[0] == w && p[|p| - 1] == u;
      var z := p[|p| - 2];
      assert u in c.awaits[z] && z in c.awaits;
      assert z in c.triggers[u];
    } else {
      forall z
        ensures z !in c.triggers[w]
      {
        assert z in c.awaits ==> w !in c.awaits[z];
      }
    }
  }

  /** As long as some vertex but `w` is unfinished, somebody will lead to `w`. */
  lemma {:induction false} UnfinishedLeads(c: Config, rank: map<Name, nat>, x: DState, w: Name, a: Name)
    requires WellFormed(c) && Ranks(c.awaits, rank) && Inv(c, x.base) && !SomeFailed(x.base) && Topmost(c, w)
    requires a in c.awaits && a != w && a in x.base.status && x.base.status[a] == c.skip
    ensures Upcoming(x, w)
    decreases rank[a]
  {
    var s := x.base;
    if Unfinished(c, s, a) != {} {
      var b :| b in Unfinished(c, s, a);
      UnfinishedLeads(c, rank, x, w, b);
    } else if Invoked(s, a) {
      var i :| 0 <= i < |s.tasks| && s.tasks[i].node == Some(a);
      assert !Traversal.Finished(s, a);
      assert Leads(x, i, w);
    } else {
      var i :| 0 <= i < |s.tasks| && s.tasks[i].phase.Expanding? && a in s.tasks[i].phase.todo;
      assert TaskOk(c, s, s.tasks[i]);
      TopmostTriggers(c, w, if s.tasks[i].node.Some? then s.tasks[i].node.value else w);
      assert Leads(x, i, w);
    }
  }

  lemma OthersLead(c: Config, x: DState, b: Move, w: Name, i: nat)
    requires DEnabled(c, x, Base(b)) && Leads(x, i, w) && b.i != i
    ensures Upcoming(DApply(c, x, Base(b)), w)
  {
    assert Leads(DApply(c, x, Base(b)), i, w);
  }

  lemma SuccessLeads(c: Config, x: DState, b: Move, w: Name)
    requires DEnabled(c, x, Base(b)) && Leads(x, b.i, w) && b.Succeed?
    ensures Upcoming(DApply(c, x, Base(b)), w)
  {
    assert Leads(DApply(c, x, Base(b)), b.i, w);
  }

  lemma UpdateLeads(c: Config, x: DState, b: Move, w: Name)
    requires WellFormed(c) && Inv(c, x.base) && Topmost(c, w) && DEnabled(c, x, Base(b)) && Leads(x, b.i, w) && b.Update?
    ensures Upcoming(DApply(c, x, Base(b)), w)
  {
    assert TaskOk(c, x.base, x.base.tasks[b.i]);
    TopmostTriggers(c, w, x.base.tasks[b.i].node.value);
    assert Leads(DApply(c, x, Base(b)), b.i, w);
  }

  /** A step of the traversal keeps somebody who leads to `w`. */
  lemma LeadsOn(c: Config, rank: map<Name, nat>, x: DState, b: Move, w: Name)
    requires WellFormed(c) && Ranks(c.awaits, rank) && Inv(c, x.base) && Tracked(x) && Topmost(c, w)
    requires DEnabled(c, x, Base(b)) && !SomeFailed(Apply(c, x.base, b)) && Upcoming(x, w)
    ensures Upcoming(DApply(c, x, Base(b)), w)
  {
    hide Inv;
    hide Tracked;
    hide Topmost;
    hide Ranks;
    var i: nat :| Leads(x, i, w);
    StaysFailed(c, x.base, b);
    if b.i != i {
      OthersLead(c, x, b, w, i);
    } else {
      match b {
        case Succeed(_) => SuccessLeads(c, x, b, w);
        case Update(_) => UpdateLeads(c, x, b, w);
        case Check(_, _) => CheckLeadsOn(c, rank, x, b, w);
        case _ =>
      }
    }
  }

  lemma CheckLeadsOn(c: Config, rank: map<Name, nat>, x: DState, b: Move, w: Name)
    requires WellFormed(c) && Ranks(c.awaits, rank) && Inv(c, x.base) && Tracked(x) && Topmost(c, w)
    requires DEnabled(c, x, Base(b)) && !SomeFailed(Apply(c, x.base, b)) && b.Check?
    ensures Upcoming(DApply(c, x, Base(b)), w)
  {
    var x' := DApply(c, x, Base(b));
    if Unfinished(c, x.base, b.v) == {} {
      var n := |x.base.tasks|;
      assert x'.base.tasks[n] == Task(Some(b.v), Calling) && n !in x'.stored;
      assert Leads(x', n, w);
    } else {
      var a :| a in Unfinished(c, x.base, b.v);
      StepInv(c, x.base, b);
      UnfinishedLeads(c, rank, x', w, a);
    }
  }

  lemma ReadToTake(c: Config, x: DState, i: nat, k: Snapshot)
    requires DEnabled(c, x, Read(i)) && Tracked(x) && StillToTake(x, k)
    ensures StillToTake(DApply(c, x, Read(i)), k)
  {
    var x' := DApply(c, x, Read(i));
    WithoutMembers(x.shared, {x.base.tasks[i].node.value}, k);
    if k in x.shared {
      var j: nat :| Leads(x, j, k.info.service);
      assert Leads(x', j, k.info.service);
    }
  }

  lemma StoreToTake(c: Config, x: DState, i: nat, k: Snapshot)
    requires DEnabled(c, x, Store(i)) && StillToTake(x, k)
    ensures StillToTake(DApply(c, x, Store(i)), k)
  {
    if x.base.tasks[i].node != Some(k.info.service) {
      assert Leads(DApply(c, x, Store(i)), i, k.info.service);
    }
  }

  lemma ToTakeStep(c: Config, rank: map<Name, nat>, x: DState, m: DMove, k: Snapshot)
    requires WellFormed(c) && Ranks(c.awaits, rank) && Inv(c, x.base) && Tracked(x) && Topmost(c, k.info.service)
    requires DEnabled(c, x, m) && !SomeFailed(DApply(c, x, m).base) && StillToTake(x, k)
    ensures StillToTake(DApply(c, x, m), k)
  {
    match m {
      case Read(i) => ReadToTake(c, x, i, k);
      case Store(i) => StoreToTake(c, x, i, k);
      case Base(b) =>
        hide Inv;
        hide Topmost;
        hide Ranks;
        hide Upcoming;
        BaseKeepsParts(c, x, b);
        if k in x.shared {
          LeadsOn(c, rank, x, b, k.info.service);
        }
    }
  }

  lemma BaseKeepsParts(c: Config, x: DState, b: Move)
    requires DEnabled(c, x, Base(b)) && Tracked(x)
    ensures var x' := DApply(c, x, Base(b));
      && x'.shared == x.shared && x'.parts == x.parts
      && forall i :: i in x.parts ==> i < |x.base.tasks| && i < |x'.base.tasks| && x'.base.tasks[i].node == x.base.tasks[i].node
  {
  }

  lemma StartLeads(c: Config, rank: map<Name, nat>, listed: seq<Snapshot>, w: Name)
    requires WellFormed(c) && Ranks(c.awaits, rank) && w in c.awaits
    ensures Upcoming(DInit(c, listed), w)
  {
    var v := SomeExtremity(c, rank, w);
    assert Leads(DInit(c, listed), 0, w);
  }

  lemma {:induction false} SomeExtremity(c: Config, rank: map<Name, nat>, w: Name) returns (v: Name)
    requires WellFormed(c) && Ranks(c.awaits, rank) && w in c.awaits
    ensures v in Extremities(c)
    decreases rank[w]
  {
    if c.awaits[w] == {} {
      v := w;
    } else {
      var u :| u in c.awaits[w];
      v := SomeExtremity(c, rank, u);
    }
  }

  lemma DStaysFailed(c: Config, x: DState, m: DMove)
    requires DEnabled(c, x, m)
    ensures SomeFailed(x.base) ==> SomeFailed(DApply(c, x, m).base)
  {
    if m.Base? {
      StaysFailed(c, x.base, m.m);
    }
  }

  lemma {:induction false} ToTakeReachable(c: Config, rank: map<Name, nat>, listed: seq<Snapshot>, moves: seq<DMove>, k: Snapshot)
    requires WellFormed(c) && Ranks(c.awaits, rank) && Topmost(c, k.info.service)
    requires DFeasible(c, listed, moves) && !SomeFailed(DExec(c, listed, moves).base)
    ensures StillToTake(DExec(c, listed, moves), k)
    decreases |moves|
  {
    if moves == [] {
      StartLeads(c, rank, listed, k.info.service);
    } else {
      var before, m := moves[..|moves| - 1], moves[|moves| - 1];
      DStaysFailed(c, DExec(c, listed, before), m);
      ToTakeReachable(c, rank, listed, before, k);
      BaseInv(c, listed, before);
      ToTakeStep(c, rank, DExec(c, listed, before), m, k);
    }
  }

  // ---------- exactly when the orphans remain ----------

  /**
   * Every service of the project with a listed container is ordered with all others, and nobody awaits it or
   * nothing below it awaits two others.
   */
  ghost predicate Safe(c: Config, listed: seq<Snapshot>) {
    forall k :: k in listed && k.info.service in c.awaits ==> SafeService(c, k.info.service)
  }

  ghost predicate SafeService(c: Config, w: Name) {
    (forall u :: u in c.awaits ==> Comparable(c.awaits, u, w)) && !Enclosed(c, w)
  }

  /** Whatever the callbacks did, an error-free run that has come to rest leaves exactly the orphans. */
  ghost predicate AlwaysLeavesTheOrphans(c: Config, listed: seq<Snapshot>) {
    forall moves :: DFeasible(c, listed, moves) && Quiescent(DExec(c, listed, moves).base) && !SomeFailed(DExec(c, listed, moves).base)
      ==> DExec(c, listed, moves).shared == Without(listed, c.awaits.Keys)
  }

  lemma OrderedAndUnawaited(c: Config, w: Name)
    requires WellFormed(c) && w in c.awaits && (forall u :: u in c.awaits ==> Comparable(c.awaits, u, w))
    requires forall y :: y in c.awaits ==> w !in c.awaits[y]
    ensures Topmost(c, w)
  {
    forall u | u in c.awaits && u != w
      ensures Reaches(c.awaits, w, u)
    {
      Unreached(c.awaits, u, w);
    }
  }

  lemma Unreached(r: Relation, u: Name, w: Name)
    requires forall y :: y in r ==> w !in r[y]
    ensures !Reaches(r, u, w)
  {
    forall p | Walk(r, p) && |p| >= 2
      ensures p[|p| - 1] != w
    {
      assert p[|p| - 1] in r[p[|p| - 2]];
    }
  }

  /** A container of such a service is not in the list at rest. */
  lemma SafeIsGone(c: Config, rank: map<Name, nat>, listed: seq<Snapshot>, moves: seq<DMove>, k: Snapshot)
    requires WellFormed(c) && Ranks(c.awaits, rank) && DFeasible(c, listed, moves) && k.info.service in c.awaits && SafeService(c, k.info.service)
    requires Quiescent(DExec(c, listed, moves).base) && !SomeFailed(DExec(c, listed, moves).base)
    ensures k !in DExec(c, listed, moves).shared
  {
    var x, w := DExec(c, listed, moves), k.info.service;
    if forall y :: y in c.awaits ==> w !in c.awaits[y] {
      OrderedAndUnawaited(c, w);
      ToTakeReachable(c, rank, listed, moves, k);
      assert !Upcoming(x, w);
    } else {
      TakenReachable(c, listed, moves, k);
      EveryServiceIsServed(c, rank, listed, moves, w);
    }
  }

  lemma {:induction false} SameRemainder(listed: seq<Snapshot>, gone: set<Name>, all: set<Name>)
    requires gone <= all && forall k :: k in Without(listed, gone) ==> k.info.service !in all
    ensures Without(listed, gone) == Without(listed, all)
  {
    if listed != [] {
      var n := |listed| - 1;
      forall k | k in Without(listed[..n], gone)
        ensures k.info.service !in all
      {
        assert k in Without(listed, gone);
      }
      SameRemainder(listed[..n], gone, all);
      if listed[n].info.service !in gone {
        assert listed[n] in Without(listed, gone);
      }
    }
  }

  lemma SafeLeavesTheOrphans(c: Config, rank: map<Name, nat>, listed: seq<Snapshot>, moves: seq<DMove>)
    requires WellFormed(c) && Ranks(c.awaits, rank) && Safe(c, listed) && DFeasible(c, listed, moves)
    requires Quiescent(DExec(c, listed, moves).base) && !SomeFailed(DExec(c, listed, moves).base)
    ensures DExec(c, listed, moves).shared == Without(listed, c.awaits.Keys)
  {
    var x := DExec(c, listed, moves);
    DReachable(c, listed, moves);
    StoredAreServices(c, listed, moves);
    var gone :| gone <= StoredNames(x) && x.shared == Without(listed, gone);
    forall k | k in x.shared
      ensures k.info.service !in c.awaits.Keys
    {
      WithoutMembers(listed, gone, k);
      if k.info.service in c.awaits {
        SafeIsGone(c, rank, listed, moves, k);
      }
    }
    SameRemainder(listed, gone, c.awaits.Keys);
  }

  /**
   * Every error-free run that has come to rest leaves exactly the orphans iff every service with a listed
   * container is ordered with all others, and nobody awaits it or nothing below it awaits two others.
   */
  lemma OrphansRemainIffSafe(c: Config, rank: map<Name, nat>, listed: seq<Snapshot>)
    requires WellFormed(c) && Ranks(c.awaits, rank)
    ensures AlwaysLeavesTheOrphans(c, listed) <==> Safe(c, listed)
  {
    if Safe(c, listed) {
      forall moves | DFeasible(c, listed, moves) && Quiescent(DExec(c, listed, moves).base) && !SomeFailed(DExec(c, listed, moves).base)
        ensures DExec(c, listed, moves).shared == Without(listed, c.awaits.Keys)
      {
        SafeLeavesTheOrphans(c, rank, listed, moves);
      }
    } else {
      var k :| k in listed && k.info.service in c.awaits && !SafeService(c, k.info.service);
      var moves := UnsafeIsPutBack(c, rank, listed, k);
      WithoutMembers(listed, c.awaits.Keys, k);
      assert DExec(c, listed, moves).shared != Without(listed, c.awaits.Keys);
    }
  }

  lemma UnsafeIsPutBack(c: Config, rank: map<Name, nat>, listed: seq<Snapshot>, k: Snapshot) returns (moves: seq<DMove>)
    requires WellFormed(c) && Ranks(c.awaits, rank) && k in listed && k.info.service in c.awaits && !SafeService(c, k.info.service)
    ensures DFeasible(c, listed, moves)
    ensures Quiescent(DExec(c, listed, moves).base) && !SomeFailed(DExec(c, listed, moves).base)
    ensures k in DExec(c, listed, moves).shared && k in DExec(c, listed, moves).handed
  {
    if Enclosed(c, k.info.service) {
      moves := EnclosedIsPutBack(c, rank, listed, k);
    } else {
      var u :| u in c.awaits && !Comparable(c.awaits, u, k.info.service);
      moves := IndependentIsPutBack(c, rank, listed, u, k);
    }
  }
}
