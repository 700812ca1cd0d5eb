/** When the callbacks of `Stop` and `Down` are given each container once, however they overlap. */
module HandedOnce {
  import opened Wrappers
  import opened Digraph
  import opened Traversal
  import opened ExactlyOnce
  import opened ContainerEngine
  import opened Teardown
  import opened Overlap

  /** Some callback of the service has read the list. */
  ghost predicate HasRead(x: DState, v: Name) {
    exists i :: i in x.parts && i < |x.base.tasks| && x.base.tasks[i].node == Some(v)
  }

  lemma OfCount(list: seq<Snapshot>, names: set<Name>, k: Snapshot)
    ensures multiset(Of(list, names))[k] == if k.info.service in names then multiset(list)[k] else 0
  {
    PartsAddUp(list, names);
    WithoutMembers(list, names, k);
    assert multiset(list)[k] == multiset(Of(list, names))[k] + multiset(Without(list, names))[k];
  }

  // ---------- a service called once at most ----------

  /** `k` has been given to the callback of its service as often as it is listed, if that one has read at all. */
  ghost predicate HandedAsListed(listed: seq<Snapshot>, x: DState, k: Snapshot) {
    x.handed[k] == if HasRead(x, k.info.service) then multiset(listed)[k] else 0
  }

  lemma FirstToRead(c: Config, listed: seq<Snapshot>, moves: seq<DMove>, i: nat)
    requires WellFormed(c) && DFeasible(c, listed, moves) && DEnabled(c, DExec(c, listed, moves), Read(i))
    requires !MayRepeat(c, DExec(c, listed, moves).base.tasks[i].node.value)
    ensures !HasRead(DExec(c, listed, moves), DExec(c, listed, moves).base.tasks[i].node.value)
    ensures DExec(c, listed, moves).base.tasks[i].node.value in c.awaits
  {
    var x := DExec(c, listed, moves);
    var v := x.base.tasks[i].node.value;
    BaseInv(c, listed, moves);
    assert TaskOk(c, x.base, x.base.tasks[i]);
    var base := Projects(c, listed, moves);
    UnrepeatedIsSingle(c, base, v);
    OnlyCall(x.base, v, i);
  }

  lemma OnlyCall(s: State, v: Name, i: nat)
    requires !CalledTwice(s, v) && i < |s.tasks| && s.tasks[i].node == Some(v)
    ensures forall j: nat :: j < |s.tasks| && s.tasks[j].node == Some(v) ==> j == i
  {
    forall j: nat | j < |s.tasks| && s.tasks[j].node == Some(v)
      ensures j == i
    {
      OneCall(s, v, i, j);
    }
  }

  lemma UnreadIsUnstored(x: DState, v: Name)
    requires Tracked(x) && !HasRead(x, v)
    ensures v !in StoredNames(x)
  {
  }

  lemma ReadHandsOut(c: Config, listed: seq<Snapshot>, moves: seq<DMove>, i: nat, k: Snapshot)
    requires WellFormed(c) && DFeasible(c, listed, moves) && DEnabled(c, DExec(c, listed, moves), Read(i))
    requires !MayRepeat(c, k.info.service) && HandedAsListed(listed, DExec(c, listed, moves), k)
    ensures HandedAsListed(listed, DApply(c, DExec(c, listed, moves), Read(i)), k)
  {
    var x := DExec(c, listed, moves);
    var x', v := DApply(c, x, Read(i)), x.base.tasks[i].node.value;
    ReadsOnly(c, x, i);
    if v == k.info.service {
      FirstToRead(c, listed, moves, i);
      DReachable(c, listed, moves);
      UnreadIsUnstored(x, v);
      FirstCallbackGetsAll(c, listed, moves, i);
      OfCount(listed, {v}, k);
    } else {
      OfCount(x.shared, {v}, k);
    }
  }

  lemma ReadsOnly(c: Config, x: DState, i: nat)
    requires DEnabled(c, x, Read(i))
    ensures forall v :: HasRead(DApply(c, x, Read(i)), v) <==> HasRead(x, v) || x.base.tasks[i].node == Some(v)
  {
    var x' := DApply(c, x, Read(i));
    forall v | HasRead(x, v)
      ensures HasRead(x', v)
    {
      var j :| j in x.parts && j < |x.base.tasks| && x.base.tasks[j].node == Some(v);
      assert j in x'.parts;
    }
    assert i in x'.parts;
  }

  lemma OtherwiseAsBefore(c: Config, x: DState, m: DMove, v: Name)
    requires DEnabled(c, x, m) && !m.Read? && Tracked(x)
    ensures DApply(c, x, m).handed == x.handed && (HasRead(DApply(c, x, m), v) <==> HasRead(x, v))
  {
    var x' := DApply(c, x, m);
    assert x'.parts == x.parts;
    assert forall j :: j in x.parts ==> j < |x.base.tasks| && j < |x'.base.tasks| && x'.base.tasks[j].node == x.base.tasks[j].node;
  }

  lemma {:induction false} HandedReachable(c: Config, listed: seq<Snapshot>, moves: seq<DMove>, k: Snapshot)
    requires WellFormed(c) && DFeasible(c, listed, moves) && !MayRepeat(c, k.info.service)
    ensures HandedAsListed(listed, DExec(c, listed, moves), k)
    decreases |moves|
  {
    if moves != [] {
      var before, m := moves[..|moves| - 1], moves[|moves| - 1];
      HandedReachable(c, listed, before, k);
      if m.Read? {
        ReadHandsOut(c, listed, before, m.i, k);
      } else {
        BaseInv(c, listed, before);
        OtherwiseAsBefore(c, DExec(c, listed, before), m, k.info.service);
      }
    }
  }

  /** Nothing is handed out that was not listed. */
  lemma {:induction false} OnlyListed(c: Config, listed: seq<Snapshot>, moves: seq<DMove>, k: Snapshot)
    requires WellFormed(c) && DFeasible(c, listed, moves) && k !in listed
    ensures k !in DExec(c, listed, moves).handed
    decreases |moves|
  {
    if moves != [] {
      var before, m := moves[..|moves| - 1], moves[|moves| - 1];
      OnlyListed(c, listed, before, k);
      if m.Read? {
        var x := DExec(c, listed, before);
        ListLacksOnlyServed(c, listed, before, k);
        OfCount(x.shared, {x.base.tasks[m.i].node.value}, k);
      }
    }
  }

  // ---------- a service that may be called twice ----------

  /** Two callbacks of a service that both read before either stores are both given its containers. */
  lemma BothRead(c: Config, listed: seq<Snapshot>, moves: seq<DMove>, i: nat, j: nat, k: Snapshot) returns (moves': seq<DMove>)
    requires WellFormed(c) && DFeasible(c, listed, moves) && Calm(DExec(c, listed, moves), {}) && i != j
    requires var x := DExec(c, listed, moves);
      && InCallback(x.base, i) && InCallback(x.base, j) && i !in x.parts && j !in x.parts
      && x.base.tasks[i].node == Some(k.info.service) && x.base.tasks[j].node == Some(k.info.service)
      && k.info.service !in StoredNames(x)
    ensures DFeasible(c, listed, moves') && Calm(DExec(c, listed, moves'), {i, j})
    ensures DExec(c, listed, moves').handed[k] >= 2 * multiset(listed)[k]
  {
    var x, w := DExec(c, listed, moves), k.info.service;
    BaseInv(c, listed, moves);
    FirstCallbackGetsAll(c, listed, moves, i);
    DExtend(c, listed, moves, Read(i));
    var once := moves + [Read(i)];
    SameStored(c, x, i);
    FirstCallbackGetsAll(c, listed, once, j);
    DExtend(c, listed, once, Read(j));
    moves' := once + [Read(j)];
    OfCount(listed, {w}, k);
  }

  /** A held callback stores and returns. */
  lemma LetGo(c: Config, listed: seq<Snapshot>, moves: seq<DMove>, i: nat, held: set<nat>) returns (moves': seq<DMove>)
    requires DFeasible(c, listed, moves) && Calm(DExec(c, listed, moves), held) && i in held
    ensures DFeasible(c, listed, moves') && Calm(DExec(c, listed, moves'), held - {i})
    ensures DExec(c, listed, moves').handed == DExec(c, listed, moves).handed
  {
    var x := DExec(c, listed, moves);
    DExtend(c, listed, moves, Store(i));
    DExtend(c, listed, moves + [Store(i)], Base(Succeed(i)));
    moves' := moves + [Store(i)] + [Base(Succeed(i))];
    var x' := DExec(c, listed, moves');
    assert |x'.base.tasks| == |x.base.tasks|;
    assert forall j :: 0 <= j < |x.base.tasks| && j != i ==> x'.base.tasks[j] == x.base.tasks[j];
  }

  /**
   * A service that may be called twice: some failure-free schedule comes to rest with its container handed out
   * to two callbacks.
   */
  lemma RepeatedIsHandedTwice(c: Config, rank: map<Name, nat>, listed: seq<Snapshot>, k: Snapshot) returns (moves: seq<DMove>)
    requires WellFormed(c) && Ranks(c.awaits, rank) && MayRepeat(c, k.info.service)
    ensures DFeasible(c, listed, moves)
    ensures Quiescent(DExec(c, listed, moves).base) && !SomeFailed(DExec(c, listed, moves).base)
    ensures DExec(c, listed, moves).handed[k] >= 2 * multiset(listed)[k]
  {
    var start, i, j := BothCalled(c, rank, listed, k);
    var both := BothRead(c, listed, start, i, j, k);
    var one := LetGo(c, listed, both, i, {i, j});
    assert {i, j} - {i} == {j};
    var none := LetGo(c, listed, one, j, {j});
    assert {j} - {j} == {};
    moves := Drive(c, rank, listed, none, {}, {}, k);
    AtRest(DExec(c, listed, moves).base);
  }

  lemma AtRest(s: State)
    requires OnlyStays(s, {}, {})
    ensures Quiescent(s)
  {
  }

  lemma BothCalled(c: Config, rank: map<Name, nat>, listed: seq<Snapshot>, k: Snapshot) returns (moves: seq<DMove>, i: nat, j: nat)
    requires WellFormed(c) && Ranks(c.awaits, rank) && MayRepeat(c, k.info.service)
    ensures DFeasible(c, listed, moves) && Calm(DExec(c, listed, moves), {}) && i != j
    ensures var x := DExec(c, listed, moves);
      && InCallback(x.base, i) && InCallback(x.base, j) && i !in x.parts && j !in x.parts
      && x.base.tasks[i].node == Some(k.info.service) && x.base.tasks[j].node == Some(k.info.service)
      && k.info.service !in StoredNames(x)
  {
    hide Inv;
    hide MayRepeat;
    hide TwiceAtOnce;
    hide Calm;
    hide StoredNames;
    hide Tracked;
    var base := RepeatedCall(c, rank, k.info.service);
    moves := Lift(c, listed, base, k);
    BaseInv(c, listed, moves);
    i, j := NeitherHasRead(DExec(c, listed, moves), k.info.service);
  }

  lemma NeitherHasRead(x: DState, v: Name) returns (i: nat, j: nat)
    requires Calm(x, {}) && Tracked(x) && TwiceAtOnce(x.base, v)
    ensures i != j && InCallback(x.base, i) && InCallback(x.base, j) && i !in x.parts && j !in x.parts
    ensures x.base.tasks[i].node == Some(v) && x.base.tasks[j].node == Some(v) && v !in StoredNames(x)
  {
    i, j :| 0 <= i < j < |x.base.tasks| && x.base.tasks[i].node == Some(v) && x.base.tasks[j].node == Some(v);
  }

  // ---------- exactly when each container is handed out once ----------

  /** Whatever the callbacks did, an error-free run that has come to rest has handed out each service's containers once. */
  ghost predicate AlwaysHandsOutOnce(c: Config, listed: seq<Snapshot>) {
    forall moves :: DFeasible(c, listed, moves) && Quiescent(DExec(c, listed, moves).base) && !SomeFailed(DExec(c, listed, moves).base)
      ==> DExec(c, listed, moves).handed == multiset(Of(listed, c.awaits.Keys))
  }

  lemma UnrepeatedIsHandedOnce(c: Config, rank: map<Name, nat>, listed: seq<Snapshot>, moves: seq<DMove>)
    requires WellFormed(c) && Ranks(c.awaits, rank) && DFeasible(c, listed, moves)
    requires forall k :: k in listed ==> !MayRepeat(c, k.info.service)
    requires Quiescent(DExec(c, listed, moves).base) && !SomeFailed(DExec(c, listed, moves).base)
    ensures DExec(c, listed, moves).handed == multiset(Of(listed, c.awaits.Keys))
  {
    forall k
      ensures DExec(c, listed, moves).handed[k] == multiset(Of(listed, c.awaits.Keys))[k]
    {
      OfCount(listed, c.awaits.Keys, k);
      if k !in listed {
        OnlyListed(c, listed, moves, k);
      } else {
        HandedReachable(c, listed, moves, k);
        ReadIffService(c, rank, listed, moves, k.info.service);
      }
    }
  }

  lemma ReadIffService(c: Config, rank: map<Name, nat>, listed: seq<Snapshot>, moves: seq<DMove>, v: Name)
    requires WellFormed(c) && Ranks(c.awaits, rank) && DFeasible(c, listed, moves)
    requires Quiescent(DExec(c, listed, moves).base) && !SomeFailed(DExec(c, listed, moves).base)
    ensures HasRead(DExec(c, listed, moves), v) <==> v in c.awaits
  {
    var x := DExec(c, listed, moves);
    BaseInv(c, listed, moves);
    if HasRead(x, v) {
      var i :| i in x.parts && i < |x.base.tasks| && x.base.tasks[i].node == Some(v);
      assert TaskOk(c, x.base, x.base.tasks[i]);
    }
    if v in c.awaits {
      EveryServiceIsServed(c, rank, listed, moves, v);
    }
  }

  /**
   * Every error-free run that has come to rest has handed out every container of the project once iff no
   * service with a listed container, and nothing such a service awaits, directly or not, awaits two others.
   */
  lemma HandedOnceIffUnrepeated(c: Config, rank: map<Name, nat>, listed: seq<Snapshot>)
    requires WellFormed(c) && Ranks(c.awaits, rank)
    ensures AlwaysHandsOutOnce(c, listed) <==> forall k :: k in listed ==> !MayRepeat(c, k.info.service)
  {
    if forall k :: k in listed ==> !MayRepeat(c, k.info.service) {
      forall moves | DFeasible(c, listed, moves) && Quiescent(DExec(c, listed, moves).base) && !SomeFailed(DExec(c, listed, moves).base)
        ensures DExec(c, listed, moves).handed == multiset(Of(listed, c.awaits.Keys))
      {
        UnrepeatedIsHandedOnce(c, rank, listed, moves);
      }
    } else {
      var k :| k in listed && MayRepeat(c, k.info.service);
      var moves := RepeatedIsHandedTwice(c, rank, listed, k);
      OfCount(listed, c.awaits.Keys, k);
      assert multiset(listed)[k] > 0;
      assert DExec(c, listed, moves).handed != multiset(Of(listed, c.awaits.Keys));
    }
  }
}
