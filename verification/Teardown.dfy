/**
 * The container list `Stop` and `Down` share between the callbacks of a traversal. A callback splits the
 * list, works on its service's part and stores the rest back; reading and storing are separate steps of
 * the traversal machine, interleaved with everything else.
 */
module Teardown {
  import opened Wrappers
  import opened Sequences
  import opened Digraph
  import opened Traversal
  import opened ContainerEngine

  /** The containers of some services, in order. */
  function Of(list: seq<Snapshot>, names: set<Name>): seq<Snapshot> {
    if list == [] then []
    else
      var n := |list| - 1;
      var rest := Of(list[..n], names);
      if list[n].info.service in names then rest + [list[n]] else rest
  }

  /** The containers of all other services, in order. */
  function Without(list: seq<Snapshot>, names: set<Name>): seq<Snapshot> {
    if list == [] then []
    else
      var n := |list| - 1;
      var rest := Without(list[..n], names);
      if list[n].info.service in names then rest else rest + [list[n]]
  }

  lemma {:induction false} NothingTaken(list: seq<Snapshot>)
    ensures Without(list, {}) == list
  {
    if list != [] {
      NothingTaken(list[..|list| - 1]);
    }
  }

  lemma OfSnoc(list: seq<Snapshot>, x: Snapshot, names: set<Name>)
    ensures Of(list + [x], names) == Of(list, names) + if x.info.service in names then [x] else []
    ensures Without(list + [x], names) == Without(list, names) + if x.info.service in names then [] else [x]
  {
    assert (list + [x])[..|list|] == list;
  }

  lemma {:induction false} WithoutBoth(list: seq<Snapshot>, a: set<Name>, b: set<Name>)
    ensures Without(Without(list, a), b) == Without(list, a + b)
  {
    if list != [] {
      var n := |list| - 1;
      WithoutBoth(list[..n], a, b);
      if list[n].info.service !in a {
        OfSnoc(Without(list[..n], a), list[n], b);
      }
    }
  }

  /** Services already taken out do not matter to the part of another service. */
  lemma {:induction false} OfRest(list: seq<Snapshot>, gone: set<Name>, v: Name)
    ensures Of(Without(list, gone), {v}) == if v in gone then [] else Of(list, {v})
  {
    if list != [] {
      var n := |list| - 1;
      OfRest(list[..n], gone, v);
      if list[n].info.service !in gone {
        OfSnoc(Without(list[..n], gone), list[n], {v});
      }
    }
  }

  /** Splitting loses nothing and duplicates nothing. */
  lemma {:induction false} PartsAddUp(list: seq<Snapshot>, names: set<Name>)
    ensures multiset(Of(list, names)) + multiset(Without(list, names)) == multiset(list)
  {
    if list != [] {
      var n := |list| - 1;
      PartsAddUp(list[..n], names);
      assert list == list[..n] + [list[n]];
    }
  }

  lemma {:induction false} WithoutMembers(list: seq<Snapshot>, names: set<Name>, x: Snapshot)
    ensures x in Without(list, names) <==> x in list && x.info.service !in names
    ensures x in Of(list, names) <==> x in list && x.info.service in names
  {
    if list != [] {
      var n := |list| - 1;
      WithoutMembers(list[..n], names, x);
      assert list == list[..n] + [list[n]];
    }
  }

  lemma {:induction false} OfInOrder(list: seq<Snapshot>, names: set<Name>) returns (at: seq<nat>)
    ensures PickedAt(Of(list, names), list, at)
    ensures forall i: nat :: i in at <==> i < |list| && list[i].info.service in names
  {
    if list == [] {
      at := [];
    } else {
      var n := |list| - 1;
      at := OfInOrder(list[..n], names);
      OneMorePicked(Of(list[..n], names), list, at, n);
      if list[n].info.service in names {
        at := at + [n];
      }
    }
  }

  lemma {:induction false} WithoutInOrder(list: seq<Snapshot>, names: set<Name>) returns (at: seq<nat>)
    ensures PickedAt(Without(list, names), list, at)
    ensures forall i: nat :: i in at <==> i < |list| && list[i].info.service !in names
  {
    if list == [] {
      at := [];
    } else {
      var n := |list| - 1;
      at := WithoutInOrder(list[..n], names);
      OneMorePicked(Without(list[..n], names), list, at, n);
      if list[n].info.service !in names {
        at := at + [n];
      }
    }
  }

  /** Both parts are in the order of the list, and every place of the list is in one of them. */
  lemma PartsInOrder(list: seq<Snapshot>, names: set<Name>) returns (of: seq<nat>, without: seq<nat>)
    ensures PickedAt(Of(list, names), list, of) && PickedAt(Without(list, names), list, without)
    ensures forall i: nat :: i in of <==> i < |list| && list[i].info.service in names
    ensures forall i: nat :: i in without <==> i < |list| && list[i].info.service !in names
  {
    of := OfInOrder(list, names);
    without := WithoutInOrder(list, names);
  }

  /** `split`: what matches and what does not, both in order. */
  method Split(list: seq<Snapshot>, service: Name) returns (right: seq<Snapshot>, left: seq<Snapshot>)
    ensures right == Of(list, {service}) && left == Without(list, {service})
  {
    right, left := [], [];
    for i := 0 to |list|
      invariant right == Of(list[..i], {service}) && left == Without(list[..i], {service})
    {
      assert list[..i + 1] == list[..i] + [list[i]];
      OfSnoc(list[..i], list[i], {service});
      if list[i].info.service == service {
        right := right + [list[i]];
      } else {
        left := left + [list[i]];
      }
    }
    assert list[..|list|] == list;
  }

  /** `filter` with `isNotService`: the orphans of a project with these services. */
  method Orphans(list: seq<Snapshot>, services: seq<Name>) returns (orphans: seq<Snapshot>)
    ensures orphans == Without(list, NamesIn(services))
  {
    orphans := [];
    for i := 0 to |list|
      invariant orphans == Without(list[..i], NamesIn(services))
    {
      assert list[..i + 1] == list[..i] + [list[i]];
      OfSnoc(list[..i], list[i], NamesIn(services));
      if list[i].info.service !in services {
        orphans := orphans + [list[i]];
      }
    }
    assert list[..|list|] == list;
  }

  function NamesIn(services: seq<Name>): set<Name> {
    set v | v in services
  }

  /** The list captured by the callbacks, and one whole callback with nothing in between. */
  class SharedList {
    var containers: seq<Snapshot>

    constructor (containers: seq<Snapshot>)
      ensures this.containers == containers
    {
      this.containers := containers;
    }

    method Callback(service: Name) returns (serviceContainers: seq<Snapshot>)
      modifies this
      ensures serviceContainers == Of(old(containers), {service})
      ensures containers == Without(old(containers), {service})
      ensures multiset(serviceContainers) + multiset(containers) == multiset(old(containers))
    {
      var others;
      serviceContainers, others := Split(containers, service);
      PartsAddUp(containers, {service});
      containers := others;
    }
  }

  // ---------- the callbacks inside the traversal ----------

  /** What a callback split off and what it will store. */
  datatype Parts = Parts(taken: seq<Snapshot>, others: seq<Snapshot>)

  /** `handed` counts how often each container has been given to be stopped or removed. */
  datatype DState = DState(base: State, shared: seq<Snapshot>, parts: map<nat, Parts>, stored: set<nat>, handed: multiset<Snapshot>)

  datatype DMove = Read(i: nat) | Store(i: nat) | Base(m: Move)

  predicate InCallback(s: State, i: nat) {
    i < |s.tasks| && s.tasks[i].phase == Calling && s.tasks[i].node.Some?
  }

  /** A callback returns, with or without an error, only after it has stored the rest. */
  predicate DEnabled(c: Config, x: DState, m: DMove) {
    match m
    case Read(i) => InCallback(x.base, i) && i !in x.parts
    case Store(i) => InCallback(x.base, i) && i in x.parts && i !in x.stored
    case Base(b) => Enabled(c, x.base, b) && (b.Succeed? || b.Fail? ==> b.i in x.stored)
  }

  function DApply(c: Config, x: DState, m: DMove): DState
    requires DEnabled(c, x, m)
  {
    match m
    case Read(i) =>
      var v := x.base.tasks[i].node.value;
      var taken := Of(x.shared, {v});
      x.(parts := x.parts[i := Parts(taken, Without(x.shared, {v}))], handed := x.handed + multiset(taken))
    case Store(i) => x.(shared := x.parts[i].others, stored := x.stored + {i})
    case Base(b) => x.(base := Apply(c, x.base, b))
  }

  function DInit(c: Config, listed: seq<Snapshot>): DState {
    DState(Init(c), listed, map[], {}, multiset{})
  }

  ghost predicate DFeasible(c: Config, listed: seq<Snapshot>, moves: seq<DMove>)
    decreases |moves|, 0
  {
    moves == [] ||
    (DFeasible(c, listed, moves[..|moves| - 1]) && DEnabled(c, DExec(c, listed, moves[..|moves| - 1]), moves[|moves| - 1]))
  }

  ghost function DExec(c: Config, listed: seq<Snapshot>, moves: seq<DMove>): DState
    requires DFeasible(c, listed, moves)
    decreases |moves|, 1
  {
    if moves == [] then DInit(c, listed)
    else DApply(c, DExec(c, listed, moves[..|moves| - 1]), moves[|moves| - 1])
  }

  /** The services one of whose callbacks has stored. */
  function StoredNames(x: DState): set<Name> {
    set i | i in x.stored && i < |x.base.tasks| && x.base.tasks[i].node.Some? :: x.base.tasks[i].node.value
  }

  /** A list from which at most these services have been taken out, each of them entirely. */
  ghost predicate Lacks(listed: seq<Snapshot>, list: seq<Snapshot>, atMost: set<Name>) {
    exists gone :: gone <= atMost && list == Without(listed, gone)
  }

  ghost predicate PartsOk(listed: seq<Snapshot>, x: DState, i: nat)
    requires i in x.parts && i < |x.base.tasks| && x.base.tasks[i].node.Some?
  {
    var v := x.base.tasks[i].node.value;
    && Lacks(listed, x.parts[i].others, StoredNames(x) + {v})
    && (x.parts[i].taken == Of(listed, {v}) || (x.parts[i].taken == [] && v in StoredNames(x)))
  }

  /** Some callback of `v` was given all of its containers. */
  ghost predicate Served(listed: seq<Snapshot>, x: DState, v: Name) {
    exists i :: i in x.parts && i < |x.base.tasks| && x.base.tasks[i].node == Some(v) && x.parts[i].taken == Of(listed, {v})
  }

  /** Every callback works on a task of the traversal, and has stored once it has returned. */
  ghost predicate Tracked(x: DState) {
    && (forall i :: i in x.parts ==> i < |x.base.tasks| && x.base.tasks[i].node.Some?)
    && (forall i :: i in x.stored ==> i in x.parts)
    && (forall i, k :: i in x.parts && k in x.parts[i].taken ==> k in x.handed)
    && (forall i :: 0 <= i < |x.base.tasks| && x.base.tasks[i].node.Some? && x.base.tasks[i].phase != Calling ==> i in x.stored)
  }

  ghost predicate DInv(listed: seq<Snapshot>, x: DState) {
    && Tracked(x)
    && Lacks(listed, x.shared, StoredNames(x))
    && (forall i :: i in x.parts ==> PartsOk(listed, x, i))
    && (forall v :: v in StoredNames(x) ==> Served(listed, x, v))
  }

  /** What a callback that reads now gets. */
  lemma ReadParts(listed: seq<Snapshot>, shared: seq<Snapshot>, stored: set<Name>, v: Name)
    requires Lacks(listed, shared, stored)
    ensures Lacks(listed, Without(shared, {v}), stored + {v})
    ensures Of(shared, {v}) == Of(listed, {v}) || (Of(shared, {v}) == [] && v in stored)
  {
    var gone :| gone <= stored && shared == Without(listed, gone);
    WithoutBoth(listed, gone, {v});
    OfRest(listed, gone, v);
    assert gone + {v} <= stored + {v};
  }

  /** Nothing is taken back from a service that has been served. */
  lemma StaysServed(listed: seq<Snapshot>, x: DState, x': DState, v: Name)
    requires Served(listed, x, v)
    requires forall i :: i in x.parts ==> i in x'.parts && x'.parts[i] == x.parts[i]
    requires |x.base.tasks| <= |x'.base.tasks|
    requires forall i :: 0 <= i < |x.base.tasks| ==> x'.base.tasks[i].node == x.base.tasks[i].node
    ensures Served(listed, x', v)
  {
    var i :| i in x.parts && i < |x.base.tasks| && x.base.tasks[i].node == Some(v) && x.parts[i].taken == Of(listed, {v});
    assert x'.base.tasks[i].node == Some(v);
  }

  /** What was split off stays right while more services get their callbacks. */
  lemma StaysOk(listed: seq<Snapshot>, x: DState, x': DState, i: nat)
    requires i in x.parts && i in x'.parts && x'.parts[i] == x.parts[i]
    requires i < |x.base.tasks| <= |x'.base.tasks| && x'.base.tasks[i].node == x.base.tasks[i].node
    requires x.base.tasks[i].node.Some? && PartsOk(listed, x, i) && StoredNames(x) <= StoredNames(x')
    ensures PartsOk(listed, x', i)
  {
    var v := x.base.tasks[i].node.value;
    var gone :| gone <= StoredNames(x) + {v} && x.parts[i].others == Without(listed, gone);
    assert gone <= StoredNames(x') + {v};
  }

  lemma ReadStep(c: Config, listed: seq<Snapshot>, x: DState, i: nat)
    requires DInv(listed, x) && DEnabled(c, x, Read(i))
    ensures DInv(listed, DApply(c, x, Read(i)))
  {
    var x' := DApply(c, x, Read(i));
    ReadParts(listed, x.shared, StoredNames(x), x.base.tasks[i].node.value);
    assert StoredNames(x') == StoredNames(x);
    forall j | j in x'.parts
      ensures PartsOk(listed, x', j)
    {
      if j != i {
        StaysOk(listed, x, x', j);
      }
    }
    forall v | v in StoredNames(x')
      ensures Served(listed, x', v)
    {
      StaysServed(listed, x, x', v);
    }
  }

  lemma StoreStep(c: Config, listed: seq<Snapshot>, x: DState, i: nat)
    requires DInv(listed, x) && DEnabled(c, x, Store(i))
    ensures DInv(listed, DApply(c, x, Store(i)))
  {
    var x' := DApply(c, x, Store(i));
    var v := x.base.tasks[i].node.value;
    StoreNames(c, x, i);
    assert PartsOk(listed, x, i);
    forall j | j in x'.parts
      ensures PartsOk(listed, x', j)
    {
      StaysOk(listed, x, x', j);
    }
    forall u | u in StoredNames(x')
      ensures Served(listed, x', u)
    {
      if u in StoredNames(x) {
        StaysServed(listed, x, x', u);
      } else {
        assert x'.parts[i].taken == Of(listed, {u});
      }
    }
  }

  lemma StoreNames(c: Config, x: DState, i: nat)
    requires DEnabled(c, x, Store(i))
    ensures StoredNames(DApply(c, x, Store(i))) == StoredNames(x) + {x.base.tasks[i].node.value}
  {
  }

  lemma BaseStep(c: Config, listed: seq<Snapshot>, x: DState, b: Move)
    requires DInv(listed, x) && DEnabled(c, x, Base(b))
    ensures DInv(listed, DApply(c, x, Base(b)))
  {
    var x' := DApply(c, x, Base(b));
    SameNames(c, x, b);
    StaysTracked(c, x, b);
    forall j | j in x'.parts
      ensures PartsOk(listed, x', j)
    {
      StaysOk(listed, x, x', j);
    }
    forall v | v in StoredNames(x')
      ensures Served(listed, x', v)
    {
      StaysServed(listed, x, x', v);
    }
  }

  /** A step of the traversal proper changes nobody's vertex. */
  lemma SameNames(c: Config, x: DState, b: Move)
    requires Enabled(c, x.base, b) && forall i :: i in x.stored ==> i < |x.base.tasks|
    ensures StoredNames(x.(base := Apply(c, x.base, b))) == StoredNames(x)
    ensures |x.base.tasks| <= |Apply(c, x.base, b).tasks|
    ensures forall i :: 0 <= i < |x.base.tasks| ==> Apply(c, x.base, b).tasks[i].node == x.base.tasks[i].node
  {
  }

  lemma StaysTracked(c: Config, x: DState, b: Move)
    requires Tracked(x) && DEnabled(c, x, Base(b))
    ensures Tracked(DApply(c, x, Base(b)))
  {
  }

  lemma {:induction false} DReachable(c: Config, listed: seq<Snapshot>, moves: seq<DMove>)
    requires DFeasible(c, listed, moves)
    ensures DInv(listed, DExec(c, listed, moves))
    decreases |moves|
  {
    if moves == [] {
      NothingTaken(listed);
      assert {} <= StoredNames(DInit(c, listed));
    } else {
      var before := moves[..|moves| - 1];
      DReachable(c, listed, before);
      match moves[|moves| - 1]
      case Read(i) => ReadStep(c, listed, DExec(c, listed, before), i);
      case Store(i) => StoreStep(c, listed, DExec(c, listed, before), i);
      case Base(b) => BaseStep(c, listed, DExec(c, listed, before), b);
    }
  }

  /** Forgetting the list, every run is a run of the traversal. */
  lemma {:induction false} Projects(c: Config, listed: seq<Snapshot>, moves: seq<DMove>) returns (base: seq<Move>)
    requires DFeasible(c, listed, moves)
    ensures Feasible(c, base) && Exec(c, base) == DExec(c, listed, moves).base
    decreases |moves|
  {
    if moves == [] {
      base := [];
    } else {
      var last := moves[|moves| - 1];
      base := Projects(c, listed, moves[..|moves| - 1]);
      if last.Base? {
        Extend(c, base, last.m);
        base := base + [last.m];
      }
    }
  }

  lemma StoredAreServices(c: Config, listed: seq<Snapshot>, moves: seq<DMove>)
    requires WellFormed(c) && DFeasible(c, listed, moves)
    ensures StoredNames(DExec(c, listed, moves)) <= c.awaits.Keys
  {
    var base := Projects(c, listed, moves);
    Traversal.Reachable(c, base);
    var x := DExec(c, listed, moves);
    forall i | i in x.stored && i < |x.base.tasks| && x.base.tasks[i].node.Some?
      ensures x.base.tasks[i].node.value in c.awaits
    {
      assert TaskOk(c, x.base, x.base.tasks[i]);
    }
  }

  // ---------- what every interleaving keeps ----------

  /**
   * However reads and stores interleave: only services one of whose callbacks has stored are missing from
   * the list, and they are missing entirely; no container of anything else is ever lost, orphans included.
   */
  lemma ListLacksOnlyServed(c: Config, listed: seq<Snapshot>, moves: seq<DMove>, k: Snapshot)
    requires WellFormed(c) && DFeasible(c, listed, moves)
    ensures var x := DExec(c, listed, moves);
      && Lacks(listed, x.shared, StoredNames(x))
      && StoredNames(x) <= c.awaits.Keys
      && (k in x.shared ==> k in listed)
      && (k in listed && k.info.service !in StoredNames(x) ==> k in x.shared)
      && (k in listed && k.info.service !in c.awaits ==> k in x.shared)
  {
    DReachable(c, listed, moves);
    StoredAreServices(c, listed, moves);
    var x := DExec(c, listed, moves);
    var gone :| gone <= StoredNames(x) && x.shared == Without(listed, gone);
    WithoutMembers(listed, gone, k);
  }

  /**
   * A callback that reads before any callback of its service has stored is given exactly all containers of
   * its service; any callback is given all of them or none.
   */
  lemma FirstCallbackGetsAll(c: Config, listed: seq<Snapshot>, moves: seq<DMove>, i: nat)
    requires WellFormed(c) && DFeasible(c, listed, moves) && DEnabled(c, DExec(c, listed, moves), Read(i))
    ensures var x := DExec(c, listed, moves);
      var v := x.base.tasks[i].node.value;
      var taken := DApply(c, x, Read(i)).parts[i].taken;
      && (v !in StoredNames(x) ==> taken == Of(listed, {v}))
      && (taken == Of(listed, {v}) || taken == [])
  {
    DReachable(c, listed, moves);
    var x := DExec(c, listed, moves);
    ReadParts(listed, x.shared, StoredNames(x), x.base.tasks[i].node.value);
  }

  /** When an error-free run has come to rest, every service of the project has been given all its containers. */
  lemma EveryServiceIsServed(c: Config, rank: map<Name, nat>, listed: seq<Snapshot>, moves: seq<DMove>, v: Name)
    requires WellFormed(c) && Ranks(c.awaits, rank) && DFeasible(c, listed, moves) && v in c.awaits
    requires Quiescent(DExec(c, listed, moves).base) && !SomeFailed(DExec(c, listed, moves).base)
    ensures Served(listed, DExec(c, listed, moves), v)
    ensures v in StoredNames(DExec(c, listed, moves))
  {
    DReachable(c, listed, moves);
    var base := Projects(c, listed, moves);
    Completes(c, rank, base, v);
    InvokedAreStored(DExec(c, listed, moves), v);
  }

  /** With orphans removed afterwards, an error-free `Down` reaches every listed container, lost stores or not. */
  lemma NothingIsForgotten(c: Config, rank: map<Name, nat>, listed: seq<Snapshot>, moves: seq<DMove>, k: Snapshot)
    requires WellFormed(c) && Ranks(c.awaits, rank) && DFeasible(c, listed, moves) && k in listed
    requires Quiescent(DExec(c, listed, moves).base) && !SomeFailed(DExec(c, listed, moves).base)
    ensures k in DExec(c, listed, moves).handed || k in DExec(c, listed, moves).shared
    ensures k.info.service in c.awaits ==> k in DExec(c, listed, moves).handed
  {
    var x := DExec(c, listed, moves);
    var v := k.info.service;
    if v in c.awaits {
      EveryServiceIsServed(c, rank, listed, moves, v);
      DReachable(c, listed, moves);
      var i :| i in x.parts && i < |x.base.tasks| && x.base.tasks[i].node == Some(v) && x.parts[i].taken == Of(listed, {v});
      WithoutMembers(listed, {v}, k);
    } else {
      ListLacksOnlyServed(c, listed, moves, k);
    }
  }

  lemma InvokedAreStored(x: DState, v: Name)
    requires Tracked(x) && Quiescent(x.base) && Invoked(x.base, v)
    ensures v in StoredNames(x)
  {
    var i :| 0 <= i < |x.base.tasks| && x.base.tasks[i].node == Some(v);
    assert i in x.stored;
  }

  // ---------- callbacks that do not overlap ----------

  /** Some callback has split the list and not stored the rest yet. */
  ghost predicate Open(x: DState, i: nat) {
    i in x.parts && i !in x.stored
  }

  /** No callback reads between another one's read and store. */
  ghost predicate Serial(c: Config, listed: seq<Snapshot>, moves: seq<DMove>)
    requires DFeasible(c, listed, moves)
    decreases |moves|
  {
    moves == [] ||
    var before := moves[..|moves| - 1];
    && Serial(c, listed, before)
    && (moves[|moves| - 1].Read? ==> NoneOpen(DExec(c, listed, before)))
  }

  ghost predicate NoneOpen(x: DState) {
    forall i: nat :: !Open(x, i)
  }

  /** The list as the store of the open callback will leave it. */
  ghost predicate OpenOk(listed: seq<Snapshot>, x: DState, i: nat) {
    && i < |x.base.tasks| && x.base.tasks[i].node.Some? && i in x.parts
    && x.parts[i].others == Without(listed, StoredNames(x) + {x.base.tasks[i].node.value})
    && x.handed + multiset(x.parts[i].others) == multiset(listed)
  }

  ghost predicate SerialInv(listed: seq<Snapshot>, x: DState) {
    && (forall i: nat, j: nat :: Open(x, i) && Open(x, j) ==> i == j)
    && x.shared == Without(listed, StoredNames(x))
    && (forall i: nat :: Open(x, i) ==> OpenOk(listed, x, i))
    && (NoneOpen(x) ==> x.handed + multiset(x.shared) == multiset(listed))
  }

  lemma SerialReadStep(c: Config, listed: seq<Snapshot>, x: DState, i: nat)
    requires DEnabled(c, x, Read(i)) && SerialInv(listed, x) && NoneOpen(x) && i !in x.stored
    ensures SerialInv(listed, DApply(c, x, Read(i)))
  {
    var x' := DApply(c, x, Read(i));
    OpensWell(c, listed, x, i);
    forall j: nat
      ensures Open(x', j) <==> j == i
    {
      assert !Open(x, j);
    }
    assert Open(x', i) && !NoneOpen(x');
  }

  lemma OpensWell(c: Config, listed: seq<Snapshot>, x: DState, i: nat)
    requires DEnabled(c, x, Read(i)) && SerialInv(listed, x) && NoneOpen(x) && i !in x.stored
    ensures OpenOk(listed, DApply(c, x, Read(i)), i)
    ensures StoredNames(DApply(c, x, Read(i))) == StoredNames(x)
  {
    var v := x.base.tasks[i].node.value;
    WithoutBoth(listed, StoredNames(x), {v});
    PartsAddUp(x.shared, {v});
  }

  lemma SerialStoreStep(c: Config, listed: seq<Snapshot>, x: DState, i: nat)
    requires DEnabled(c, x, Store(i)) && SerialInv(listed, x)
    ensures SerialInv(listed, DApply(c, x, Store(i)))
  {
    var x' := DApply(c, x, Store(i));
    assert Open(x, i) && OpenOk(listed, x, i);
    StoreNames(c, x, i);
    forall j: nat
      ensures !Open(x', j)
    {
      assert Open(x', j) ==> Open(x, j);
    }
  }

  lemma SerialBaseStep(c: Config, listed: seq<Snapshot>, x: DState, b: Move)
    requires DEnabled(c, x, Base(b)) && SerialInv(listed, x) && forall i :: i in x.stored ==> i < |x.base.tasks|
    ensures SerialInv(listed, DApply(c, x, Base(b)))
  {
    var x' := DApply(c, x, Base(b));
    SameNames(c, x, b);
    forall j: nat
      ensures Open(x', j) <==> Open(x, j)
    {
    }
    forall j: nat | Open(x', j)
      ensures OpenOk(listed, x', j)
    {
      assert OpenOk(listed, x, j);
    }
  }

  lemma {:induction false} SerialReachable(c: Config, listed: seq<Snapshot>, moves: seq<DMove>)
    requires DFeasible(c, listed, moves) && Serial(c, listed, moves)
    ensures SerialInv(listed, DExec(c, listed, moves))
    decreases |moves|
  {
    if moves == [] {
      NothingTaken(listed);
      assert StoredNames(DInit(c, listed)) == {};
    } else {
      var before := moves[..|moves| - 1];
      SerialReachable(c, listed, before);
      DReachable(c, listed, before);
      match moves[|moves| - 1]
      case Read(i) => SerialReadStep(c, listed, DExec(c, listed, before), i);
      case Store(i) => SerialStoreStep(c, listed, DExec(c, listed, before), i);
      case Base(b) => SerialBaseStep(c, listed, DExec(c, listed, before), b);
    }
  }

  lemma NothingOpenAtRest(x: DState)
    requires Tracked(x) && Quiescent(x.base)
    ensures NoneOpen(x)
  {
    forall i | i in x.parts
      ensures i in x.stored
    {
      assert x.base.tasks[i].phase != Calling;
    }
  }

  lemma AllHaveStored(c: Config, rank: map<Name, nat>, listed: seq<Snapshot>, moves: seq<DMove>)
    requires WellFormed(c) && Ranks(c.awaits, rank) && DFeasible(c, listed, moves)
    requires Quiescent(DExec(c, listed, moves).base) && !SomeFailed(DExec(c, listed, moves).base)
    ensures StoredNames(DExec(c, listed, moves)) == c.awaits.Keys
  {
    StoredAreServices(c, listed, moves);
    forall v | v in c.awaits
      ensures v in StoredNames(DExec(c, listed, moves))
    {
      EveryServiceIsServed(c, rank, listed, moves, v);
    }
  }

  /**
   * When callbacks do not overlap, an error-free run leaves exactly the orphans in the list and has handed
   * out every other container exactly once, repeated callbacks notwithstanding.
   */
  lemma SerialLeavesTheOrphans(c: Config, rank: map<Name, nat>, listed: seq<Snapshot>, moves: seq<DMove>)
    requires WellFormed(c) && Ranks(c.awaits, rank) && DFeasible(c, listed, moves) && Serial(c, listed, moves)
    requires Quiescent(DExec(c, listed, moves).base) && !SomeFailed(DExec(c, listed, moves).base)
    ensures DExec(c, listed, moves).shared == Without(listed, c.awaits.Keys)
    ensures DExec(c, listed, moves).handed == multiset(Of(listed, c.awaits.Keys))
  {
    var x := DExec(c, listed, moves);
    AllHaveStored(c, rank, listed, moves);
    SerialRemainder(c, listed, moves);
    PartsAddUp(listed, c.awaits.Keys);
    assert x.handed == multiset(listed) - multiset(x.shared);
  }

  lemma SerialRemainder(c: Config, listed: seq<Snapshot>, moves: seq<DMove>)
    requires DFeasible(c, listed, moves) && Serial(c, listed, moves) && Quiescent(DExec(c, listed, moves).base)
    ensures var x := DExec(c, listed, moves);
      x.shared == Without(listed, StoredNames(x)) && x.handed + multiset(x.shared) == multiset(listed)
  {
    SerialReachable(c, listed, moves);
    DReachable(c, listed, moves);
    NothingOpenAtRest(DExec(c, listed, moves));
  }
}
