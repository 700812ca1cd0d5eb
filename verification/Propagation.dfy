/**
 * Forced recreation spreading through a project: each `ensureService` reads its own flag, and a service
 * that recreated a container flags every service that depends on it. The traversal machine is extended
 * with the flags; reading and flagging are steps of their own, interleaved with everything else.
 */
module Propagation {
  import opened Wrappers
  import opened Digraph
  import opened Traversal
  import opened ContainerEngine
  import CV = Convergence
  import opened ConvergencePlan

  /**
   * The services that keep containers, those that keep a stale one, those flagged from the start, and those
   * that had extensions when the graph copied them: only their copies see a flag set later.
   */
  datatype Site = Site(kept: set<Name>, stale: set<Name>, forced: set<Name>, extended: set<Name>)

  datatype XState = XState(base: State, flags: set<Name>, decided: map<nat, bool>, noted: set<nat>, recreated: set<Name>)

  datatype XMove = Read(i: nat) | Note(i: nat) | Base(m: Move)

  /** Whether `ensureService` on `v` recreates a container, as it sees the flags. */
  predicate Decides(site: Site, flags: set<Name>, v: Name) {
    v in site.kept && (v in site.stale || v in flags)
  }

  function XInit(c: Config, site: Site): XState {
    XState(Init(c), site.forced, map[], {}, {})
  }

  predicate XEnabled(c: Config, x: XState, m: XMove) {
    match m
    case Read(i) => i < |x.base.tasks| && x.base.tasks[i].phase == Calling && x.base.tasks[i].node.Some? && i !in x.decided
    case Note(i) =>
      && i < |x.base.tasks| && x.base.tasks[i].phase == Calling && i in x.decided && x.decided[i]
      && x.base.tasks[i].node.Some? && x.base.tasks[i].node.value in c.triggers
    case Base(b) =>
      && Enabled(c, x.base, b)
      && (b.Succeed? ==> b.i in x.decided && (x.decided[b.i] ==> b.i in x.noted))
  }

  function XApply(c: Config, site: Site, x: XState, m: XMove): XState
    requires XEnabled(c, x, m)
  {
    match m
    case Read(i) => x.(decided := x.decided[i := Decides(site, x.flags, x.base.tasks[i].node.value)])
    case Note(i) =>
      var v := x.base.tasks[i].node.value;
      x.(flags := x.flags + c.triggers[v] * site.extended, noted := x.noted + {i}, recreated := x.recreated + {v})
    case Base(b) => x.(base := Apply(c, x.base, b))
  }

  ghost predicate XFeasible(c: Config, site: Site, moves: seq<XMove>)
    decreases |moves|, 0
  {
    moves == [] ||
    (XFeasible(c, site, moves[..|moves| - 1]) && XEnabled(c, XExec(c, site, moves[..|moves| - 1]), moves[|moves| - 1]))
  }

  ghost function XExec(c: Config, site: Site, moves: seq<XMove>): XState
    requires XFeasible(c, site, moves)
    decreases |moves|, 1
  {
    if moves == [] then XInit(c, site)
    else XApply(c, site, XExec(c, site, moves[..|moves| - 1]), moves[|moves| - 1])
  }

  /**
   * A service is made to recreate: it keeps containers, and one is stale, or it is flagged, or its copy can see
   * that a service it awaits was made to.
   */
  ghost predicate Must(c: Config, rank: map<Name, nat>, site: Site, v: Name)
    requires WellFormed(c) && Ranks(c.awaits, rank) && v in c.awaits
    decreases rank[v]
  {
    && v in site.kept
    && (v in site.stale || v in site.forced || (v in site.extended && exists u :: u in c.awaits[v] && Must(c, rank, site, u)))
  }

  /** `s` contains whoever is made to recreate if the members of `s` are. */
  ghost predicate ClosedUnderForcing(c: Config, site: Site, s: set<Name>) {
    forall v :: v in c.awaits && Forces(c, site, s, v) ==> v in s
  }

  /** The rule: `v` is made to recreate if the members of `s` do. */
  ghost predicate Forces(c: Config, site: Site, s: set<Name>, v: Name)
    requires v in c.awaits
  {
    v in site.kept && (v in site.stale || v in site.forced || (v in site.extended && c.awaits[v] * s != {}))
  }

  ghost function MustSet(c: Config, rank: map<Name, nat>, site: Site): set<Name>
    requires WellFormed(c) && Ranks(c.awaits, rank)
  {
    set v | v in c.awaits && Must(c, rank, site, v)
  }

  /** The services made to recreate are a set closed under the rule ... */
  lemma MustSetIsClosed(c: Config, rank: map<Name, nat>, site: Site)
    requires WellFormed(c) && Ranks(c.awaits, rank)
    ensures ClosedUnderForcing(c, site, MustSet(c, rank, site))
  {
    forall v | v in c.awaits && c.awaits[v] * MustSet(c, rank, site) != {}
      ensures exists u :: u in c.awaits[v] && Must(c, rank, site, u)
    {
      var u :| u in c.awaits[v] * MustSet(c, rank, site);
    }
  }

  /** ... and lie in every such set. */
  lemma {:induction false} MustSetIsLeast(c: Config, rank: map<Name, nat>, site: Site, s: set<Name>, v: Name)
    requires WellFormed(c) && Ranks(c.awaits, rank) && ClosedUnderForcing(c, site, s)
    requires v in c.awaits && Must(c, rank, site, v)
    ensures v in s
    decreases rank[v]
  {
    if v !in site.stale && v !in site.forced {
      var u :| u in c.awaits[v] && Must(c, rank, site, u);
      MustSetIsLeast(c, rank, site, s, u);
      assert u in c.awaits[v] * s;
    }
  }

  ghost predicate TaskKnows(c: Config, rank: map<Name, nat>, site: Site, x: XState, i: nat)
    requires WellFormed(c) && Ranks(c.awaits, rank) && Inv(c, x.base) && i < |x.base.tasks|
  {
    var t := x.base.tasks[i];
    t.node.Some? ==>
      assert TaskOk(c, x.base, t);
      var v := t.node.value;
      && (i in x.decided ==> (x.decided[i] <==> Must(c, rank, site, v)))
      && (i in x.noted ==> v in x.recreated)
      && (t.phase == Succeeded || Done(t.phase) ==> (Must(c, rank, site, v) ==> v in x.recreated))
  }

  /** Flagged are those flagged from the start and whoever sees a flag of a dependency that has recreated. */
  ghost predicate FlagsAre(c: Config, site: Site, flags: set<Name>, recreated: set<Name>) {
    forall w :: w in flags <==>
      w in site.forced || (w in site.extended && exists u :: u in recreated && u in c.triggers && w in c.triggers[u])
  }

  lemma FlagsAfter(c: Config, site: Site, flags: set<Name>, recreated: set<Name>, v: Name)
    requires FlagsAre(c, site, flags, recreated) && v in c.triggers
    ensures FlagsAre(c, site, flags + c.triggers[v] * site.extended, recreated + {v})
  {
    forall w
      ensures w in flags + c.triggers[v] * site.extended <==>
                w in site.forced || (w in site.extended && exists u :: u in recreated + {v} && u in c.triggers && w in c.triggers[u])
    {
      if w in c.triggers[v] {
        assert v in recreated + {v};
      }
      if w in flags && w !in site.forced {
        var u :| u in recreated && u in c.triggers && w in c.triggers[u];
        assert u in recreated + {v};
      }
    }
  }

  ghost predicate XInv(c: Config, rank: map<Name, nat>, site: Site, x: XState)
    requires WellFormed(c) && Ranks(c.awaits, rank)
  {
    && Inv(c, x.base)
    && (forall i :: i in x.decided ==> i < |x.base.tasks|)
    && (forall i :: i in x.noted ==> i < |x.base.tasks|)
    && (forall v :: v in x.recreated ==> v in c.awaits && Must(c, rank, site, v))
    && FlagsAre(c, site, x.flags, x.recreated)
    && (forall i :: 0 <= i < |x.base.tasks| ==> TaskKnows(c, rank, site, x, i))
  }

  /** A service's own flag once all it awaits is done: set from the start, or by a recreated service, if the copy can see it. */
  ghost predicate Flagged(c: Config, rank: map<Name, nat>, site: Site, v: Name)
    requires WellFormed(c) && Ranks(c.awaits, rank) && v in c.awaits
  {
    v in site.forced || (v in site.extended && exists u :: u in c.awaits[v] && Must(c, rank, site, u))
  }

  /** When a service reads its flag, whatever it awaits has left its mark, so the flag is final. */
  lemma FlagIsFinal(c: Config, rank: map<Name, nat>, site: Site, x: XState, i: nat)
    requires WellFormed(c) && Ranks(c.awaits, rank) && XInv(c, rank, site, x)
    requires i < |x.base.tasks| && x.base.tasks[i].node.Some? && x.base.tasks[i].node.value in c.awaits
    ensures x.base.tasks[i].node.value in x.flags <==> Flagged(c, rank, site, x.base.tasks[i].node.value)
  {
    var v := x.base.tasks[i].node.value;
    assert TaskOk(c, x.base, x.base.tasks[i]);
    forall u | u in c.awaits[v] && Must(c, rank, site, u)
      ensures u in x.recreated && v in c.triggers[u]
    {
      assert u !in Unfinished(c, x.base, v);
      assert Finished(x.base, u);
      var j :| 0 <= j < |x.base.tasks| && x.base.tasks[j].node == Some(u) && Done(x.base.tasks[j].phase);
      assert TaskKnows(c, rank, site, x, j);
    }
    if v in x.flags && v !in site.forced {
      var u :| u in x.recreated && u in c.triggers && v in c.triggers[u];
      assert u in c.awaits[v];
    }
  }

  /** So what it decides on it is the final answer. */
  lemma ReadsTheTruth(c: Config, rank: map<Name, nat>, site: Site, x: XState, i: nat)
    requires WellFormed(c) && Ranks(c.awaits, rank) && XInv(c, rank, site, x)
    requires i < |x.base.tasks| && x.base.tasks[i].node.Some? && x.base.tasks[i].node.value in c.awaits
    ensures Decides(site, x.flags, x.base.tasks[i].node.value) <==> Must(c, rank, site, x.base.tasks[i].node.value)
  {
    hide XInv;
    FlagIsFinal(c, rank, site, x, i);
  }

  lemma XStepInv(c: Config, rank: map<Name, nat>, site: Site, x: XState, m: XMove)
    requires WellFormed(c) && Ranks(c.awaits, rank) && XInv(c, rank, site, x) && XEnabled(c, x, m)
    ensures XInv(c, rank, site, XApply(c, site, x, m))
  {
    hide Inv;
    hide TaskKnows;
    hide FlagsAre;
    match m {
      case Read(i) =>
        ReadStep(c, rank, site, x, i);
      case Note(i) =>
        NoteStep(c, rank, site, x, i);
      case Base(b) =>
        BaseStep(c, rank, site, x, b);
    }
  }

  /** What a step that changes nobody's vertex and forgets no mark keeps of a goroutine. */
  lemma StillKnows(c: Config, rank: map<Name, nat>, site: Site, x: XState, x': XState, j: nat)
    requires WellFormed(c) && Ranks(c.awaits, rank) && Inv(c, x.base) && Inv(c, x'.base)
    requires j < |x.base.tasks| && j < |x'.base.tasks| && x'.base.tasks[j] == x.base.tasks[j] && TaskKnows(c, rank, site, x, j)
    requires j in x'.decided ==> j in x.decided && x'.decided[j] == x.decided[j]
    requires j in x'.noted ==> j in x.noted
    requires x.recreated <= x'.recreated
    ensures TaskKnows(c, rank, site, x', j)
  {
    assert x.base.tasks[j].node.Some? ==> TaskOk(c, x.base, x.base.tasks[j]) && TaskOk(c, x'.base, x'.base.tasks[j]);
  }

  lemma ReaderKnows(c: Config, rank: map<Name, nat>, site: Site, x: XState, i: nat)
    requires WellFormed(c) && Ranks(c.awaits, rank) && XInv(c, rank, site, x) && XEnabled(c, x, XMove.Read(i))
    ensures TaskKnows(c, rank, site, XApply(c, site, x, XMove.Read(i)), i)
  {
    hide FlagsAre;
    assert TaskKnows(c, rank, site, x, i) && TaskOk(c, x.base, x.base.tasks[i]);
    ReadsTheTruth(c, rank, site, x, i);
  }

  lemma ReadStep(c: Config, rank: map<Name, nat>, site: Site, x: XState, i: nat)
    requires WellFormed(c) && Ranks(c.awaits, rank) && XInv(c, rank, site, x) && XEnabled(c, x, XMove.Read(i))
    ensures XInv(c, rank, site, XApply(c, site, x, XMove.Read(i)))
  {
    hide FlagsAre;
    hide Inv;
    hide TaskKnows;
    var x' := XApply(c, site, x, XMove.Read(i));
    ReaderKnows(c, rank, site, x, i);
    forall j: nat | j < |x'.base.tasks|
      ensures TaskKnows(c, rank, site, x', j)
    {
      assert TaskKnows(c, rank, site, x, j);
      if j != i {
        StillKnows(c, rank, site, x, x', j);
      }
    }
  }

  lemma NoterKnows(c: Config, rank: map<Name, nat>, site: Site, x: XState, i: nat)
    requires WellFormed(c) && Ranks(c.awaits, rank) && XInv(c, rank, site, x) && XEnabled(c, x, Note(i))
    ensures TaskKnows(c, rank, site, XApply(c, site, x, Note(i)), i)
    ensures x.base.tasks[i].node.value in c.awaits && Must(c, rank, site, x.base.tasks[i].node.value)
  {
    hide FlagsAre;
    assert TaskKnows(c, rank, site, x, i) && TaskOk(c, x.base, x.base.tasks[i]);
  }

  lemma NoteStep(c: Config, rank: map<Name, nat>, site: Site, x: XState, i: nat)
    requires WellFormed(c) && Ranks(c.awaits, rank) && XInv(c, rank, site, x) && XEnabled(c, x, Note(i))
    ensures XInv(c, rank, site, XApply(c, site, x, Note(i)))
  {
    hide FlagsAre;
    hide Inv;
    hide TaskKnows;
    var x' := XApply(c, site, x, Note(i));
    NoterKnows(c, rank, site, x, i);
    forall j: nat | j < |x'.base.tasks|
      ensures TaskKnows(c, rank, site, x', j)
    {
      assert TaskKnows(c, rank, site, x, j);
      if j != i {
        StillKnows(c, rank, site, x, x', j);
      }
    }
    FlagsAfter(c, site, x.flags, x.recreated, x.base.tasks[i].node.value);
  }

  lemma MoverKnows(c: Config, rank: map<Name, nat>, site: Site, x: XState, b: Move)
    requires WellFormed(c) && Ranks(c.awaits, rank) && Inv(c, x.base) && XEnabled(c, x, Base(b)) && TaskKnows(c, rank, site, x, b.i)
    requires Inv(c, Apply(c, x.base, b))
    ensures TaskKnows(c, rank, site, XApply(c, site, x, Base(b)), b.i)
  {
    var t, t' := x.base.tasks[b.i], Apply(c, x.base, b).tasks[b.i];
    assert t'.node == t.node;
    assert TaskOk(c, x.base, t) && TaskOk(c, Apply(c, x.base, b), t');
  }

  lemma NewcomerKnows(c: Config, rank: map<Name, nat>, site: Site, x: XState, b: Move)
    requires WellFormed(c) && Ranks(c.awaits, rank) && Inv(c, x.base) && XEnabled(c, x, Base(b))
    requires |x.base.tasks| !in x.decided && |x.base.tasks| !in x.noted
    requires Inv(c, Apply(c, x.base, b)) && |x.base.tasks| < |Apply(c, x.base, b).tasks|
    ensures TaskKnows(c, rank, site, XApply(c, site, x, Base(b)), |x.base.tasks|)
  {
    var t' := Apply(c, x.base, b).tasks[|x.base.tasks|];
    assert t'.phase == Calling;
    assert TaskOk(c, Apply(c, x.base, b), t');
  }

  lemma KnowsOn(c: Config, rank: map<Name, nat>, site: Site, x: XState, b: Move, j: nat)
    requires WellFormed(c) && Ranks(c.awaits, rank) && XInv(c, rank, site, x) && XEnabled(c, x, Base(b))
    requires j < |Apply(c, x.base, b).tasks| && Inv(c, Apply(c, x.base, b))
    ensures TaskKnows(c, rank, site, XApply(c, site, x, Base(b)), j)
  {
    hide FlagsAre;
    hide Inv;
    hide TaskKnows;
    if j == b.i {
      MoverKnows(c, rank, site, x, b);
    } else if j < |x.base.tasks| {
      assert Apply(c, x.base, b).tasks[j] == x.base.tasks[j];
      StillKnows(c, rank, site, x, XApply(c, site, x, Base(b)), j);
    } else {
      NewcomerKnows(c, rank, site, x, b);
    }
  }

  lemma BaseStep(c: Config, rank: map<Name, nat>, site: Site, x: XState, b: Move)
    requires WellFormed(c) && Ranks(c.awaits, rank) && XInv(c, rank, site, x) && XEnabled(c, x, Base(b))
    ensures XInv(c, rank, site, XApply(c, site, x, Base(b)))
  {
    hide FlagsAre;
    hide Inv;
    hide TaskKnows;
    var x' := XApply(c, site, x, Base(b));
    StepInv(c, x.base, b);
    forall j: nat | j < |x'.base.tasks|
      ensures TaskKnows(c, rank, site, x', j)
    {
      KnowsOn(c, rank, site, x, b, j);
    }
  }

  lemma {:induction false} XReachable(c: Config, rank: map<Name, nat>, site: Site, moves: seq<XMove>)
    requires WellFormed(c) && Ranks(c.awaits, rank) && XFeasible(c, site, moves)
    ensures XInv(c, rank, site, XExec(c, site, moves))
    decreases |moves|
  {
    if moves == [] {
      InitInv(c);
    } else {
      var before := moves[..|moves| - 1];
      XReachable(c, rank, site, before);
      XStepInv(c, rank, site, XExec(c, site, before), moves[|moves| - 1]);
    }
  }

  /** Forgetting the flags, every run of the extended machine is a run of the traversal. */
  lemma {:induction false} Projects(c: Config, site: Site, moves: seq<XMove>) returns (base: seq<Move>)
    requires XFeasible(c, site, moves)
    ensures Feasible(c, base) && Exec(c, base) == XExec(c, site, moves).base
    decreases |moves|
  {
    if moves == [] {
      base := [];
    } else {
      var last := moves[|moves| - 1];
      base := Projects(c, site, moves[..|moves| - 1]);
      if last.Base? {
        Extend(c, base, last.m);
        base := base + [last.m];
      }
    }
  }

  /**
   * In every interleaving only services that are made to recreate do; when an error-free run has come to rest
   * they all have: the recreated services are the least set closed under the forcing rule.
   */
  lemma RecreatedIsLeastFixpoint(c: Config, rank: map<Name, nat>, site: Site, moves: seq<XMove>)
    requires WellFormed(c) && Ranks(c.awaits, rank) && XFeasible(c, site, moves)
    ensures XExec(c, site, moves).recreated <= MustSet(c, rank, site)
    ensures Quiescent(XExec(c, site, moves).base) && !SomeFailed(XExec(c, site, moves).base) ==>
              XExec(c, site, moves).recreated == MustSet(c, rank, site)
  {
    XReachable(c, rank, site, moves);
    var x := XExec(c, site, moves);
    if Quiescent(x.base) && !SomeFailed(x.base) {
      var base := Projects(c, site, moves);
      forall v | v in c.awaits && Must(c, rank, site, v)
        ensures v in x.recreated
      {
        Completes(c, rank, base, v);
        var i :| 0 <= i < |x.base.tasks| && x.base.tasks[i].node == Some(v);
        assert TaskKnows(c, rank, site, x, i);
      }
    }
  }

  /** The same project, had every service extensions. */
  function Everywhere(c: Config, site: Site): Site {
    site.(extended := c.awaits.Keys)
  }

  /** Who is meant to recreate and is neither stale nor flagged from the start has extensions. */
  ghost predicate FlagsArrive(c: Config, rank: map<Name, nat>, site: Site)
    requires WellFormed(c) && Ranks(c.awaits, rank)
  {
    forall v :: v in MustSet(c, rank, Everywhere(c, site)) ==> v in site.stale || v in site.forced || v in site.extended
  }

  lemma {:induction false} MustAnyway(c: Config, rank: map<Name, nat>, site: Site, v: Name)
    requires WellFormed(c) && Ranks(c.awaits, rank) && v in c.awaits
    ensures Must(c, rank, site, v) ==> Must(c, rank, Everywhere(c, site), v)
    ensures FlagsArrive(c, rank, site) ==> (Must(c, rank, site, v) <==> Must(c, rank, Everywhere(c, site), v))
    decreases rank[v]
  {
    forall u | u in c.awaits[v]
      ensures Must(c, rank, site, u) ==> Must(c, rank, Everywhere(c, site), u)
      ensures FlagsArrive(c, rank, site) ==> (Must(c, rank, site, u) <==> Must(c, rank, Everywhere(c, site), u))
    {
      MustAnyway(c, rank, site, u);
    }
    assert v in MustSet(c, rank, Everywhere(c, site)) <==> Must(c, rank, Everywhere(c, site), v);
  }

  /**
   * An error-free run that has come to rest has recreated exactly the services meant to recreate, those that
   * would with extensions everywhere, iff each of them that is neither stale nor flagged from the start has some.
   */
  lemma RecreatesAsMeantIff(c: Config, rank: map<Name, nat>, site: Site, moves: seq<XMove>)
    requires WellFormed(c) && Ranks(c.awaits, rank) && XFeasible(c, site, moves)
    requires Quiescent(XExec(c, site, moves).base) && !SomeFailed(XExec(c, site, moves).base)
    ensures XExec(c, site, moves).recreated == MustSet(c, rank, Everywhere(c, site)) <==> FlagsArrive(c, rank, site)
  {
    RecreatedIsLeastFixpoint(c, rank, site, moves);
    forall v | v in c.awaits
      ensures FlagsArrive(c, rank, site) ==> (v in MustSet(c, rank, site) <==> v in MustSet(c, rank, Everywhere(c, site)))
    {
      MustAnyway(c, rank, site, v);
    }
  }

  /** What `ensureService` plans for one service recreates a container exactly when the rule says so. */
  lemma PlanRecreatesIff(s: CV.ServiceSpec, kept: seq<Snapshot>, capture: seq<nat>)
    requires Capture(kept, capture)
    ensures (exists t :: 0 <= t < |KeptWork(s, kept, capture)| && KeptWork(s, kept, capture)[t].Recreate?)
            <==> kept != [] && (s.forceRecreate || exists k :: 0 <= k < |kept| && kept[k].info.hash != s.hash)
  {
    var idx, w := Needy(s, kept), KeptWork(s, kept, capture);
    forall t | 0 <= t < |w|
      ensures w[t].Recreate? <==> Diverged(s, kept[idx[t]])
    {
    }
    if k :| 0 <= k < |kept| && Diverged(s, kept[k]) {
      var t :| 0 <= t < |idx| && idx[t] == k;
      assert w[t].Recreate?;
    }
  }
}
