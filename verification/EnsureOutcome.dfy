/** What a successful `ensureService` leaves of the containers it was shown, in terms of the listing and the configuration. */
module EnsureOutcome {
  import opened Wrappers
  import opened Numerals
  import opened ContainerEngine
  import opened Convergence
  import opened ConvergencePlan
  import opened ConvergenceResults
  import opened ConvergenceNumbers
  import opened Captures

  /** The listed container does not have the hash of the configuration, or the service is flagged. */
  predicate OutOfDate(s: ServiceSpec, x: Container) {
    x.hash != s.hash || s.forceRecreate
  }

  /** Some pass of the loop over the first `n` listed containers replaces the `k`th one. */
  ghost predicate ReplacedIn(s: ServiceSpec, actual: seq<Snapshot>, n: nat, capture: seq<nat>, k: nat) {
    exists i :: 0 <= i < |actual| && i < n && i < |capture| && capture[i] == k && OutOfDate(s, actual[i].info)
  }

  /** Some pass starts it, having found another one, or the same, exited and up to date. */
  ghost predicate StartedIn(s: ServiceSpec, actual: seq<Snapshot>, n: nat, capture: seq<nat>, k: nat) {
    exists i :: 0 <= i < |actual| && i < n && i < |capture| && capture[i] == k && !OutOfDate(s, actual[i].info) && actual[i].info.state == Exited
  }

  lemma SameReplacing(s: ServiceSpec, actual: seq<Snapshot>, n: nat, capture: seq<nat>, k: nat)
    requires Capture(Kept(actual, n), capture)
    ensures HandedOut(s, Kept(actual, n), capture, k) <==> ReplacedIn(s, actual, n, capture, k)
  {
    var kept := Kept(actual, n);
    if i :| 0 <= i < |actual| && i < n && i < |capture| && capture[i] == k && OutOfDate(s, actual[i].info) {
      assert kept[i] == actual[i] && Diverged(s, kept[i]);
    }
  }

  lemma SameStarting(s: ServiceSpec, actual: seq<Snapshot>, n: nat, capture: seq<nat>, k: nat)
    requires Capture(Kept(actual, n), capture)
    ensures StartedAgain(s, Kept(actual, n), capture, k) <==> StartedIn(s, actual, n, capture, k)
  {
    var kept := Kept(actual, n);
    if i :| 0 <= i < |actual| && i < n && i < |capture| && capture[i] == k && !OutOfDate(s, actual[i].info) && actual[i].info.state == Exited {
      assert kept[i] == actual[i] && NeedsRestart(s, kept[i]);
    }
  }

  /**
   * Of the containers listed, those from the asked-for number on are gone. One before that is gone iff some pass
   * of the loop found one out of date and was given this one; otherwise it is as it was, except that it runs if
   * a pass that found one exited was given it.
   */
  lemma FateOfListed(r: Run, k: nat)
    requires r.Successful() && k < |r.actual|
    ensures var x, e := r.actual[k], r.After().engine;
      && (k >= r.scale ==> x.id !in e)
      && (k < r.scale ==> (x.id !in e <==> ReplacedIn(r.c.service, r.actual, r.scale, r.capture, k)))
      && (x.id in e ==> e[x.id] == x.info.(state := if StartedIn(r.c.service, r.actual, r.scale, r.capture, k) then Running else x.info.state))
  {
    if k < r.scale {
      assert r.KeptPart()[k] == r.actual[k];
      SameReplacing(r.c.service, r.actual, r.scale, r.capture, k);
      SameStarting(r.c.service, r.actual, r.scale, r.capture, k);
      FateOfKept(r, k);
    } else {
      assert Surplus(r.actual, r.scale)[k - r.scale] == r.actual[k];
      TakenAway(r, r.actual[k].id);
    }
  }

  /** Where it was not there before it is new: with this name, number and hash. */
  lemma NewOnes(r: Run, id: Id)
    requires r.Successful() && id in r.Ids() && id !in r.e0
    ensures var x, s := r.After().engine[id], r.c.service;
      && x.hash == s.hash && x.state == Created
      && ((exists k :: 0 <= k < |r.actual| && k < r.scale && x.name == r.actual[k].info.name && x.number == r.actual[k].info.number)
          || (x.number.Some? && x.number.value >= 1
              && (forall k :: 0 <= k < |r.actual| && r.actual[k].info.number.Some? ==> r.actual[k].info.number.value < x.number.value)
              && x.name == if s.containerName != "" then s.containerName
                           else r.c.project + "_" + s.name + "_" + Itoa(x.number.value)))
  {
    NewOnesAreOurs(r, id);
    var o := OriginOf(r, id);
    match o {
      case Same(k) =>
      case Replacing(k, i) =>
        assert r.KeptPart()[k] == r.actual[k];
        JobFacts(r, i);
      case Added(i) => JobFacts(r, i);
    }
  }

  /** If fewer are listed than asked for, the numbers of the new ones begin right after the highest one and leave no gap. */
  lemma NumbersAreConsecutive(r: Run, m: int)
    requires r.Successful() && NextNumber(r.actual) <= m < NextNumber(r.actual) + (r.scale - |r.actual|)
    ensures exists id :: id in r.Ids() && id !in r.e0 && r.After().engine[id].number == Some(m)
  {
    var i := m - NextNumber(r.actual);
    RunWork(r, i);
    JobFacts(r, i);
    assert Finished(r.After().jobs[i]);
    var id := r.After().jobs[i].made.value;
    NewIds(r, id);
    assert id in r.Ids();
  }

  // ---------- networks ----------

  /** By the end of these moves the container has been connected to the networks. */
  ghost predicate ConnectedBy(s0: State, moves: seq<Move>, id: Id)
    requires Feasible(s0, moves)
    decreases |moves|
  {
    moves != [] &&
    var before, m := moves[..|moves| - 1], moves[|moves| - 1];
    ConnectedBy(s0, before, id) || (m.ok && NextCall(Exec(s0, before).jobs[m.i], m.newId) == ConnectCall(id))
  }

  /** A goroutine that has got past creating its container and one more call. */
  predicate PastConnecting(j: Job) {
    j.made.Some? && ((j.work.Create? && j.pc >= 2) || (j.work.Recreate? && j.pc >= 4))
  }

  lemma {:induction false} ConnectsWhatItMakes(e0: Engine, issued: set<Id>, jobs: seq<Job>, moves: seq<Move>, i: nat)
    requires Start(e0, jobs) && e0.Keys <= issued && Feasible(State(e0, issued, jobs), moves) && i < |Exec(State(e0, issued, jobs), moves).jobs|
    ensures var j := Exec(State(e0, issued, jobs), moves).jobs[i];
      PastConnecting(j) ==> ConnectedBy(State(e0, issued, jobs), moves, j.made.value)
    decreases |moves|
  {
    hide Inv;
    hide JobOk;
    var s0 := State(e0, issued, jobs);
    if moves != [] {
      var before, m := moves[..|moves| - 1], moves[|moves| - 1];
      var s := Exec(s0, before);
      SameWork(s, m);
      ConnectsWhatItMakes(e0, issued, jobs, before, i);
      Reachable(e0, issued, jobs, before);
      JobIsOk(e0, s, i);
      PastBySuccess(e0, s, m, i);
    }
  }

  lemma JobIsOk(e0: Engine, s: State, i: nat)
    requires Inv(e0, s) && i < |s.jobs|
    ensures JobOk(e0, s.engine, s.jobs[i])
  {
  }

  lemma PastBySuccess(e0: Engine, s: State, m: Move, i: nat)
    requires Enabled(s, m) && i < |s.jobs| && JobOk(e0, s.engine, s.jobs[i])
    ensures PastConnecting(Apply(s, m).jobs[i]) ==> s.jobs[i].made.Some? && Apply(s, m).jobs[i].made == s.jobs[i].made
    ensures PastConnecting(Apply(s, m).jobs[i]) ==> PastConnecting(s.jobs[i]) || (m.ok && m.i == i && NextCall(s.jobs[i], m.newId) == ConnectCall(s.jobs[i].made.value))
  {
  }

  /** Every new container has been connected to the service's networks. */
  lemma NewOnesAreConnected(r: Run, id: Id)
    requires r.Successful() && id in r.Ids() && id !in r.e0
    ensures ConnectedBy(State(r.e0, r.issued, Jobs(r.c, Plan(r.c.service, r.actual, r.scale, r.capture))), r.moves, id)
  {
    hide Plan;
    var i := MakerOf(r, id);
    JobFacts(r, i);
    PlanStarts(r.c, r.e0, r.actual, r.scale, r.capture);
    assert Finished(r.After().jobs[i]);
    ConnectsWhatItMakes(r.e0, r.issued, Jobs(r.c, Plan(r.c.service, r.actual, r.scale, r.capture)), r.moves, i);
  }

  // ---------- at every moment ----------

  /** It has made its last call, which removed the container. */
  predicate TookAway(j: Job, id: Id) {
    TakesAway(j.work, id) && j.pc >= if j.work.Remove? then 2 else 5
  }

  lemma {:induction false} SomeoneTookIt(s0: State, moves: seq<Move>, id: Id)
    requires Feasible(s0, moves) && id in s0.engine
    ensures id !in Exec(s0, moves).engine ==> exists i :: 0 <= i < |Exec(s0, moves).jobs| && TookAway(Exec(s0, moves).jobs[i], id)
    decreases |moves|
  {
    if moves != [] {
      var before, m := moves[..|moves| - 1], moves[|moves| - 1];
      SomeoneTookIt(s0, before, id);
      TakenInStep(Exec(s0, before), m, id);
    }
  }

  lemma TakenInStep(s: State, m: Move, id: Id)
    requires Enabled(s, m)
    requires id !in s.engine ==> exists i :: 0 <= i < |s.jobs| && TookAway(s.jobs[i], id)
    ensures id !in Apply(s, m).engine ==> exists i :: 0 <= i < |Apply(s, m).jobs| && TookAway(Apply(s, m).jobs[i], id)
  {
    var s' := Apply(s, m);
    if id !in s.engine {
      var i :| 0 <= i < |s.jobs| && TookAway(s.jobs[i], id);
      assert TookAway(s'.jobs[i], id);
    } else if id !in s'.engine {
      assert NextCall(s.jobs[m.i], m.newId) == RemoveCall(id);
      assert TookAway(s'.jobs[m.i], id);
    }
  }

  /** The new container stands in for the listed one. */
  predicate StandsIn(c: Context, e: Engine, was: Container, id: Id) {
    id in e && e[id] == was.(hash := c.service.hash, state := Created, project := c.project, service := c.service.name)
  }

  /**
   * At every moment of every run, whatever calls have been refused: a listed container that is not surplus is gone
   * only if a new one with its name and number is there and has been connected to the networks.
   */
  lemma NoneGoesBeforeItsReplacement(c: Context, e0: Engine, issued: set<Id>, actual: seq<Snapshot>, scale: nat, capture: seq<nat>, moves: seq<Move>, k: nat)
    requires InSync(c, e0, actual) && e0.Keys <= issued && Capture(Kept(actual, scale), capture)
    requires Feasible(State(e0, issued, Jobs(c, Plan(c.service, actual, scale, capture))), moves)
    requires k < |actual| && k < scale
    ensures var s0 := State(e0, issued, Jobs(c, Plan(c.service, actual, scale, capture)));
      var e := Exec(s0, moves).engine;
      actual[k].id !in e ==> exists id :: id !in e0 && StandsIn(c, e, actual[k].info, id) && ConnectedBy(s0, moves, id)
  {
    hide Plan;
    hide InSync;
    hide Inv;
    var jobs := Jobs(c, Plan(c.service, actual, scale, capture));
    var s0 := State(e0, issued, jobs);
    var s := Exec(s0, moves);
    var was := actual[k];
    ListedAsItIs(c, e0, actual, k);
    if was.id !in s.engine {
      PlanStarts(c, e0, actual, scale, capture);
      SomeoneTookIt(s0, moves, was.id);
      var i :| 0 <= i < |s.jobs| && TookAway(s.jobs[i], was.id);
      WorksStay(s0, moves, i);
      KeptIsReplaced(c, e0, actual, scale, capture, i, k);
      Reachable(e0, issued, jobs, moves);
      JobIsOk(e0, s, i);
      ConnectsWhatItMakes(e0, issued, jobs, moves, i);
      assert StandsIn(c, s.engine, was.info, s.jobs[i].made.value);
    }
  }

  lemma ListedAsItIs(c: Context, e0: Engine, actual: seq<Snapshot>, k: nat)
    requires InSync(c, e0, actual) && k < |actual|
    ensures actual[k].id in e0 && e0[actual[k].id] == actual[k].info && Belongs(actual[k].info, c.project, c.service.name)
  {
  }

  lemma {:induction false} WorksStay(s0: State, moves: seq<Move>, i: nat)
    requires Feasible(s0, moves) && i < |Exec(s0, moves).jobs|
    ensures i < |s0.jobs| && Exec(s0, moves).jobs[i].work == s0.jobs[i].work && Exec(s0, moves).jobs[i].c == s0.jobs[i].c
    decreases |moves|
  {
    if moves != [] {
      SameWork(Exec(s0, moves[..|moves| - 1]), moves[|moves| - 1]);
      WorksStay(s0, moves[..|moves| - 1], i);
    }
  }

  /** Work that takes away a container before the asked-for number replaces it. */
  lemma KeptIsReplaced(c: Context, e0: Engine, actual: seq<Snapshot>, scale: nat, capture: seq<nat>, i: nat, k: nat)
    requires InSync(c, e0, actual) && Capture(Kept(actual, scale), capture) && k < |actual| && k < scale
    requires i < |Plan(c.service, actual, scale, capture)| && TakesAway(Plan(c.service, actual, scale, capture)[i], actual[k].id)
    ensures Plan(c.service, actual, scale, capture)[i] == Recreate(actual[k])
  {
    var w := Plan(c.service, actual, scale, capture)[i];
    PlanAt(c.service, actual, scale, capture, i);
    if w.Remove? {
      RemovalAt(c.service, actual, scale, capture, i);
    } else {
      WorkFacts(c.service, actual, scale, capture, i);
      var j :| 0 <= j < |actual| && actual[j] == w.was;
      assert j == k;
    }
  }
}
