/** What `ensureScale` and `ensureService` decide to do, from a listing of the service's containers. */
module ConvergencePlan {
  import opened Wrappers
  import opened ContainerEngine
  import opened Convergence

  /** The number after the largest parsed one, and at least 1. */
  function NextNumber(actual: seq<Snapshot>): (n: int)
    ensures n >= 1
    ensures forall k :: 0 <= k < |actual| && actual[k].info.number.Some? ==> actual[k].info.number.value < n
  {
    if actual == [] then 1
    else
      var rest := NextNumber(actual[..|actual| - 1]);
      var last := actual[|actual| - 1].info.number;
      if last.Some? && last.value >= rest then last.value + 1 else rest
  }

  /** It is the least positive number above all parsed ones. */
  lemma {:induction false} NextNumberIsLeast(actual: seq<Snapshot>, n: int)
    requires n >= 1 && forall k :: 0 <= k < |actual| && actual[k].info.number.Some? ==> actual[k].info.number.value < n
    ensures NextNumber(actual) <= n
  {
    if actual != [] {
      NextNumberIsLeast(actual[..|actual| - 1], n);
    }
  }

  predicate AllParsable(actual: seq<Snapshot>) {
    forall k :: 0 <= k < |actual| ==> actual[k].info.number.Some?
  }

  /** `getScale`: the configured scale, or no scale when a custom container name rules it out. */
  function Scale(s: ServiceSpec): Option<int> {
    var fromDeploy := if s.replicas.Some? then s.replicas.value else 1;
    var scale := if s.scale != 0 then s.scale else fromDeploy;
    if scale > 1 && s.containerName != "" then None else Some(scale)
  }

  /** The number of containers a configuration asks for: its scale, or else its replicas, or else one. */
  predicate Asks(s: ServiceSpec, n: int) {
    && (s.scale != 0 ==> n == s.scale)
    && (s.scale == 0 && s.replicas.Some? ==> n == s.replicas.value)
    && (s.scale == 0 && s.replicas.None? ==> n == 1)
  }

  lemma ScaleIsAsked(s: ServiceSpec)
    ensures Scale(s).Some? ==> forall n :: Asks(s, n) <==> n == Scale(s).value
    ensures Scale(s).None? <==> s.containerName != "" && exists n :: n > 1 && Asks(s, n)
  {
    var n := if s.scale != 0 then s.scale else if s.replicas.Some? then s.replicas.value else 1;
    assert Asks(s, n);
  }

  function Missing(actual: seq<Snapshot>, scale: nat): nat {
    if |actual| < scale then scale - |actual| else 0
  }

  function Kept(actual: seq<Snapshot>, scale: nat): seq<Snapshot> {
    if |actual| > scale then actual[..scale] else actual
  }

  function Surplus(actual: seq<Snapshot>, scale: nat): seq<Snapshot> {
    if |actual| > scale then actual[scale..] else []
  }

  function CreateWork(actual: seq<Snapshot>, scale: nat): (w: seq<Work>)
    ensures |w| == Missing(actual, scale)
  {
    seq(Missing(actual, scale), i => Create(NextNumber(actual) + i))
  }

  function RemoveWork(surplus: seq<Snapshot>): (w: seq<Work>)
    ensures |w| == |surplus|
  {
    seq(|surplus|, i requires 0 <= i < |surplus| => Remove(surplus[i]))
  }

  predicate Diverged(s: ServiceSpec, k: Snapshot) {
    k.info.hash != s.hash || s.forceRecreate
  }

  predicate NeedsRestart(s: ServiceSpec, k: Snapshot) {
    !Diverged(s, k) && k.info.state == Exited
  }

  predicate NeedsWork(s: ServiceSpec, k: Snapshot) {
    Diverged(s, k) || NeedsRestart(s, k)
  }

  /** Positions of the kept containers a goroutine is started for, in loop order. */
  function Needy(s: ServiceSpec, kept: seq<Snapshot>): (idx: seq<nat>)
    ensures forall t :: 0 <= t < |idx| ==> idx[t] < |kept| && NeedsWork(s, kept[idx[t]])
    ensures forall t, u :: 0 <= t < u < |idx| ==> idx[t] < idx[u]
    ensures forall k :: 0 <= k < |kept| && NeedsWork(s, kept[k]) ==> k in idx
  {
    if kept == [] then []
    else
      var n := |kept| - 1;
      var rest := Needy(s, kept[..n]);
      if NeedsWork(s, kept[n]) then rest + [n] else rest
  }

  /**
   * The container each of these goroutines is given. The closures refer to the loop's variable, so the
   * goroutine of iteration `k` gets the element the variable holds when it starts: that of iteration `k`
   * or of any later one.
   */
  predicate Capture(kept: seq<Snapshot>, capture: seq<nat>) {
    |capture| == |kept| && forall k :: 0 <= k < |kept| ==> k <= capture[k] < |kept|
  }

  /** The capture of a variable that is new in every iteration. */
  function OwnElement(kept: seq<Snapshot>): (capture: seq<nat>)
    ensures Capture(kept, capture)
  {
    seq(|kept|, k => k)
  }

  /** What the goroutine of iteration `k` does to the container it was given. */
  function WorkFor(s: ServiceSpec, kept: seq<Snapshot>, capture: seq<nat>, k: nat): Work
    requires Capture(kept, capture) && k < |kept|
  {
    if Diverged(s, kept[k]) then Recreate(kept[capture[k]]) else Restart(kept[capture[k]])
  }

  function KeptWork(s: ServiceSpec, kept: seq<Snapshot>, capture: seq<nat>): (w: seq<Work>)
    requires Capture(kept, capture)
    ensures |w| == |Needy(s, kept)|
  {
    var idx := Needy(s, kept);
    seq(|idx|, t requires 0 <= t < |idx| => WorkFor(s, kept, capture, idx[t]))
  }

  function Plan(s: ServiceSpec, actual: seq<Snapshot>, scale: nat, capture: seq<nat>): (w: seq<Work>)
    requires Capture(Kept(actual, scale), capture)
  {
    CreateWork(actual, scale) + RemoveWork(Surplus(actual, scale)) + KeptWork(s, Kept(actual, scale), capture)
  }

  function Jobs(c: Context, works: seq<Work>): seq<Job> {
    seq(|works|, i requires 0 <= i < |works| => Job(c, works[i], 0, None, false))
  }

  /** The listing shows exactly the service's containers as they are. */
  ghost predicate InSync(c: Context, e: Engine, actual: seq<Snapshot>) {
    && (forall k :: 0 <= k < |actual| ==>
          actual[k].id in e && e[actual[k].id] == actual[k].info && Belongs(actual[k].info, c.project, c.service.name))
    && (forall i, k :: 0 <= i < k < |actual| ==> actual[i].id != actual[k].id)
    && (forall id :: id in ServiceIds(e, c.project, c.service.name) ==> exists k :: 0 <= k < |actual| && actual[k].id == id)
  }

  predicate Listed(list: seq<Snapshot>, w: Snapshot) {
    exists k :: 0 <= k < |list| && list[k] == w
  }

  function KeptStart(actual: seq<Snapshot>, scale: nat): nat {
    Missing(actual, scale) + |Surplus(actual, scale)|
  }

  lemma ConcatAt(a: seq<Work>, b: seq<Work>, d: seq<Work>, i: nat)
    ensures i < |a| ==> (a + b + d)[i] == a[i]
    ensures |a| <= i < |a| + |b| ==> (a + b + d)[i] == b[i - |a|]
    ensures |a| + |b| <= i < |a + b + d| ==> (a + b + d)[i] == d[i - |a| - |b|]
  {
  }

  function PlanLength(s: ServiceSpec, actual: seq<Snapshot>, scale: nat): nat {
    KeptStart(actual, scale) + |Needy(s, Kept(actual, scale))|
  }

  /** What stands where in the plan: creations, then removals, then the kept containers. */
  function WorkAt(s: ServiceSpec, actual: seq<Snapshot>, scale: nat, capture: seq<nat>, i: nat): Work
    requires Capture(Kept(actual, scale), capture) && i < PlanLength(s, actual, scale)
  {
    if i < Missing(actual, scale) then Create(NextNumber(actual) + i)
    else if i < KeptStart(actual, scale) then Remove(Surplus(actual, scale)[i - Missing(actual, scale)])
    else WorkFor(s, Kept(actual, scale), capture, Needy(s, Kept(actual, scale))[i - KeptStart(actual, scale)])
  }

  lemma PlanAt(s: ServiceSpec, actual: seq<Snapshot>, scale: nat, capture: seq<nat>, i: nat)
    requires Capture(Kept(actual, scale), capture)
    ensures |Plan(s, actual, scale, capture)| == PlanLength(s, actual, scale)
    ensures i < PlanLength(s, actual, scale) ==> Plan(s, actual, scale, capture)[i] == WorkAt(s, actual, scale, capture, i)
  {
    var a, b, d := CreateWork(actual, scale), RemoveWork(Surplus(actual, scale)), KeptWork(s, Kept(actual, scale), capture);
    assert Plan(s, actual, scale, capture) == a + b + d;
    ConcatAt(a, b, d, i);
  }

  /** Every planned piece of work is on a listed container, taken from the right part of the listing. */
  lemma WorkFacts(s: ServiceSpec, actual: seq<Snapshot>, scale: nat, capture: seq<nat>, i: nat)
    requires Capture(Kept(actual, scale), capture) && i < PlanLength(s, actual, scale)
    ensures var w := WorkAt(s, actual, scale, capture, i);
      && (w.Create? <==> i < Missing(actual, scale))
      && (w.Create? ==> w.number == NextNumber(actual) + i)
      && (w.Remove? ==> Listed(Surplus(actual, scale), w.was))
      && (w.Recreate? || w.Restart? ==> Listed(Kept(actual, scale), w.was))
      && (w.Recreate? || w.Restart? <==> i >= KeptStart(actual, scale))
      && (!w.Create? ==> Listed(actual, w.was))
  {
    var w := WorkAt(s, actual, scale, capture, i);
    if w.Remove? {
      var k := i - Missing(actual, scale);
      assert Surplus(actual, scale)[k] == w.was == actual[scale + k];
    } else if !w.Create? {
      var k := capture[Needy(s, Kept(actual, scale))[i - KeptStart(actual, scale)]];
      assert Kept(actual, scale)[k] == w.was == actual[k];
    }
  }

  lemma RemovalAt(s: ServiceSpec, actual: seq<Snapshot>, scale: nat, capture: seq<nat>, i: nat)
    requires Capture(Kept(actual, scale), capture)
    requires i < |Plan(s, actual, scale, capture)| && Plan(s, actual, scale, capture)[i].Remove?
    ensures Missing(actual, scale) <= i && scale + i - Missing(actual, scale) < |actual|
    ensures Plan(s, actual, scale, capture)[i].was == actual[scale + i - Missing(actual, scale)]
  {
    PlanAt(s, actual, scale, capture, i);
  }

  /** The kept container in whose iteration a replacement was started. */
  lemma ReplacementAt(s: ServiceSpec, actual: seq<Snapshot>, scale: nat, capture: seq<nat>, i: nat) returns (n: nat)
    requires Capture(Kept(actual, scale), capture) && i < PlanLength(s, actual, scale)
    requires WorkAt(s, actual, scale, capture, i).Recreate?
    ensures KeptStart(actual, scale) <= i && i - KeptStart(actual, scale) < |Needy(s, Kept(actual, scale))|
    ensures n == Needy(s, Kept(actual, scale))[i - KeptStart(actual, scale)] && n < |Kept(actual, scale)|
    ensures Diverged(s, Kept(actual, scale)[n]) && capture[n] < |actual|
    ensures WorkAt(s, actual, scale, capture, i).was == actual[capture[n]]
  {
    n := Needy(s, Kept(actual, scale))[i - KeptStart(actual, scale)];
  }

  lemma PlanStarts(c: Context, e: Engine, actual: seq<Snapshot>, scale: nat, capture: seq<nat>)
    requires InSync(c, e, actual) && Capture(Kept(actual, scale), capture)
    ensures Start(e, Jobs(c, Plan(c.service, actual, scale, capture)))
  {
    var plan := Plan(c.service, actual, scale, capture);
    forall i | 0 <= i < |plan|
      ensures Current(e, plan[i])
    {
      PlanAt(c.service, actual, scale, capture, i);
      WorkFacts(c.service, actual, scale, capture, i);
    }
  }
}
