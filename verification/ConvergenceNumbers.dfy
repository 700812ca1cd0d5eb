/** A successful `ensureService` keeps the container numbers of a service distinct. */
module ConvergenceNumbers {
  import opened Wrappers
  import opened ContainerEngine
  import opened Convergence
  import opened ConvergencePlan
  import opened ConvergenceResults

  ghost predicate DistinctNumbers(e: Engine, project: string, service: string) {
    forall x, y :: x in ServiceIds(e, project, service) && y in ServiceIds(e, project, service) && x != y && e[x].number.Some?
      ==> e[x].number != e[y].number
  }

  /** How a container came to be: kept as it was, made in place of a kept one, or made as a missing one. */
  datatype Origin = Same(k: nat) | Replacing(k: nat, i: nat) | Added(i: nat)

  ghost predicate Explains(r: Run, id: Id, o: Origin)
    requires r.Successful() && id in r.After().engine
  {
    var s, kept := r.After(), r.KeptPart();
    match o
    case Same(k) => k < |kept| && kept[k].id == id && s.engine[id].number == kept[k].info.number
    case Replacing(k, i) =>
      && k < |kept| && i < |s.jobs| && s.jobs[i].work == Recreate(kept[k]) && s.jobs[i].made == Some(id)
      && s.engine[id].number == kept[k].info.number
    case Added(i) =>
      i < Missing(r.actual, r.scale) && i < |s.jobs| && s.jobs[i].made == Some(id) && s.engine[id].number == Some(NextNumber(r.actual) + i)
  }

  lemma OriginOf(r: Run, id: Id) returns (o: Origin)
    requires r.Successful() && id in r.Ids()
    ensures Explains(r, id, o)
  {
    if id in r.e0 {
      IdsAfterSuccess(r);
      StillThere(r, id);
      var k :| 0 <= k < |r.KeptPart()| && r.KeptPart()[k].id == id;
      assert r.KeptPart()[k] == r.actual[k];
      o := Same(k);
    } else {
      var i := MakerOf(r, id);
      JobFacts(r, i);
      var w := r.After().jobs[i].work;
      if w.Recreate? {
        var k :| 0 <= k < |r.KeptPart()| && r.KeptPart()[k] == w.was;
        o := Replacing(k, i);
      } else {
        o := Added(i);
      }
    }
  }

  /** Two containers cannot stand for the same kept one. */
  lemma OneForEach(r: Run, x: Id, y: Id, ox: Origin, oy: Origin)
    requires r.Successful() && x in r.Ids() && y in r.Ids() && x != y
    requires Explains(r, x, ox) && Explains(r, y, oy)
    ensures !ox.Added? && !oy.Added? ==> ox.k != oy.k
    ensures ox.Added? && oy.Added? ==> ox.i != oy.i
  {
    TakenAway(r, x);
    TakenAway(r, y);
    if ox.Replacing? && oy.Replacing? {
      if ox.i != oy.i {
        ReplacementsDiffer(r, ox.i, oy.i);
      }
    } else if ox.Replacing? && oy.Same? {
      assert ox.i in ReplacedBy(r.After().jobs) && ReplacedBy(r.After().jobs)[ox.i] == r.KeptPart()[ox.k].id;
    } else if ox.Same? && oy.Replacing? {
      assert oy.i in ReplacedBy(r.After().jobs) && ReplacedBy(r.After().jobs)[oy.i] == r.KeptPart()[oy.k].id;
    }
  }

  lemma KeptNumbers(r: Run, i: nat, k: nat)
    requires r.Valid() && DistinctNumbers(r.e0, r.c.project, r.c.service.name)
    requires i < |r.KeptPart()| && k < |r.KeptPart()|
    ensures i != k && r.KeptPart()[i].info.number.Some? ==> r.KeptPart()[i].info.number != r.KeptPart()[k].info.number
    ensures r.KeptPart()[i].info.number.Some? ==> r.KeptPart()[i].info.number.value < NextNumber(r.actual)
  {
    assert r.KeptPart()[i] == r.actual[i] && r.KeptPart()[k] == r.actual[k];
    assert i != k ==> r.actual[i].id != r.actual[k].id;
  }

  /** Distinct numbers stay distinct: replacements keep theirs, added ones lie above all. */
  lemma NumbersStayDistinct(r: Run)
    requires r.Successful() && DistinctNumbers(r.e0, r.c.project, r.c.service.name)
    ensures DistinctNumbers(r.After().engine, r.c.project, r.c.service.name)
  {
    forall x, y | x in r.Ids() && y in r.Ids() && x != y && r.After().engine[x].number.Some?
      ensures r.After().engine[x].number != r.After().engine[y].number
    {
      var ox := OriginOf(r, x);
      var oy := OriginOf(r, y);
      OneForEach(r, x, y, ox, oy);
      if !ox.Added? {
        KeptNumbers(r, ox.k, if oy.Added? then ox.k else oy.k);
      } else if !oy.Added? {
        KeptNumbers(r, oy.k, oy.k);
      }
    }
  }
}
