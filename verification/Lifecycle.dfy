/** `setDependentLifecycle`, which flags in place every service that depends on a recreated one. */
module Lifecycle {
  import opened Digraph

  const FORCE_RECREATE := "force_recreate"

  /** A service's extensions, of which only the lifecycle entry is kept; copies of the service share the object. */
  class Extensions {
    var lifecycle: string

    constructor (lifecycle: string)
      ensures this.lifecycle == lifecycle
    {
      this.lifecycle := lifecycle;
    }
  }

  datatype ServiceConfig = ServiceConfig(name: Name, dependencies: seq<Name>, extensions: Extensions?)

  function Objects(services: seq<ServiceConfig>): set<Extensions> {
    set i | 0 <= i < |services| && services[i].extensions != null :: services[i].extensions
  }

  /** The services whose next `ensureService` is forced. */
  ghost function Flagged(services: seq<ServiceConfig>): set<Name>
    reads Objects(services)
  {
    set i | 0 <= i < |services| && IsFlagged(services[i]) :: services[i].name
  }

  predicate IsFlagged(s: ServiceConfig)
    reads if s.extensions == null then {} else {s.extensions}
  {
    s.extensions != null && s.extensions.lifecycle == FORCE_RECREATE
  }

  ghost function DependentNames(services: seq<ServiceConfig>, service: Name): set<Name> {
    set i | 0 <= i < |services| && service in services[i].dependencies :: services[i].name
  }

  /** Every service has an extensions object of its own. */
  ghost predicate Allocated(services: seq<ServiceConfig>) {
    && (forall i :: 0 <= i < |services| ==> services[i].extensions != null)
    && (forall i, k :: 0 <= i < k < |services| ==> services[i].extensions != services[k].extensions)
  }

  /**
   * Copies made before the call see the flag through the shared object exactly when there was one; a
   * service without extensions gets a new object in the project that its earlier copies do not have.
   */
  method SetDependentLifecycle(services: array<ServiceConfig>, service: Name, strategy: string)
    modifies services, Objects(services[..])
    ensures forall i :: 0 <= i < services.Length ==>
              services[i] == old(services[i]).(extensions := services[i].extensions)
    ensures forall i :: 0 <= i < services.Length && old(services[i]).extensions != null ==>
              services[i].extensions == old(services[i]).extensions
    ensures forall i :: 0 <= i < services.Length && service in services[i].dependencies ==>
              services[i].extensions != null && services[i].extensions.lifecycle == strategy
    ensures forall i :: 0 <= i < services.Length && old(services[i]).extensions == null ==>
              if service in services[i].dependencies then services[i].extensions != null && fresh(services[i].extensions)
              else services[i].extensions == null
    ensures forall x :: x in old(Objects(services[..])) ==>
              (x.lifecycle == old(x.lifecycle)
               || exists i :: 0 <= i < services.Length && service in services[i].dependencies && services[i].extensions == x)
  {
    ghost var before := services[..];
    ghost var objects := Objects(before);
    for i := 0 to services.Length
      modifies services, Objects(before)
      invariant forall k :: 0 <= k < services.Length ==> services[k] == before[k].(extensions := services[k].extensions)
      invariant forall k :: i <= k < services.Length ==> services[k] == before[k]
      invariant forall k :: 0 <= k < i && before[k].extensions != null ==> services[k].extensions == before[k].extensions
      invariant forall k :: 0 <= k < i && service in before[k].dependencies ==>
                  services[k].extensions != null && services[k].extensions.lifecycle == strategy
      invariant forall k :: 0 <= k < i && before[k].extensions == null ==>
                  if service in before[k].dependencies then services[k].extensions != null && fresh(services[k].extensions)
                  else services[k].extensions == null
      invariant forall x :: x in objects ==>
                  (x.lifecycle == old(x.lifecycle)
                   || exists k :: 0 <= k < i && service in before[k].dependencies && before[k].extensions == x)
    {
      if service in services[i].dependencies {
        assert services[i].extensions != null ==> services[i].extensions in objects;
        SetLifecycle(services, i, strategy);
      }
    }
  }

  /** Some dependent of the service has this object as its extensions. */
  ghost predicate SharedWithDependent(services: seq<ServiceConfig>, service: Name, x: Extensions) {
    exists k :: 0 <= k < |services| && service in services[k].dependencies && services[k].extensions == x
  }

  /**
   * The call at the end of `recreateContainer`. A copy of a service made before it is flagged afterwards iff it
   * was or shares its extensions with a dependent; in the project the dependents are flagged as well. If every
   * service has extensions of its own, the flagged ones become those flagged before and the dependents.
   */
  method ForceDependents(services: array<ServiceConfig>, service: Name)
    modifies services, Objects(services[..])
    ensures forall i :: 0 <= i < services.Length ==>
              services[i] == old(services[i]).(extensions := services[i].extensions)
    ensures forall i :: 0 <= i < services.Length ==>
              (IsFlagged(old(services[i])) <==>
                 old(IsFlagged(services[i]))
                 || (old(services[i]).extensions != null && SharedWithDependent(old(services[..]), service, old(services[i]).extensions)))
    ensures forall i :: 0 <= i < services.Length ==>
              (IsFlagged(services[i]) <==> IsFlagged(old(services[i])) || service in services[i].dependencies)
    ensures old(Allocated(services[..])) ==> services[..] == old(services[..])
    ensures old(Allocated(services[..])) ==>
              Flagged(services[..]) == old(Flagged(services[..])) + DependentNames(services[..], service)
  {
    ghost var before := services[..];
    assert forall i :: 0 <= i < |before| && before[i].extensions != null ==> before[i].extensions in Objects(before);
    SetDependentLifecycle(services, service, FORCE_RECREATE);
    forall i | 0 <= i < |before| && before[i].extensions != null && SharedWithDependent(before, service, before[i].extensions)
      ensures IsFlagged(before[i])
    {
      var k :| 0 <= k < |before| && service in before[k].dependencies && before[k].extensions == before[i].extensions;
      assert services[k].extensions == before[k].extensions;
    }
    if old(Allocated(services[..])) {
      assert services[..] == before;
    }
  }

  /** The extensions object of a service, if it has one. */
  function Own(s: ServiceConfig): set<Extensions> {
    if s.extensions == null then {} else {s.extensions}
  }

  /** Sets the entry for service `i`, giving it extensions if it has none. */
  method SetLifecycle(services: array<ServiceConfig>, i: nat, strategy: string)
    requires i < services.Length
    modifies services, Own(services[i])
    ensures services[..] == old(services[..])[i := services[i]]
    ensures services[i] == old(services[i]).(extensions := services[i].extensions)
    ensures services[i].extensions != null && services[i].extensions.lifecycle == strategy
    ensures if old(services[i]).extensions != null then services[i].extensions == old(services[i]).extensions
            else fresh(services[i].extensions)
  {
    var s := services[i];
    if s.extensions == null {
      var x := new Extensions(strategy);
      s := s.(extensions := x);
    }
    s.extensions.lifecycle := strategy;
    services[i] := s;
  }
}
