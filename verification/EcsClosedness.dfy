/** The names a conversion writes, and what follows for the template as a whole. */
module EcsClosedness {
  import opened EcsNames
  import opened EcsTemplate
  import opened EcsReferences

  function WrittenNames(p: Project, a: Account): set<string> {
    set w | w in AllWrites(p, a) :: w.name
  }

  lemma WrittenBy(p: Project, a: Account, w: Write)
    requires w in EnsuredWrites(p, a) || w in SharedWrites(p, a) || w in AllServiceWrites(p, a) || w in CapacityWrites(p, a)
    ensures w in AllWrites(p, a) && w.name in WrittenNames(p, a)
  {
  }

  lemma ClusterIsWritten(p: Project, a: Account)
    requires a.cluster.None?
    ensures "Cluster" in WrittenNames(p, a)
  {
    var w := ClusterWrites(p, a)[0];
    assert w in EnsuredWrites(p, a);
    WrittenBy(p, a, w);
  }

  lemma NetworkIsWritten(p: Project, a: Account, name: string)
    requires HasNetwork(p, name) && name !in a.securityGroups
    ensures NetworkName(name) in WrittenNames(p, a)
  {
    var i :| 0 <= i < |p.networks| && p.networks[i].name == name;
    var w := NetworkWrites(p, a, p.networks[i])[0];
    InNetworks(p, a, w);
    assert w in EnsuredWrites(p, a);
    WrittenBy(p, a, w);
  }

  lemma VolumeIsWritten(p: Project, a: Account, name: string)
    requires HasVolume(p, name)
    ensures name !in a.filesystems ==> VolumeName(name) in WrittenNames(p, a)
    ensures AccessPointName(name) in WrittenNames(p, a)
  {
    var i :| 0 <= i < |p.volumes| && p.volumes[i].name == name;
    var v := p.volumes[i];
    if name !in a.filesystems {
      var w := VolumeWrites(a, v)[0];
      InVolumes(p, a, w);
      assert w in EnsuredWrites(p, a);
      WrittenBy(p, a, w);
    }
    InAccessPoints(p, a, AccessPointWrite(a, v));
    assert AccessPointWrite(a, v) in [AccessPointWrite(a, p.volumes[i])];
    assert AccessPointWrite(a, v) in SharedWrites(p, a);
    WrittenBy(p, a, AccessPointWrite(a, v));
  }

  lemma MountTargetIsWritten(p: Project, a: Account, name: string, subnet: string)
    requires HasVolume(p, name) && subnet in a.subnets
    ensures MountTargetName(name, subnet) in WrittenNames(p, a)
  {
    var i :| 0 <= i < |p.volumes| && p.volumes[i].name == name;
    var v := p.volumes[i];
    var w := MountTargetWrite(p, a, v, subnet);
    var k :| 0 <= k < |a.subnets| && a.subnets[k] == subnet;
    InMountTargets(p, a, v, a.subnets, w);
    InMounts(p, a, w);
    assert w in SharedWrites(p, a);
    WrittenBy(p, a, w);
  }

  lemma SecretIsWritten(p: Project, a: Account, i: nat)
    requires i < |p.secrets| && !p.secrets[i].external
    ensures SecretName(p.secrets[i].name) in WrittenNames(p, a)
  {
    var s := p.secrets[i];
    var w := SecretWrites(s)[0];
    InSecrets(p, w);
    assert w in SharedWrites(p, a);
    WrittenBy(p, a, w);
  }

  lemma SharedAreWritten(p: Project, a: Account)
    ensures "LogGroup" in WrittenNames(p, a) && "CloudMap" in WrittenNames(p, a)
  {
    WrittenBy(p, a, LogGroupWrite(p));
    WrittenBy(p, a, CloudMapWrite(p, a));
  }

  lemma LoadBalancerIsWritten(p: Project, a: Account)
    requires a.loadBalancer.None? && !NoPorts(p)
    ensures "LoadBalancer" in WrittenNames(p, a)
  {
    var w := LoadBalancerWrite(p, a);
    assert w in EnsuredWrites(p, a);
    WrittenBy(p, a, w);
  }

  lemma ServiceWritesAreWritten(p: Project, a: Account, s: ServiceConfig, w: Write)
    requires s in p.services && (w in ServiceWrites(p, a, s) || w in ScalingWrites(a, s))
    ensures w.name in WrittenNames(p, a)
  {
    var i :| 0 <= i < |p.services| && p.services[i] == s;
    InServices(p, a, w);
    assert w in AllServiceWrites(p, a);
    WrittenBy(p, a, w);
  }

  lemma ServiceIsWritten(p: Project, a: Account, s: ServiceConfig)
    requires s in p.services
    ensures ServiceName(s.name) in WrittenNames(p, a) && TaskDefinitionName(s.name) in WrittenNames(p, a)
    ensures ExecutionRoleName(s.name) in WrittenNames(p, a) && DiscoveryName(s.name) in WrittenNames(p, a)
    ensures HasTaskRole(s) ==> TaskRoleName(s.name) in WrittenNames(p, a)
  {
    ServiceWritesAreWritten(p, a, s, Write(ServiceName(s.name), ServiceResource(p, a, s)));
    ServiceWritesAreWritten(p, a, s, TaskDefinitionWrite(p, a, s));
    ServiceWritesAreWritten(p, a, s, ExecutionRoleWrite(p, s));
    ServiceWritesAreWritten(p, a, s, DiscoveryWrite(s));
    if HasTaskRole(s) {
      var w := TaskRoleWrites(a, s)[0];
      assert w in ServiceWrites(p, a, s);
      ServiceWritesAreWritten(p, a, s, w);
    }
  }

  lemma PortsAreWritten(p: Project, a: Account, s: ServiceConfig, i: nat)
    requires s in p.services && i < |s.ports|
    ensures TargetGroupName(s.name, s.ports[i].protocol, s.ports[i].published) in WrittenNames(p, a)
    ensures ListenerName(s.name, s.ports[i].protocol, s.ports[i].target) in WrittenNames(p, a)
  {
    PortWriteIsWritten(p, a, s, i, TargetGroupWrite(a, s, s.ports[i]));
    PortWriteIsWritten(p, a, s, i, ListenerWrite(a, s, s.ports[i]));
  }

  lemma PortWriteIsWritten(p: Project, a: Account, s: ServiceConfig, i: nat, w: Write)
    requires s in p.services && i < |s.ports| && w in PortWrites(p, a, s, s.ports[i])
    ensures w.name in WrittenNames(p, a)
  {
    InPorts(p, a, s, w);
    assert w in ServiceWrites(p, a, s);
    ServiceWritesAreWritten(p, a, s, w);
  }

  lemma ScalingIsWritten(p: Project, a: Account, s: ServiceConfig)
    requires s in p.services && Scales(s)
    ensures AutoScalingRoleName(s.name) in WrittenNames(p, a) && ScalableTargetName(s.name) in WrittenNames(p, a)
  {
    ServiceWritesAreWritten(p, a, s, ScalingWrites(a, s)[0]);
    ServiceWritesAreWritten(p, a, s, ScalingWrites(a, s)[1]);
  }

  lemma CapacityIsWritten(p: Project, a: Account, i: nat)
    requires i < |CapacityWrites(p, a)|
    ensures CapacityWrites(p, a)[i].name in WrittenNames(p, a)
  {
    WrittenBy(p, a, CapacityWrites(p, a)[i]);
  }

  lemma AccountIsComplete(p: Project, a: Account)
    ensures AccountComplete(p, a, WrittenNames(p, a))
  {
    SharedAreWritten(p, a);
    if a.cluster.None? {
      ClusterIsWritten(p, a);
    }
    if a.loadBalancer.None? && !NoPorts(p) {
      LoadBalancerIsWritten(p, a);
    }
    forall i | 0 <= i < |CapacityWrites(p, a)|
      ensures CapacityWrites(p, a)[i].name in WrittenNames(p, a)
    {
      CapacityIsWritten(p, a, i);
    }
  }

  lemma VolumesAreComplete(p: Project, a: Account)
    ensures VolumesComplete(p, a, WrittenNames(p, a))
  {
    forall x | HasVolume(p, x)
      ensures x !in a.filesystems ==> VolumeName(x) in WrittenNames(p, a)
      ensures AccessPointName(x) in WrittenNames(p, a)
    {
      VolumeIsWritten(p, a, x);
    }
    forall x, subnet | HasVolume(p, x) && subnet in a.subnets
      ensures MountTargetName(x, subnet) in WrittenNames(p, a)
    {
      MountTargetIsWritten(p, a, x, subnet);
    }
  }

  lemma ServiceIsComplete(p: Project, a: Account, s: ServiceConfig)
    requires s in p.services
    ensures ServiceComplete(s, WrittenNames(p, a))
  {
    ServiceIsWritten(p, a, s);
    forall i | 0 <= i < |s.ports|
      ensures TargetGroupName(s.name, s.ports[i].protocol, s.ports[i].published) in WrittenNames(p, a)
      ensures ListenerName(s.name, s.ports[i].protocol, s.ports[i].target) in WrittenNames(p, a)
    {
      PortsAreWritten(p, a, s, i);
    }
    if Scales(s) {
      ScalingIsWritten(p, a, s);
    }
  }

  lemma WrittenIsComplete(p: Project, a: Account)
    ensures Complete(p, a, WrittenNames(p, a))
  {
    AccountIsComplete(p, a);
    VolumesAreComplete(p, a);
    forall x | HasNetwork(p, x) && x !in a.securityGroups
      ensures NetworkName(x) in WrittenNames(p, a)
    {
      NetworkIsWritten(p, a, x);
    }
    forall i | 0 <= i < |p.secrets| && !p.secrets[i].external
      ensures SecretName(p.secrets[i].name) in WrittenNames(p, a)
    {
      SecretIsWritten(p, a, i);
    }
    forall s | s in p.services
      ensures ServiceComplete(s, WrittenNames(p, a))
    {
      ServiceIsComplete(p, a, s);
    }
  }

  // ---------- the template ----------

  /** The Cluster resource as it is first written and as it may be changed. */
  function ClustersWritten(p: Project): set<Write> {
    {Write("Cluster", ClusterResource(p)), Write("Cluster", WithCapacityProvider(ClusterResource(p)))}
  }

  function GroundOf(p: Project, a: Account): Ground {
    Ground(p, a, WrittenNames(p, a), ClustersWritten(p), Level)
  }

  lemma GroundIsSound(p: Project, a: Account)
    ensures Sound(GroundOf(p, a))
  {
    WrittenIsComplete(p, a);
    LevelIsGraded(a);
  }

  lemma KeysAreWritten(p: Project, a: Account, k: string)
    ensures k in TemplateOf(p, a) <==> k in WrittenNames(p, a)
    ensures k in TemplateOf(p, a) ==> Write(k, TemplateOf(p, a)[k]) in AllWrites(p, a)
  {
    BuiltFromWrites(AllWrites(p, a), k);
  }

  predicate IsService(p: Project, name: string, r: Resource, a: Account, s: ServiceConfig) {
    s in p.services && name == ServiceName(s.name) && r == ServiceResource(p, a, s)
  }

  /** A reference inside the template: to a lower resource, or from a service to one it depends on. */
  lemma ReferenceFacts(p: Project, a: Account, k: string, name: string)
    requires Convertible(p, a) && k in TemplateOf(p, a) && Mentions(TemplateOf(p, a)[k], name)
    ensures (name in TemplateOf(p, a) && (SubnetsNamed(a) ==> Level(name) < Level(k)))
            || exists s :: IsService(p, k, TemplateOf(p, a)[k], a, s) && name in ServiceNames(s.dependsOn)
  {
    var g := GroundOf(p, a);
    GroundIsSound(p, a);
    KeysAreWritten(p, a, k);
    KeysAreWritten(p, a, name);
    var w := Write(k, TemplateOf(p, a)[k]);
    EveryWriteIsGood(g, w);
    GoodMentions(g, w, name);
    if ServiceDependency(g, w, name) {
      var s :| s in p.services && w == Write(ServiceName(s.name), ServiceResource(p, a, s)) && name in ServiceNames(s.dependsOn);
      assert IsService(p, k, TemplateOf(p, a)[k], a, s);
    }
  }

  /** The resources at the level of services are the services. */
  lemma OnlyServices(p: Project, a: Account, k: string) returns (s: ServiceConfig)
    requires Convertible(p, a) && SubnetsNamed(a) && k in TemplateOf(p, a) && Level(k) == 6
    ensures IsService(p, k, TemplateOf(p, a)[k], a, s)
  {
    var g := GroundOf(p, a);
    GroundIsSound(p, a);
    KeysAreWritten(p, a, k);
    EveryWriteIsGood(g, Write(k, TemplateOf(p, a)[k]));
    s := ServiceAtSix(g, Write(k, TemplateOf(p, a)[k]));
  }

  predicate DefinesService(p: Project, name: string) {
    exists s :: s in p.services && s.name == name
  }

  /** Some service's resource bears the name a dependency is referred to by. */
  predicate DependenciesResolve(p: Project) {
    forall s :: s in p.services ==> forall d :: d in s.dependsOn ==> exists t :: t in p.services && ServiceName(t.name) == ServiceName(d)
  }

  /** No two services have the same normalised name. */
  predicate DistinctServices(p: Project) {
    forall i, k :: 0 <= i < k < |p.services| ==> ServiceName(p.services[i].name) != ServiceName(p.services[k].name)
  }

  lemma SameService(p: Project, s: ServiceConfig, t: ServiceConfig)
    requires DistinctServices(p) && s in p.services && t in p.services && ServiceName(s.name) == ServiceName(t.name)
    ensures s == t
  {
    var i :| 0 <= i < |p.services| && p.services[i] == s;
    var k :| 0 <= k < |p.services| && p.services[k] == t;
  }

  lemma ServiceKey(p: Project, a: Account, s: ServiceConfig)
    requires s in p.services
    ensures ServiceName(s.name) in TemplateOf(p, a) && Level(ServiceName(s.name)) == 6
  {
    ServiceIsWritten(p, a, s);
    KeysAreWritten(p, a, ServiceName(s.name));
    ResourceLevels(s.name);
  }

  /** With distinct names every service's own resource is in the template. */
  lemma OwnResource(p: Project, a: Account, s: ServiceConfig)
    requires Convertible(p, a) && SubnetsNamed(a) && DistinctServices(p) && s in p.services
    ensures ServiceName(s.name) in TemplateOf(p, a) && TemplateOf(p, a)[ServiceName(s.name)] == ServiceResource(p, a, s)
  {
    ServiceKey(p, a, s);
    var t := OnlyServices(p, a, ServiceName(s.name));
    SameService(p, s, t);
  }

  lemma DependencyIsMentioned(p: Project, a: Account, s: ServiceConfig, d: string)
    requires d in s.dependsOn
    ensures Mentions(ServiceResource(p, a, s), ServiceName(d))
  {
    var i :| 0 <= i < |s.dependsOn| && s.dependsOn[i] == d;
    assert ServiceNames(s.dependsOn)[i] == ServiceName(d);
  }

  /** Every reference of the template is to a resource of the template if all dependencies resolve ... */
  lemma ClosedIfResolved(p: Project, a: Account)
    requires Convertible(p, a) && DependenciesResolve(p)
    ensures ClosedTemplate(TemplateOf(p, a))
  {
    var t := TemplateOf(p, a);
    forall k, name | k in t && Mentions(t[k], name)
      ensures name in t
    {
      ReferenceFacts(p, a, k, name);
      if name !in t {
        var s :| IsService(p, k, t[k], a, s) && name in ServiceNames(s.dependsOn);
        var i :| 0 <= i < |s.dependsOn| && name == ServiceNames(s.dependsOn)[i];
        assert s.dependsOn[i] in s.dependsOn;
        var u :| u in p.services && ServiceName(u.name) == ServiceName(s.dependsOn[i]);
        ServiceKey(p, a, u);
      }
    }
  }

  /** ... and, where no two services share a normalised name, only then. */
  lemma ClosedIffResolved(p: Project, a: Account)
    requires Convertible(p, a) && SubnetsNamed(a) && DistinctServices(p)
    ensures ClosedTemplate(TemplateOf(p, a)) <==> DependenciesResolve(p)
  {
    var t := TemplateOf(p, a);
    if DependenciesResolve(p) {
      ClosedIfResolved(p, a);
    }
    if ClosedTemplate(t) {
      forall s, d | s in p.services && d in s.dependsOn
        ensures exists u :: u in p.services && ServiceName(u.name) == ServiceName(d)
      {
        OwnResource(p, a, s);
        DependencyIsMentioned(p, a, s, d);
        ResourceLevels(d);
        var u := OnlyServices(p, a, ServiceName(d));
      }
    }
  }
}
