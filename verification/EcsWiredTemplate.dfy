/** A template holds what it should: every resource is as specified, and none is missing. */
module EcsWiredTemplate {
  import opened Wrappers
  import opened Numerals
  import opened EcsNames
  import opened EcsTemplate
  import opened EcsReferences
  import opened EcsClosedness
  import opened EcsOverwrites
  import opened EcsSpecified
  import opened EcsWiring

  // ---------- all writes ----------

  lemma ServiceWriteIsRight(p: Project, a: Account, s: ServiceConfig, w: Write)
    requires FoundInAccount(p, a) && w in ServiceWrites(p, a, s)
    ensures ForService(p, a, s, w.name, w.resource)
  {
    hide FoundInAccount;
    hide ForExecutionRole;
    hide ForTaskRole;
    hide ForTaskDefinition;
    hide ForDiscovery;
    hide ForPort;
    hide ServiceWired;
    hide ForScaling;
    ServiceWriteCases(p, a, s, w);
    if w in TaskRoleWrites(a, s) {
      TaskRoleIsRight(p, a, s, w);
    } else if w in PortsWrites(p, a, s) {
      InPorts(p, a, s, w);
      var i :| 0 <= i < |s.ports| && w in PortWrites(p, a, s, s.ports[i]);
      PortIsRight(p, a, s, s.ports[i], w);
      assert s.ports[i] in s.ports;
    } else {
      ExecutionRoleIsRight(p, s);
      TaskDefinitionIsRight(p, a, s);
      DiscoveryIsRight(s);
      ServiceIsWired(p, a, s);
    }
  }

  lemma ServicesAreRight(p: Project, a: Account, w: Write)
    requires FoundInAccount(p, a) && w in AllServiceWrites(p, a)
    ensures exists s :: s in p.services && ForService(p, a, s, w.name, w.resource)
  {
    hide FoundInAccount;
    hide ServiceWrites;
    hide ScalingWrites;
    InServices(p, a, w);
    var i :| 0 <= i < |p.services| && w in ServiceWrites(p, a, p.services[i]) + ScalingWrites(a, p.services[i]);
    var s := p.services[i];
    if w in ServiceWrites(p, a, s) {
      ServiceWriteIsRight(p, a, s, w);
    } else {
      ScalingIsRight(p, a, s, w);
    }
    assert s in p.services && ForService(p, a, s, w.name, w.resource);
  }

  lemma NetworksAreRight(p: Project, a: Account, w: Write)
    requires w in NetworksWrites(p, a)
    ensures exists n :: n in p.networks && ForNetwork(a, n, w.name, w.resource)
  {
    InNetworks(p, a, w);
    var i :| 0 <= i < |p.networks| && w in NetworkWrites(p, a, p.networks[i]);
    NetworkIsRight(p, a, p.networks[i], w);
    assert p.networks[i] in p.networks;
  }

  lemma VolumesAreRight(p: Project, a: Account, w: Write)
    requires w in VolumesWrites(p, a)
    ensures exists v :: v in p.volumes && ForVolume(p, a, v.name, w.name, w.resource)
  {
    InVolumes(p, a, w);
    var i :| 0 <= i < |p.volumes| && w in VolumeWrites(a, p.volumes[i]);
    assert p.volumes[i] in p.volumes && ForFileSystem(a, p.volumes[i].name, w.name, w.resource);
  }

  lemma MountTargetsAreRight(p: Project, a: Account, w: Write)
    requires FoundInAccount(p, a) && w in MountsWrites(p, a)
    ensures exists v :: v in p.volumes && ForVolume(p, a, v.name, w.name, w.resource)
  {
    hide FoundInAccount;
    hide ForMountTarget;
    InMounts(p, a, w);
    var i :| 0 <= i < |p.volumes| && w in MountTargetWrites(p, a, p.volumes[i], a.subnets);
    InMountTargets(p, a, p.volumes[i], a.subnets, w);
    var k :| 0 <= k < |a.subnets| && w == MountTargetWrite(p, a, p.volumes[i], a.subnets[k]);
    MountTargetIsRight(p, a, p.volumes[i], a.subnets[k]);
    assert p.volumes[i] in p.volumes && a.subnets[k] in a.subnets;
  }

  lemma AccessPointsAreRight(p: Project, a: Account, w: Write)
    requires FoundInAccount(p, a) && w in AccessPointWrites(p, a)
    ensures exists v :: v in p.volumes && ForVolume(p, a, v.name, w.name, w.resource)
  {
    hide FoundInAccount;
    hide ForAccessPoint;
    InAccessPoints(p, a, w);
    var i :| 0 <= i < |p.volumes| && w in [AccessPointWrite(a, p.volumes[i])];
    AccessPointIsRight(p, a, p.volumes[i]);
    assert p.volumes[i] in p.volumes;
  }

  lemma SecretsAreRight(p: Project, w: Write)
    requires w in SecretsWrites(p)
    ensures exists s :: s in p.secrets && ForSecret(s, w.name, w.resource)
  {
    InSecrets(p, w);
    var i :| 0 <= i < |p.secrets| && w in SecretWrites(p.secrets[i]);
    assert p.secrets[i] in p.secrets && ForSecret(p.secrets[i], w.name, w.resource);
  }

  lemma EnsuredAreRight(p: Project, a: Account, w: Write)
    requires w in EnsuredWrites(p, a) && w.name != "Cluster"
    ensures Specified(p, a, w.name, w.resource)
  {
    hide ForBalancer;
    hide ForNetwork;
    hide ForVolume;
    if w in NetworksWrites(p, a) {
      NetworksAreRight(p, a, w);
    } else if w in VolumesWrites(p, a) {
      VolumesAreRight(p, a, w);
    } else if w in LoadBalancerWrites(p, a) {
      BalancerIsRight(p, a);
    }
  }

  lemma SharedAreRight(p: Project, a: Account, w: Write)
    requires FoundInAccount(p, a) && w in SharedWrites(p, a)
    ensures Specified(p, a, w.name, w.resource)
  {
    hide FoundInAccount;
    hide ForLogGroup;
    hide ForCloudMap;
    hide ForVolume;
    hide ForSecret;
    if w in SecretsWrites(p) {
      SecretsAreRight(p, w);
    } else if w in MountsWrites(p, a) {
      MountTargetsAreRight(p, a, w);
    } else if w in AccessPointWrites(p, a) {
      AccessPointsAreRight(p, a, w);
    } else {
      LogGroupAndCloudMapAreRight(p, a);
    }
  }

  lemma CapacityIsRight(p: Project, a: Account, w: Write)
    requires w in CapacityWrites(p, a) && w.name != "Cluster"
    ensures Specified(p, a, w.name, w.resource)
  {
    hide ForMachines;
    var i :| 0 <= i < |CapacityWrites(p, a)| && w == CapacityWrites(p, a)[i];
    MachinesAreRight(p, a, i);
  }

  lemma EveryWriteIsRight(p: Project, a: Account, w: Write)
    requires FoundInAccount(p, a) && w in AllWrites(p, a) && w.name != "Cluster"
    ensures Specified(p, a, w.name, w.resource)
  {
    hide FoundInAccount;
    hide ForService;
    WriteCases(p, a, w);
    if w in EnsuredWrites(p, a) {
      EnsuredAreRight(p, a, w);
    } else if w in SharedWrites(p, a) {
      SharedAreRight(p, a, w);
    } else if w in AllServiceWrites(p, a) {
      ServicesAreRight(p, a, w);
    } else {
      CapacityIsRight(p, a, w);
    }
  }

  /** The cluster is found or made; what is there in the end is the extended one if machines are needed. */
  lemma ClusterIsRight(p: Project, a: Account)
    requires Convertible(p, a) && "Cluster" in TemplateOf(p, a)
    ensures ForCluster(p, a, "Cluster", TemplateOf(p, a)["Cluster"])
  {
    MachinesIffEC2(p);
    if NeedsEC2(p) {
      var n := |AllWrites(p, a)| - 1;
      assert AllWrites(p, a)[n] == CapacityWrites(p, a)[5];
      ExtendedClusterIsRight(p, a);
    } else {
      KeysAreWritten(p, a, "Cluster");
      OnlyBareCluster(p, a, Write("Cluster", TemplateOf(p, a)["Cluster"]));
      BareClusterIsRight(p, a);
    }
  }

  lemma OnlyBareCluster(p: Project, a: Account, w: Write)
    requires Convertible(p, a) && !NeedsEC2(p) && w in AllWrites(p, a) && w.name == "Cluster"
    ensures a.cluster == None && w.resource == ClusterResource(p)
  {
    hide AllWrites;
    var g := Ground(p, a, WrittenNames(p, a), (set x | x in ClusterWrites(p, a)), Level);
    WrittenIsComplete(p, a);
    LevelIsGraded(a);
    EveryWriteIsGood(g, w);
    NamedCluster(g, w);
  }

  // ---------- nothing is missing ----------

  lemma NetworkIsPresent(p: Project, a: Account, n: Network, k: string, r: Resource)
    requires n in p.networks && ForNetwork(a, n, k, r)
    ensures k in WrittenNames(p, a)
  {
    var i :| 0 <= i < |p.networks| && p.networks[i] == n;
    var w := NetworkWrites(p, a, n)[if k == NetworkName(n.name) then 0 else 1];
    InNetworks(p, a, w);
    assert w in EnsuredWrites(p, a);
    WrittenBy(p, a, w);
  }

  lemma VolumeIsPresent(p: Project, a: Account, v: Volume, k: string, r: Resource)
    requires v in p.volumes && ForVolume(p, a, v.name, k, r)
    ensures k in WrittenNames(p, a)
  {
    var i :| 0 <= i < |p.volumes| && p.volumes[i] == v;
    VolumeIsWritten(p, a, v.name);
    if subnet :| subnet in a.subnets && ForMountTarget(p, a, v.name, subnet, k, r) {
      MountTargetIsWritten(p, a, v.name, subnet);
    }
  }

  lemma MachinesArePresent(p: Project, a: Account, k: string, r: Resource)
    requires ForMachines(p, a, k, r)
    ensures k in WrittenNames(p, a)
  {
    hide IsSubnet;
    hide IsGroupOfProject;
    hide Only;
    MachinesIffEC2(p);
    CapacityNamesAre(p, a);
    var i := if ForProvider(k, r) then 0 else if ForMachineGroup(a, k, r) then 1 else if ForLaunch(p, a, k, r) then 2
             else if ForProfile(k, r) then 3 else 4;
    CapacityIsWritten(p, a, i);
  }

  lemma CapacityNamesAre(p: Project, a: Account)
    requires NeedsEC2(p)
    ensures |CapacityWrites(p, a)| == 6
    ensures CapacityWrites(p, a)[0].name == "CapacityProvider" && CapacityWrites(p, a)[1].name == "AutoscalingGroup"
    ensures CapacityWrites(p, a)[2].name == "LaunchConfiguration" && CapacityWrites(p, a)[3].name == "EC2InstanceProfile"
    ensures CapacityWrites(p, a)[4].name == "EC2InstanceRole"
  {
  }

  lemma PortIsPresent(p: Project, a: Account, s: ServiceConfig, port: Port, k: string, r: Resource)
    requires s in p.services && port in s.ports && ForPort(p, a, s, port, k, r)
    ensures k in WrittenNames(p, a)
  {
    hide IsGroup;
    hide Only;
    hide IngressName;
    hide ListenerName;
    hide TargetGroupName;
    hide WrittenNames;
    var i :| 0 <= i < |s.ports| && s.ports[i] == port;
    PortsAreWritten(p, a, s, i);
    if n :| n in s.networks && ForIngress(p, a, n, port, k, r) {
      var j :| 0 <= j < |s.networks| && s.networks[j] == n;
      InIngresses(p, a, s.networks, port, IngressWrite(p, a, n, port));
      PortWriteIsWritten(p, a, s, i, IngressWrite(p, a, n, port));
    }
  }

  lemma ScalingIsPresent(p: Project, a: Account, s: ServiceConfig, k: string, r: Resource)
    requires s in p.services && ForScaling(a, s, k, r)
    ensures k in WrittenNames(p, a)
  {
    hide Only;
    hide Among;
    hide ServiceName;
    hide AutoScalingRoleName;
    hide ScalableTargetName;
    hide ScalingPolicyName;
    hide WrittenNames;
    hide ServiceWrites;
    ScalingIsWritten(p, a, s);
    ServiceWritesAreWritten(p, a, s, ScalingWrites(a, s)[2]);
  }

  lemma ServiceIsPresent(p: Project, a: Account, s: ServiceConfig, k: string, r: Resource)
    requires s in p.services && ForService(p, a, s, k, r)
    ensures k in WrittenNames(p, a)
  {
    hide Among;
    hide Only;
    hide ForPort;
    hide ServiceWired;
    hide ForScaling;
    hide WrittenNames;
    hide ExecutionRoleName;
    hide TaskRoleName;
    hide TaskDefinitionName;
    hide DiscoveryName;
    hide ServiceName;
    if port :| port in s.ports && ForPort(p, a, s, port, k, r) {
      PortIsPresent(p, a, s, port, k, r);
    } else if ForScaling(a, s, k, r) {
      ScalingIsPresent(p, a, s, k, r);
    } else {
      ServiceIsWritten(p, a, s);
    }
  }

  lemma IsPresent(p: Project, a: Account, k: string, r: Resource)
    requires Specified(p, a, k, r)
    ensures k in WrittenNames(p, a)
  {
    hide ForNetwork;
    hide ForVolume;
    hide ForService;
    hide ForMachines;
    hide BalancerWired;
    hide Only;
    hide WrittenNames;
    SharedAreWritten(p, a);
    if ForCluster(p, a, k, r) {
      ClusterIsWritten(p, a);
    } else if ForBalancer(p, a, k, r) {
      ApplicationIffHTTP(p);
      LoadBalancerIsWritten(p, a);
    } else if ForMachines(p, a, k, r) {
      MachinesArePresent(p, a, k, r);
    } else if n :| n in p.networks && ForNetwork(a, n, k, r) {
      NetworkIsPresent(p, a, n, k, r);
    } else if v :| v in p.volumes && ForVolume(p, a, v.name, k, r) {
      VolumeIsPresent(p, a, v, k, r);
    } else if s :| s in p.secrets && ForSecret(s, k, r) {
      var i :| 0 <= i < |p.secrets| && p.secrets[i] == s;
      SecretIsWritten(p, a, i);
    } else if s :| s in p.services && ForService(p, a, s, k, r) {
      ServiceIsPresent(p, a, s, k, r);
    }
  }

  // ---------- the template ----------

  /** What `convert` makes of a project is what has to be made of it: nothing else, and nothing less. */
  lemma TemplateIsAsSpecified(p: Project, a: Account)
    requires Convertible(p, a)
    ensures AsSpecified(p, a, TemplateOf(p, a))
  {
    hide Specified;
    hide TemplateOf;
    hide Convertible;
    forall k | k in TemplateOf(p, a)
      ensures Specified(p, a, k, TemplateOf(p, a)[k])
    {
      KeyIsRight(p, a, k);
    }
    forall k, r | Specified(p, a, k, r)
      ensures k in TemplateOf(p, a)
    {
      IsPresent(p, a, k, r);
      KeysAreWritten(p, a, k);
    }
  }

  lemma KeyIsRight(p: Project, a: Account, k: string)
    requires Convertible(p, a) && k in TemplateOf(p, a)
    ensures Specified(p, a, k, TemplateOf(p, a)[k])
  {
    hide ForCluster;
    hide ForService;
    hide TemplateOf;
    if k == "Cluster" {
      ClusterIsRight(p, a);
    } else {
      KeysAreWritten(p, a, k);
      EveryWriteIsRight(p, a, Write(k, TemplateOf(p, a)[k]));
    }
  }

  /** Under the name of a service the template holds what the last service of that name has to be. */
  lemma LastServiceIsWired(p: Project, a: Account, k: string)
    requires Convertible(p, a) && LastOf(p.services, k).Some?
    ensures k in TemplateOf(p, a) && ServiceWired(p, a, LastOf(p.services, k).value, TemplateOf(p, a)[k])
  {
    hide ServiceWired;
    LastServiceStays(p, a, k);
    ServiceIsWired(p, a, LastOf(p.services, k).value);
  }

  // ---------- the load balancer of a template ----------

  lemma EndsOtherwise(start: string, end: string)
    requires |end| >= 3 && (end[|end| - 1] != 'r' || end[|end| - 3] != 'c')
    ensures start + end != "LoadBalancer"
  {
    assert "LoadBalancer"[|"LoadBalancer"| - 1] == 'r' && "LoadBalancer"[|"LoadBalancer"| - 3] == 'c';
  }

  lemma ResourceNames(x: string)
    ensures "LoadBalancer" !in {NetworkName(x), NetworkName(x) + "Ingress", VolumeName(x), AccessPointName(x), SecretName(x)}
  {
    EndsOtherwise(Normalize(x), "Network");
    EndsOtherwise(NetworkName(x), "Ingress");
    EndsOtherwise(Normalize(x), "Filesystem");
    EndsOtherwise(Normalize(x), "AccessPoint");
    EndsOtherwise(Normalize(x), "Secret");
  }

  lemma TaskNames(x: string)
    ensures "LoadBalancer" !in {ExecutionRoleName(x), TaskRoleName(x), TaskDefinitionName(x), DiscoveryName(x), ServiceName(x)}
  {
    EndsOtherwise(Normalize(x), "TaskExecutionRole");
    EndsOtherwise(Normalize(x), "TaskRole");
    EndsOtherwise(Normalize(x), "TaskDefinition");
    EndsOtherwise(Normalize(x), "ServiceDiscoveryEntry");
    EndsOtherwise(Normalize(x), "Service");
  }

  lemma ScalingNamesDiffer(x: string)
    ensures "LoadBalancer" !in {AutoScalingRoleName(x), ScalableTargetName(x), ScalingPolicyName(x)}
  {
    EndsOtherwise(Normalize(x), "AutoScalingRole");
    EndsOtherwise(Normalize(x), "ScalableTarget");
    EndsOtherwise(Normalize(x), "ScalingPolicy");
  }

  lemma PortNamesDiffer(x: string, protocol: string, port: nat)
    ensures "LoadBalancer" !in {IngressName(x, port), TargetGroupName(x, protocol, port), ListenerName(x, protocol, port)}
  {
    EndsOtherwise(Normalize(x) + Itoa(port), "Ingress");
    EndsOtherwise(Normalize(x) + Upper(protocol) + Itoa(port), "TargetGroup");
    EndsOtherwise(Normalize(x) + Upper(protocol) + Itoa(port), "Listener");
  }

  lemma NoServicesBalancer(p: Project, a: Account, s: ServiceConfig, r: Resource)
    ensures !ForService(p, a, s, "LoadBalancer", r)
  {
    hide ServiceWired;
    hide Among;
    hide Only;
    TaskNames(s.name);
    ScalingNamesDiffer(s.name);
    forall port
      ensures !ForPort(p, a, s, port, "LoadBalancer", r)
    {
      NoPortsBalancer(p, a, s, port, r);
    }
    hide ForPort;
    hide ExecutionRoleName;
    hide TaskRoleName;
    hide TaskDefinitionName;
    hide DiscoveryName;
    hide ServiceName;
    hide AutoScalingRoleName;
    hide ScalableTargetName;
    hide ScalingPolicyName;
  }

  lemma NoPortsBalancer(p: Project, a: Account, s: ServiceConfig, port: Port, r: Resource)
    ensures !ForPort(p, a, s, port, "LoadBalancer", r)
  {
    hide IngressName;
    hide TargetGroupName;
    hide ListenerName;
    PortNamesDiffer(s.name, port.protocol, port.published);
    PortNamesDiffer(s.name, port.protocol, port.target);
    forall n
      ensures IngressName(n, port.target) != "LoadBalancer"
    {
      PortNamesDiffer(n, port.protocol, port.target);
    }
  }

  lemma NoVolumesBalancer(p: Project, a: Account, volume: string, r: Resource)
    ensures !ForVolume(p, a, volume, "LoadBalancer", r)
  {
    ResourceNames(volume);
    forall subnet
      ensures MountTargetName(volume, subnet) != "LoadBalancer"
    {
      assert |MountTargetName(volume, subnet)| > |"LoadBalancer"|;
    }
    hide MountTargetName;
    hide VolumeName;
    hide AccessPointName;
  }

  lemma NoNetworksBalancer(a: Account, n: Network, r: Resource)
    ensures !ForNetwork(a, n, "LoadBalancer", r)
  {
    ResourceNames(n.name);
    hide NetworkName;
  }

  lemma NoSecretsBalancer(s: Secret, r: Resource)
    ensures !ForSecret(s, "LoadBalancer", r)
  {
    ResourceNames(s.name);
    hide SecretName;
  }

  /** Only the balancer has this name. */
  lemma NamedBalancer(p: Project, a: Account, r: Resource)
    requires Specified(p, a, "LoadBalancer", r)
    ensures ForBalancer(p, a, "LoadBalancer", r)
  {
    forall n
      ensures !ForNetwork(a, n, "LoadBalancer", r)
    {
      NoNetworksBalancer(a, n, r);
    }
    forall v: Volume
      ensures !ForVolume(p, a, v.name, "LoadBalancer", r)
    {
      NoVolumesBalancer(p, a, v.name, r);
    }
    forall s
      ensures !ForSecret(s, "LoadBalancer", r)
    {
      NoSecretsBalancer(s, r);
    }
    forall s
      ensures !ForService(p, a, s, "LoadBalancer", r)
    {
      NoServicesBalancer(p, a, s, r);
    }
    hide ForNetwork;
    hide ForVolume;
    hide ForSecret;
    hide ForService;
    hide BalancerWired;
    hide Only;
  }

  /**
   * The template has a balancer iff none is found and some service has a port. An atom is among its security
   * groups iff every port speaks HTTP and the atom is the group of a network that is not internal.
   */
  lemma BalancerIsInPublicGroups(p: Project, a: Account)
    requires Convertible(p, a)
    ensures "LoadBalancer" in TemplateOf(p, a) <==> a.loadBalancer == None && Exposes(p)
    ensures "LoadBalancer" in TemplateOf(p, a) ==>
              forall x :: Among(TemplateOf(p, a)["LoadBalancer"], "SecurityGroups", x) <==>
                AllHTTP(p) && exists n :: n in p.networks && !n.internal && IsGroup(p, a, n.name, x)
  {
    hide Specified;
    hide TemplateOf;
    hide IsGroup;
    hide Among;
    if "LoadBalancer" in TemplateOf(p, a) {
      KeyIsRight(p, a, "LoadBalancer");
      NamedBalancer(p, a, TemplateOf(p, a)["LoadBalancer"]);
    }
    if a.loadBalancer == None && Exposes(p) {
      ApplicationIffHTTP(p);
      LoadBalancerIsWritten(p, a);
      KeysAreWritten(p, a, "LoadBalancer");
    }
  }
}
