/** What each writer writes is as specified: atom by atom, for every property. */
module EcsWiring {
  import opened Wrappers
  import opened EcsLimits
  import opened EcsNames
  import opened EcsTemplate
  import opened EcsOverwrites
  import opened EcsSpecified

  // ---------- the atoms of a property ----------

  /** No other property has the path of the `i`-th. */
  predicate OwnPath(r: Resource, i: nat) {
    i < |r.properties| && forall j :: 0 <= j < |r.properties| && j != i ==> r.properties[j].path != r.properties[i].path
  }

  lemma AtPath(r: Resource, i: nat)
    requires OwnPath(r, i)
    ensures forall x :: Among(r, r.properties[i].path, x) <==> x in r.properties[i].atoms
  {
  }

  lemma NoPath(r: Resource, path: string)
    requires forall j :: 0 <= j < |r.properties| ==> r.properties[j].path != path
    ensures forall x :: !Among(r, path, x)
  {
  }

  lemma OneProperty(r: Resource, path: string)
    requires |r.properties| == 1 && r.properties[0].path == path
    ensures forall x :: Among(r, path, x) <==> x in r.properties[0].atoms
  {
    AtPath(r, 0);
  }

  lemma OneAtom(r: Resource, path: string, x: Atom)
    requires r.properties == [Property(path, [x])]
    ensures Only(r, path, x)
  {
    OneProperty(r, path);
  }

  /** Paths of different lengths differ. */
  lemma TwoProperties(r: Resource, path0: string, path1: string)
    requires |r.properties| == 2 && r.properties[0].path == path0 && r.properties[1].path == path1 && |path0| != |path1|
    ensures forall x :: Among(r, path0, x) <==> x in r.properties[0].atoms
    ensures forall x :: Among(r, path1, x) <==> x in r.properties[1].atoms
  {
    AtPath(r, 0);
    AtPath(r, 1);
  }

  lemma ThreeProperties(r: Resource, path0: string, path1: string, path2: string)
    requires |r.properties| == 3 && r.properties[0].path == path0 && r.properties[1].path == path1 && r.properties[2].path == path2
    requires |path0| != |path1| && |path1| != |path2| && |path0| != |path2|
    ensures forall x :: Among(r, path0, x) <==> x in r.properties[0].atoms
    ensures forall x :: Among(r, path1, x) <==> x in r.properties[1].atoms
    ensures forall x :: Among(r, path2, x) <==> x in r.properties[2].atoms
  {
    AtPath(r, 0);
    AtPath(r, 1);
    AtPath(r, 2);
  }

  // ---------- the atoms referred to ----------

  lemma NetworkIsThere(p: Project, network: string)
    ensures HasNetwork(p, network) <==> exists n :: n in p.networks && n.name == network
  {
    if n :| n in p.networks && n.name == network {
      var i :| 0 <= i < |p.networks| && p.networks[i] == n;
    }
  }

  lemma GroupIs(p: Project, a: Account, network: string)
    ensures forall x :: x == GroupOf(p, a, network) <==> IsGroup(p, a, network, x)
  {
    NetworkIsThere(p, network);
  }

  lemma GroupsAre(p: Project, a: Account, networks: seq<string>, x: Atom)
    ensures x in Groups(p, a, networks) <==> IsGroupOfAny(p, a, networks, x)
  {
    hide IsGroup;
    hide GroupOf;
    if x in Groups(p, a, networks) {
      var i :| 0 <= i < |networks| && Groups(p, a, networks)[i] == x;
      GroupIs(p, a, networks[i]);
      assert networks[i] in networks;
    }
    if n :| n in networks && IsGroup(p, a, n, x) {
      GroupIs(p, a, n);
      var i :| 0 <= i < |networks| && networks[i] == n;
      assert Groups(p, a, networks)[i] == x;
    }
  }

  lemma AllGroupsAre(p: Project, a: Account, x: Atom)
    ensures x in AllGroups(p, a) <==> IsGroupOfProject(p, a, x)
  {
    hide IsGroup;
    GroupsAre(p, a, NetworkNames(p.networks), x);
    if n :| n in NetworkNames(p.networks) && IsGroup(p, a, n, x) {
      var i :| 0 <= i < |p.networks| && NetworkNames(p.networks)[i] == n;
      assert p.networks[i] in p.networks;
    }
    if n :| n in p.networks && IsGroup(p, a, n.name, x) {
      var i :| 0 <= i < |p.networks| && p.networks[i] == n;
      assert NetworkNames(p.networks)[i] == n.name;
    }
  }

  lemma {:induction false} PublicAre(networks: seq<Network>, name: string)
    ensures name in PublicNetworks(networks) <==> exists n :: n in networks && !n.internal && n.name == name
  {
    if networks != [] {
      var k := |networks| - 1;
      PublicAre(networks[..k], name);
      assert networks == networks[..k] + [networks[k]];
    }
  }

  lemma PublicGroupsAre(p: Project, a: Account, x: Atom)
    ensures x in Groups(p, a, PublicNetworks(p.networks)) <==> IsPublicGroup(p, a, x)
  {
    hide IsGroup;
    hide PublicNetworks;
    GroupsAre(p, a, PublicNetworks(p.networks), x);
    if name :| name in PublicNetworks(p.networks) && IsGroup(p, a, name, x) {
      PublicAre(p.networks, name);
    }
    if n :| n in p.networks && !n.internal && IsGroup(p, a, n.name, x) {
      PublicAre(p.networks, n.name);
    }
  }

  lemma {:induction false} SecretIs(p: Project, secrets: seq<Secret>, key: string)
    requires secrets <= p.secrets
    ensures (SecretValue(secrets, key) == Lit("") && forall s :: s in secrets ==> s.key != key)
            || exists i :: LastSecret(secrets, key, i)
                 && SecretValue(secrets, key) == if secrets[i].external then Lit(secrets[i].name) else Ref(SecretName(secrets[i].name))
  {
    if secrets != [] {
      var n := |secrets| - 1;
      if secrets[n].key == key {
        assert LastSecret(secrets, key, n);
      } else {
        SecretIs(p, secrets[..n], key);
        if i :| LastSecret(secrets[..n], key, i) {
          assert LastSecret(secrets, key, i);
        }
      }
    }
  }

  lemma SecretAtomIs(p: Project, key: string)
    ensures forall x :: x == SecretValue(p.secrets, key) <==> IsSecret(p, key, x)
  {
    SecretIs(p, p.secrets, key);
    forall i, j | LastSecret(p.secrets, key, i) && LastSecret(p.secrets, key, j)
      ensures i == j
    {
    }
  }

  lemma SecretsAre(p: Project, keys: seq<string>, x: Atom)
    ensures x in SecretValues(p, keys) <==> IsSecretOfAny(p, keys, x)
  {
    hide IsSecret;
    hide SecretValue;
    if x in SecretValues(p, keys) {
      var i :| 0 <= i < |keys| && SecretValues(p, keys)[i] == x;
      SecretAtomIs(p, keys[i]);
      assert keys[i] in keys;
    }
    if key :| key in keys && IsSecret(p, key, x) {
      SecretAtomIs(p, key);
      var i :| 0 <= i < |keys| && keys[i] == key;
      assert SecretValues(p, keys)[i] == x;
    }
  }

  lemma SubnetsAre(a: Account, x: Atom)
    ensures x in Lits(a.subnets) <==> IsSubnet(a, x)
  {
    if subnet :| subnet in a.subnets && x == Lit(subnet) {
      var i :| 0 <= i < |a.subnets| && a.subnets[i] == subnet;
      assert Lits(a.subnets)[i] == x;
    }
  }

  lemma FileSystemIs(p: Project, a: Account, volume: string)
    requires FoundInAccount(p, a)
    ensures forall x :: x == FileSystemOf(a, volume).Id() <==> IsFileSystemId(a, volume, x)
    ensures forall x :: x == FileSystemOf(a, volume).Arn() <==> IsFileSystemArn(a, volume, x)
  {
  }

  lemma FileSystemsAre(p: Project, a: Account, volumes: seq<string>, x: Atom)
    requires FoundInAccount(p, a)
    ensures x in FileSystemIds(a, volumes) <==> exists v :: v in volumes && IsFileSystemId(a, v, x)
    ensures x in FileSystemArns(a, volumes) <==> exists v :: v in volumes && IsFileSystemArn(a, v, x)
  {
    forall i | 0 <= i < |volumes|
      ensures FileSystemIds(a, volumes)[i] == x <==> IsFileSystemId(a, volumes[i], x)
      ensures FileSystemArns(a, volumes)[i] == x <==> IsFileSystemArn(a, volumes[i], x)
    {
      FileSystemIs(p, a, volumes[i]);
    }
    hide IsFileSystemId;
    hide IsFileSystemArn;
    InAt(FileSystemIds(a, volumes), x);
    InAt(FileSystemArns(a, volumes), x);
    forall v | v in volumes
      ensures exists i :: 0 <= i < |volumes| && volumes[i] == v
    {
    }
  }

  lemma InAt<T>(xs: seq<T>, x: T)
    ensures x in xs <==> exists i :: 0 <= i < |xs| && xs[i] == x
  {
  }

  lemma AccessPointsAre(volumes: seq<string>, x: Atom)
    ensures x in AccessPoints(volumes) <==> IsAccessPoint(volumes, x)
  {
    if v :| v in volumes && x == Ref(AccessPointName(v)) {
      var i :| 0 <= i < |volumes| && volumes[i] == v;
      assert AccessPoints(volumes)[i] == x;
    }
  }

  lemma TargetGroupsAre(s: ServiceConfig, x: Atom)
    ensures x in TargetGroups(s) <==> IsTargetGroup(s, x)
  {
    hide TargetGroupName;
    if port :| port in s.ports && x == Ref(TargetGroupName(s.name, port.protocol, port.published)) {
      var i :| 0 <= i < |s.ports| && s.ports[i] == port;
      assert TargetGroups(s)[i] == x;
    }
  }

  lemma ListenersAre(s: ServiceConfig, d: string)
    ensures d in Listeners(s) <==> exists port :: port in s.ports && d == ListenerName(s.name, port.protocol, port.target)
  {
    hide ListenerName;
    if port :| port in s.ports && d == ListenerName(s.name, port.protocol, port.target) {
      var i :| 0 <= i < |s.ports| && s.ports[i] == port;
      assert Listeners(s)[i] == d;
    }
  }

  lemma MountTargetsOf(a: Account, volume: string, d: string)
    ensures d in MountTargets(a, volume) <==> exists subnet :: subnet in a.subnets && d == MountTargetName(volume, subnet)
  {
    hide MountTargetName;
    if subnet :| subnet in a.subnets && d == MountTargetName(volume, subnet) {
      var i :| 0 <= i < |a.subnets| && a.subnets[i] == subnet;
      assert MountTargets(a, volume)[i] == d;
    }
  }

  lemma {:induction false} MountTargetsAre(a: Account, volumes: seq<string>, d: string)
    ensures d in AllMountTargets(a, volumes) <==>
              exists v, subnet :: v in volumes && subnet in a.subnets && d == MountTargetName(v, subnet)
  {
    hide MountTargetName;
    if volumes != [] {
      var n := |volumes| - 1;
      MountTargetsAre(a, volumes[..n], d);
      MountTargetsOf(a, volumes[n], d);
      assert volumes == volumes[..n] + [volumes[n]];
    }
  }

  lemma WaitsForAre(p: Project, a: Account, s: ServiceConfig, d: string)
    ensures d in ServiceResource(p, a, s).dependsOn <==> WaitsFor(a, s, d)
  {
    hide ListenerName;
    hide ServiceName;
    hide MountTargetName;
    ListenersAre(s, d);
    InServiceNames(s.dependsOn, d);
    MountTargetsAre(a, s.volumes, d);
    assert ServiceResource(p, a, s).dependsOn == Listeners(s) + ServiceNames(s.dependsOn) + AllMountTargets(a, s.volumes);
  }

  // ---------- the balancer ----------

  lemma ApplicationIffHTTP(p: Project)
    ensures NeedsApplication(p) <==> AllHTTP(p)
    ensures NoPorts(p) <==> !Exposes(p)
  {
    forall port: Port
      ensures PortIsHTTP(port) <==> SpeaksHTTP(port)
    {
    }
    hide PortIsHTTP;
    hide SpeaksHTTP;
    if !NoPorts(p) {
      var s :| s in p.services && |s.ports| > 0;
      assert s.ports[0] in s.ports;
    }
  }

  lemma BalancerGroupsAre(p: Project, a: Account, x: Atom)
    ensures x in BalancerGroups(p, a) <==> AllHTTP(p) && IsPublicGroup(p, a, x)
  {
    ApplicationIffHTTP(p);
    PublicGroupsAre(p, a, x);
  }

  lemma BalancerIsWired(p: Project, a: Account)
    ensures BalancerWired(p, a, LoadBalancerWrite(p, a).resource)
  {
    hide IsPublicGroup;
    hide IsSubnet;
    hide AllHTTP;
    hide NeedsApplication;
    hide Among;
    hide BalancerGroups;
    hide Lits;
    var r := LoadBalancerWrite(p, a).resource;
    ApplicationIffHTTP(p);
    ThreeProperties(r, "SecurityGroups", "Subnets", "Type");
    forall x
      ensures Among(r, "SecurityGroups", x) <==> AllHTTP(p) && IsPublicGroup(p, a, x)
      ensures Among(r, "Subnets", x) <==> IsSubnet(a, x)
    {
      BalancerGroupsAre(p, a, x);
      SubnetsAre(a, x);
    }
  }

  // ---------- the writes for the account ----------

  lemma MachinesIffEC2(p: Project)
    ensures NeedsEC2(p) <==> NeedsMachines(p)
  {
    forall s: ServiceConfig
      ensures RequireEC2(s.deploy) <==> NeedsGpu(s.deploy)
    {
      EC2IffGpu(s.deploy);
    }
  }

  lemma BareClusterIsRight(p: Project, a: Account)
    requires a.cluster == None && !NeedsMachines(p)
    ensures ForCluster(p, a, "Cluster", ClusterResource(p))
  {
    OneAtom(ClusterResource(p), "ClusterName", Lit(p.name));
    NoPath(ClusterResource(p), "CapacityProviders");
  }

  lemma ExtendedClusterIsRight(p: Project, a: Account)
    requires a.cluster == None && NeedsMachines(p)
    ensures ForCluster(p, a, "Cluster", WithCapacityProvider(ClusterResource(p)))
  {
    TwoProperties(WithCapacityProvider(ClusterResource(p)), "ClusterName", "CapacityProviders");
  }

  lemma BalancerIsRight(p: Project, a: Account)
    requires a.loadBalancer == None && !NoPorts(p)
    ensures ForBalancer(p, a, "LoadBalancer", LoadBalancerWrite(p, a).resource)
  {
    hide BalancerWired;
    ApplicationIffHTTP(p);
    BalancerIsWired(p, a);
  }

  lemma LogGroupAndCloudMapAreRight(p: Project, a: Account)
    ensures ForLogGroup(p, "LogGroup", LogGroupWrite(p).resource)
    ensures ForCloudMap(a, "CloudMap", CloudMapWrite(p, a).resource)
  {
    OneAtom(LogGroupWrite(p).resource, "LogGroupName", Lit("/docker-compose/" + p.name));
    OneAtom(CloudMapWrite(p, a).resource, "Vpc", Lit(a.vpc));
  }

  lemma ChainIsRight(p: Project, a: Account, i: nat)
    requires i < |CapacityWrites(p, a)| && i < 5 && i != 1 && i != 2
    ensures var w := CapacityWrites(p, a)[i]; ForProvider(w.name, w.resource) || ForProfile(w.name, w.resource) || ForMachineRole(w.name, w.resource)
  {
    var r := CapacityWrites(p, a)[i].resource;
    if i != 4 {
      OneProperty(r, r.properties[0].path);
    }
  }

  lemma MachineGroupIsRight(p: Project, a: Account)
    requires NeedsEC2(p)
    ensures ForMachineGroup(a, CapacityWrites(p, a)[1].name, CapacityWrites(p, a)[1].resource)
  {
    hide IsSubnet;
    hide Lits;
    var r := CapacityWrites(p, a)[1].resource;
    TwoProperties(r, "LaunchConfigurationName", "VPCZoneIdentifier");
    forall x
      ensures x in Lits(a.subnets) <==> IsSubnet(a, x)
    {
      SubnetsAre(a, x);
    }
  }

  lemma LaunchIsRight(p: Project, a: Account)
    requires NeedsEC2(p)
    ensures ForLaunch(p, a, CapacityWrites(p, a)[2].name, CapacityWrites(p, a)[2].resource)
  {
    hide IsGroupOfProject;
    hide AllGroups;
    var r := CapacityWrites(p, a)[2].resource;
    TwoProperties(r, "SecurityGroups", "IamInstanceProfile");
    forall x
      ensures x in AllGroups(p, a) <==> IsGroupOfProject(p, a, x)
    {
      AllGroupsAre(p, a, x);
    }
  }

  lemma MachinesAreRight(p: Project, a: Account, i: nat)
    requires i < |CapacityWrites(p, a)| && i < 5
    ensures ForMachines(p, a, CapacityWrites(p, a)[i].name, CapacityWrites(p, a)[i].resource)
  {
    hide ForProvider;
    hide ForMachineGroup;
    hide ForLaunch;
    hide ForProfile;
    hide ForMachineRole;
    MachinesIffEC2(p);
    if i == 1 {
      MachineGroupIsRight(p, a);
    } else if i == 2 {
      LaunchIsRight(p, a);
    } else {
      ChainIsRight(p, a, i);
    }
  }

  // ---------- the writes for networks, volumes and secrets ----------

  lemma NetworkIsRight(p: Project, a: Account, n: Network, w: Write)
    requires w in NetworkWrites(p, a, n)
    ensures ForNetwork(a, n, w.name, w.resource)
  {
    hide NetworkName;
    if w == NetworkWrites(p, a, n)[0] {
      OneAtom(w.resource, "VpcId", Lit(a.vpc));
    } else {
      TwoProperties(w.resource, "GroupId", "SourceSecurityGroupId");
    }
  }

  lemma AccessPointIsRight(p: Project, a: Account, v: Volume)
    requires FoundInAccount(p, a)
    ensures ForAccessPoint(a, v.name, AccessPointWrite(a, v).name, AccessPointWrite(a, v).resource)
  {
    hide FoundInAccount;
    hide IsFileSystemId;
    hide AccessPointName;
    OneProperty(AccessPointWrite(a, v).resource, "FileSystemId");
    FileSystemIs(p, a, v.name);
  }

  lemma MountTargetIsRight(p: Project, a: Account, v: Volume, subnet: string)
    requires FoundInAccount(p, a)
    ensures ForMountTarget(p, a, v.name, subnet, MountTargetWrite(p, a, v, subnet).name, MountTargetWrite(p, a, v, subnet).resource)
  {
    hide FoundInAccount;
    hide IsFileSystemId;
    hide IsGroupOfProject;
    hide AllGroups;
    hide MountTargetName;
    hide Among;
    var r := MountTargetWrite(p, a, v, subnet).resource;
    ThreeProperties(r, "FileSystemId", "SecurityGroups", "SubnetId");
    FileSystemIs(p, a, v.name);
    forall x
      ensures x in AllGroups(p, a) <==> IsGroupOfProject(p, a, x)
    {
      AllGroupsAre(p, a, x);
    }
  }

  // ---------- the writes for a service ----------

  lemma ExecutionRoleIsRight(p: Project, s: ServiceConfig)
    ensures ForExecutionRole(p, s, ExecutionRoleWrite(p, s).name, ExecutionRoleWrite(p, s).resource)
  {
    hide IsSecretOfAny;
    hide SecretValues;
    hide ExecutionRoleName;
    OneProperty(ExecutionRoleWrite(p, s).resource, "Policies");
    forall x
      ensures x in SecretValues(p, s.secrets) <==> IsSecretOfAny(p, s.secrets, x)
    {
      SecretsAre(p, s.secrets, x);
    }
  }

  lemma TaskRoleIsRight(p: Project, a: Account, s: ServiceConfig, w: Write)
    requires FoundInAccount(p, a) && w in TaskRoleWrites(a, s)
    ensures ForTaskRole(a, s, w.name, w.resource)
  {
    hide FoundInAccount;
    hide IsFileSystemArn;
    hide IsAccessPoint;
    hide FileSystemArns;
    hide AccessPoints;
    hide TaskRoleName;
    TwoProperties(w.resource, "Policies.Resource", "Policies.Condition");
    forall x
      ensures x in FileSystemArns(a, s.volumes) <==> exists v :: v in s.volumes && IsFileSystemArn(a, v, x)
      ensures x in AccessPoints(s.volumes) <==> IsAccessPoint(s.volumes, x)
    {
      FileSystemsAre(p, a, s.volumes, x);
      AccessPointsAre(s.volumes, x);
    }
  }

  lemma DiscoveryIsRight(s: ServiceConfig)
    ensures ForDiscovery(s, DiscoveryWrite(s).name, DiscoveryWrite(s).resource)
  {
    hide DiscoveryName;
    OneAtom(DiscoveryWrite(s).resource, "NamespaceId", Ref("CloudMap"));
  }

  lemma IngressIsRight(p: Project, a: Account, network: string, port: Port)
    ensures ForIngress(p, a, network, port, IngressWrite(p, a, network, port).name, IngressWrite(p, a, network, port).resource)
  {
    hide IsGroup;
    hide GroupOf;
    hide IngressName;
    OneProperty(IngressWrite(p, a, network, port).resource, "GroupId");
    GroupIs(p, a, network);
  }

  lemma TargetGroupIsRight(a: Account, s: ServiceConfig, port: Port)
    ensures ForTargetGroup(a, s, port, TargetGroupWrite(a, s, port).name, TargetGroupWrite(a, s, port).resource)
  {
    hide TargetGroupName;
    OneAtom(TargetGroupWrite(a, s, port).resource, "VpcId", Lit(a.vpc));
  }

  lemma ListenerIsRight(p: Project, a: Account, s: ServiceConfig, port: Port)
    requires FoundInAccount(p, a)
    ensures ForListener(a, s, port, ListenerWrite(a, s, port).name, ListenerWrite(a, s, port).resource)
  {
    hide TargetGroupName;
    hide ListenerName;
    TwoProperties(ListenerWrite(a, s, port).resource, "TargetGroupArn", "LoadBalancerArn");
  }

  lemma PortIsRight(p: Project, a: Account, s: ServiceConfig, port: Port, w: Write)
    requires FoundInAccount(p, a) && w in PortWrites(p, a, s, port)
    ensures ForPort(p, a, s, port, w.name, w.resource)
  {
    hide ForIngress;
    hide ForTargetGroup;
    hide ForListener;
    hide FoundInAccount;
    if w == TargetGroupWrite(a, s, port) {
      TargetGroupIsRight(a, s, port);
    } else if w == ListenerWrite(a, s, port) {
      ListenerIsRight(p, a, s, port);
    } else {
      InIngresses(p, a, s.networks, port, w);
      var k :| 0 <= k < |s.networks| && w == IngressWrite(p, a, s.networks[k], port);
      IngressIsRight(p, a, s.networks[k], port);
      assert s.networks[k] in s.networks;
    }
  }

  lemma ScalingIsRight(p: Project, a: Account, s: ServiceConfig, w: Write)
    requires FoundInAccount(p, a) && w in ScalingWrites(a, s)
    ensures ForScaling(a, s, w.name, w.resource)
  {
    hide ServiceName;
    hide AutoScalingRoleName;
    hide ScalableTargetName;
    hide ScalingPolicyName;
    if w == ScalingWrites(a, s)[1] {
      TwoProperties(w.resource, "ResourceId", "RoleARN");
    } else {
      OneProperty(w.resource, w.resource.properties[0].path);
    }
  }

  // ---------- the task definition and the service resource ----------

  lemma TaskPaths(p: Project, a: Account, s: ServiceConfig, i: nat)
    requires i < 7
    ensures OwnPath(TaskDefinitionWrite(p, a, s).resource, i)
  {
    var properties := TaskDefinitionWrite(p, a, s).resource.properties;
    assert properties[1].path[1] == 'w' && properties[3].path[1] == 'c' && properties[2].path[0] == 'A' && properties[4].path[0] == 'F';
  }

  lemma TaskDefinitionHolds(p: Project, a: Account, s: ServiceConfig)
    ensures var r := TaskDefinitionWrite(p, a, s).resource;
      && (forall x :: Among(r, "Secrets", x) <==> x in SecretValues(p, s.secrets))
      && Only(r, "AwslogsRegion", LogOption(s, "awslogs-region", Ref(REGION)))
      && Only(r, "AwslogsGroup", LogOption(s, "awslogs-group", Ref("LogGroup")))
      && (forall x :: Among(r, "AccessPointId", x) <==> x in AccessPoints(s.volumes))
      && (forall x :: Among(r, "FilesystemId", x) <==> x in FileSystemIds(a, s.volumes))
      && Only(r, "ExecutionRoleArn", Ref(ExecutionRoleName(s.name)))
      && (forall x :: Among(r, "TaskRoleArn", x) <==> x in if HasTaskRole(s) then [Ref(TaskRoleName(s.name))] else [])
  {
    hide Among;
    hide OwnPath;
    hide SecretValues;
    hide LogOption;
    hide AccessPoints;
    hide FileSystemIds;
    hide HasTaskRole;
    hide ExecutionRoleName;
    hide TaskRoleName;
    hide TaskDefinitionName;
    var r := TaskDefinitionWrite(p, a, s).resource;
    forall i: nat | i < 7
      ensures forall x :: Among(r, r.properties[i].path, x) <==> x in r.properties[i].atoms
    {
      TaskPaths(p, a, s, i);
      AtPath(r, i);
    }
    assert r.properties[0].path == "Secrets" && r.properties[1].path == "AwslogsRegion" && r.properties[2].path == "AwslogsGroup";
    assert r.properties[3].path == "AccessPointId" && r.properties[4].path == "FilesystemId";
    assert r.properties[5].path == "ExecutionRoleArn" && r.properties[6].path == "TaskRoleArn";
  }

  lemma TaskDefinitionIsRight(p: Project, a: Account, s: ServiceConfig)
    requires FoundInAccount(p, a)
    ensures ForTaskDefinition(p, a, s, TaskDefinitionWrite(p, a, s).name, TaskDefinitionWrite(p, a, s).resource)
  {
    hide FoundInAccount;
    hide Among;
    hide IsSecretOfAny;
    hide IsAccessPoint;
    hide IsFileSystemId;
    hide SecretValues;
    hide AccessPoints;
    hide FileSystemIds;
    hide ExecutionRoleName;
    hide TaskRoleName;
    hide TaskDefinitionName;
    TaskDefinitionHolds(p, a, s);
    forall x
      ensures x in SecretValues(p, s.secrets) <==> IsSecretOfAny(p, s.secrets, x)
      ensures x in AccessPoints(s.volumes) <==> IsAccessPoint(s.volumes, x)
      ensures x in FileSystemIds(a, s.volumes) <==> exists v :: v in s.volumes && IsFileSystemId(a, v, x)
    {
      SecretsAre(p, s.secrets, x);
      AccessPointsAre(s.volumes, x);
      FileSystemsAre(p, a, s.volumes, x);
    }
  }

  lemma ServicePaths(p: Project, a: Account, s: ServiceConfig, i: nat)
    requires i < 6
    ensures OwnPath(ServiceResource(p, a, s), i)
  {
    var properties := ServiceResource(p, a, s).properties;
    assert properties[1].path[0] == 'L' && properties[2].path[0] == 'S' && properties[5].path[0] == 'T';
  }

  lemma ServiceHolds(p: Project, a: Account, s: ServiceConfig)
    ensures var r := ServiceResource(p, a, s);
      && Only(r, "Cluster", ClusterOf(a).Arn())
      && (forall x :: Among(r, "LoadBalancers", x) <==> x in TargetGroups(s))
      && (forall x :: Among(r, "SecurityGroups", x) <==> x in Groups(p, a, s.networks))
      && (forall x :: Among(r, "Subnets", x) <==> x in Lits(a.subnets))
      && Only(r, "ServiceRegistries", GetAtt(DiscoveryName(s.name), "Arn"))
      && Only(r, "TaskDefinition", Ref(TaskDefinitionName(s.name)))
  {
    hide Among;
    hide OwnPath;
    hide ClusterOf;
    hide TargetGroups;
    hide Groups;
    hide Lits;
    hide DiscoveryName;
    hide Listeners;
    hide ServiceNames;
    hide AllMountTargets;
    var r := ServiceResource(p, a, s);
    forall i: nat | i < 6
      ensures forall x :: Among(r, r.properties[i].path, x) <==> x in r.properties[i].atoms
    {
      ServicePaths(p, a, s, i);
      AtPath(r, i);
    }
    assert r.properties[0].path == "Cluster" && r.properties[1].path == "LoadBalancers" && r.properties[2].path == "SecurityGroups";
    assert r.properties[3].path == "Subnets" && r.properties[4].path == "ServiceRegistries" && r.properties[5].path == "TaskDefinition";
    NormalizedTwice(s.name);
  }

  lemma ServiceIsWired(p: Project, a: Account, s: ServiceConfig)
    requires FoundInAccount(p, a)
    ensures ServiceWired(p, a, s, ServiceResource(p, a, s))
  {
    hide Among;
    hide TargetGroups;
    hide IsTargetGroup;
    hide Groups;
    hide IsGroupOfAny;
    hide Lits;
    hide IsSubnet;
    hide WaitsFor;
    hide DiscoveryName;
    hide TaskDefinitionName;
    ServiceHolds(p, a, s);
    var r := ServiceResource(p, a, s);
    forall x
      ensures x in TargetGroups(s) <==> IsTargetGroup(s, x)
      ensures x in Groups(p, a, s.networks) <==> IsGroupOfAny(p, a, s.networks, x)
      ensures x in Lits(a.subnets) <==> IsSubnet(a, x)
    {
      TargetGroupsAre(s, x);
      GroupsAre(p, a, s.networks, x);
      SubnetsAre(a, x);
    }
    forall d
      ensures d in r.dependsOn <==> WaitsFor(a, s, d)
    {
      WaitsForAre(p, a, s, d);
    }
  }
}
