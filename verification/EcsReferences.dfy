/** Every reference a resource of the template makes: that its target is written, and that it stands lower. */
module EcsReferences {
  import opened EcsNames
  import opened EcsTemplate

  /**
   * A conversion seen through the names it writes, what it writes for the cluster and the level given to
   * each name. The proofs below need only what `Sound` says of the three.
   */
  datatype Ground = Ground(p: Project, a: Account, names: set<string>, clusters: set<Write>, level: string -> nat)

  predicate SubnetsNamed(a: Account) {
    forall subnet :: subnet in a.subnets ==> SubnetId(subnet)
  }

  ghost predicate Graded(a: Account, level: string -> nat) {
    && ResourcesGraded(level) && PortsGraded(level) && ConstantsGraded(level)
    && (forall x, subnet :: SubnetsNamed(a) && subnet in a.subnets ==> level(MountTargetName(x, subnet)) == 1)
    && (forall x, subnet :: MountTargetName(x, subnet) != "Cluster")
  }

  ghost predicate ResourcesGraded(level: string -> nat) {
    && (forall x :: level(NetworkName(x)) == 0)
    && (forall x :: level(VolumeName(x)) == 0)
    && (forall x :: level(SecretName(x)) == 0)
    && (forall x :: level(AccessPointName(x)) == 1)
    && (forall x :: level(NetworkName(x) + "Ingress") == 1)
    && (forall x :: level(ExecutionRoleName(x)) == 1)
    && (forall x :: level(DiscoveryName(x)) == 1)
    && (forall x :: level(TaskRoleName(x)) == 2)
    && (forall x :: level(TaskDefinitionName(x)) == 3)
    && (forall x :: level(ServiceName(x)) == 6)
    && (forall x :: level(AutoScalingRoleName(x)) == 7)
    && (forall x :: level(ScalableTargetName(x)) == 8)
    && (forall x :: level(ScalingPolicyName(x)) == 9)
  }

  ghost predicate PortsGraded(level: string -> nat) {
    && (forall x, protocol, port :: level(TargetGroupName(x, protocol, port)) == 0)
    && (forall x, target :: level(IngressName(x, target)) == 1)
    && (forall x, protocol, target :: level(ListenerName(x, protocol, target)) == 2)
  }

  predicate ConstantsGraded(level: string -> nat) {
    && level("LogGroup") == 0 && level("CloudMap") == 0 && level("LoadBalancer") == 1
    && level("EC2InstanceRole") == 0 && level("EC2InstanceProfile") == 1 && level("LaunchConfiguration") == 2
    && level("AutoscalingGroup") == 3 && level("CapacityProvider") == 4 && level("Cluster") == 5
  }

  lemma LevelIsGraded(a: Account)
    ensures Graded(a, Level)
  {
    ResourceLevelsAreGraded();
    PortLevelsAreGraded();
    ConstantLevels();
    forall x, subnet | SubnetsNamed(a) && subnet in a.subnets
      ensures Level(MountTargetName(x, subnet)) == 1
    {
      MountTargetLevel(x, subnet);
    }
    forall x, subnet
      ensures MountTargetName(x, subnet) != "Cluster"
    {
      assert |MountTargetName(x, subnet)| > |"Cluster"|;
    }
  }

  lemma ResourceLevelsAreGraded()
    ensures ResourcesGraded(Level)
  {
    forall x
      ensures Level(NetworkName(x)) == 0 && Level(VolumeName(x)) == 0 && Level(SecretName(x)) == 0
      ensures Level(AccessPointName(x)) == 1 && Level(NetworkName(x) + "Ingress") == 1
      ensures Level(ExecutionRoleName(x)) == 1 && Level(DiscoveryName(x)) == 1
      ensures Level(TaskRoleName(x)) == 2 && Level(TaskDefinitionName(x)) == 3 && Level(ServiceName(x)) == 6
    {
      ResourceLevels(x);
    }
    forall x
      ensures Level(AutoScalingRoleName(x)) == 7 && Level(ScalableTargetName(x)) == 8 && Level(ScalingPolicyName(x)) == 9
    {
      ScalingLevels(x);
    }
  }

  lemma PortLevelsAreGraded()
    ensures PortsGraded(Level)
  {
    forall x, protocol, port
      ensures Level(TargetGroupName(x, protocol, port)) == 0 && Level(ListenerName(x, protocol, port)) == 2
    {
      PortLevels(x, protocol, port);
    }
    forall x, target
      ensures Level(IngressName(x, target)) == 1
    {
      PortLevels(x, "", target);
    }
  }

  ghost predicate Complete(p: Project, a: Account, names: set<string>) {
    && AccountComplete(p, a, names)
    && VolumesComplete(p, a, names)
    && (forall x :: HasNetwork(p, x) && x !in a.securityGroups ==> NetworkName(x) in names)
    && (forall i :: 0 <= i < |p.secrets| && !p.secrets[i].external ==> SecretName(p.secrets[i].name) in names)
    && (forall s :: s in p.services ==> ServiceComplete(s, names))
  }

  ghost predicate AccountComplete(p: Project, a: Account, names: set<string>) {
    && (a.cluster.None? ==> "Cluster" in names)
    && (a.loadBalancer.None? && !NoPorts(p) ==> "LoadBalancer" in names)
    && "LogGroup" in names && "CloudMap" in names
    && (forall i :: 0 <= i < |CapacityWrites(p, a)| ==> CapacityWrites(p, a)[i].name in names)
  }

  ghost predicate VolumesComplete(p: Project, a: Account, names: set<string>) {
    && (forall x :: HasVolume(p, x) && x !in a.filesystems ==> VolumeName(x) in names)
    && (forall x :: HasVolume(p, x) ==> AccessPointName(x) in names)
    && (forall x, subnet :: HasVolume(p, x) && subnet in a.subnets ==> MountTargetName(x, subnet) in names)
  }

  ghost predicate ServiceComplete(s: ServiceConfig, names: set<string>) {
    && ServiceName(s.name) in names && TaskDefinitionName(s.name) in names
    && ExecutionRoleName(s.name) in names && DiscoveryName(s.name) in names
    && (HasTaskRole(s) ==> TaskRoleName(s.name) in names)
    && (forall i :: 0 <= i < |s.ports| ==>
          && TargetGroupName(s.name, s.ports[i].protocol, s.ports[i].published) in names
          && ListenerName(s.name, s.ports[i].protocol, s.ports[i].target) in names)
    && (Scales(s) ==> AutoScalingRoleName(s.name) in names && ScalableTargetName(s.name) in names)
  }

  ghost predicate Sound(g: Ground) {
    && Complete(g.p, g.a, g.names) && Graded(g.a, g.level)
    && (forall w :: w in ClusterWrites(g.p, g.a) ==> w in g.clusters)
  }

  /** A reference to a written resource, of a level below `level`. */
  predicate NameGood(g: Ground, name: string, level: nat) {
    name in g.names && (SubnetsNamed(g.a) ==> g.level(name) < level)
  }

  predicate AtomGood(g: Ground, atom: Atom, level: nat) {
    atom.Lit? || atom.name == REGION || NameGood(g, atom.name, level)
  }

  predicate AtomsGood(g: Ground, atoms: seq<Atom>, level: nat) {
    forall i :: 0 <= i < |atoms| ==> AtomGood(g, atoms[i], level)
  }

  predicate PropertiesGood(g: Ground, properties: seq<Property>, level: nat) {
    forall i :: 0 <= i < |properties| ==> AtomsGood(g, properties[i].atoms, level)
  }

  /** A name a resource lists as a dependency; services also list other services. */
  ghost predicate DependencyGood(g: Ground, w: Write, d: string, level: nat) {
    NameGood(g, d, level) || ServiceDependency(g, w, d)
  }

  ghost predicate ServiceDependency(g: Ground, w: Write, d: string) {
    exists s :: s in g.p.services && w == Write(ServiceName(s.name), ServiceResource(g.p, g.a, s)) && d in ServiceNames(s.dependsOn)
  }

  ghost predicate IsServiceWrite(g: Ground, w: Write) {
    exists s :: s in g.p.services && w == Write(ServiceName(s.name), ServiceResource(g.p, g.a, s))
  }

  /** All references of a write, whose name is of this level, are good; only services are at level 6. */
  ghost predicate GoodAt(g: Ground, w: Write, level: nat) {
    && (SubnetsNamed(g.a) ==> g.level(w.name) == level)
    && (level == 6 ==> IsServiceWrite(g, w))
    && (w.name == "Cluster" ==> w in g.clusters)
    && PropertiesGood(g, w.resource.properties, level)
    && forall i :: 0 <= i < |w.resource.dependsOn| ==> DependencyGood(g, w, w.resource.dependsOn[i], level)
  }

  ghost predicate WriteGood(g: Ground, w: Write) {
    exists level: nat :: GoodAt(g, w, level)
  }

  lemma GoodMentions(g: Ground, w: Write, name: string)
    requires WriteGood(g, w) && Mentions(w.resource, name)
    ensures (name in g.names && (SubnetsNamed(g.a) ==> g.level(name) < g.level(w.name))) || ServiceDependency(g, w, name)
  {
    var level: nat :| GoodAt(g, w, level);
    if name !in w.resource.dependsOn {
      var p :| p in w.resource.properties && RefersTo(p, name);
      var atom :| atom in p.atoms && !atom.Lit? && atom.name == name;
      assert AtomsGood(g, p.atoms, level);
      assert AtomGood(g, atom, level);
    }
  }

  lemma ServiceAtSix(g: Ground, w: Write) returns (s: ServiceConfig)
    requires WriteGood(g, w) && SubnetsNamed(g.a) && g.level(w.name) == 6
    ensures s in g.p.services && w == Write(ServiceName(s.name), ServiceResource(g.p, g.a, s))
  {
    var level: nat :| GoodAt(g, w, level);
    s :| s in g.p.services && w == Write(ServiceName(s.name), ServiceResource(g.p, g.a, s));
  }

  // ---------- the values references are made of ----------

  lemma GroupIsGood(g: Ground, network: string, level: nat)
    requires Sound(g)
    requires level > 0
    ensures AtomGood(g, GroupOf(g.p, g.a, network), level)
  {
    if GroupOf(g.p, g.a, network).Ref? {
    }
  }

  lemma GroupsAreGood(g: Ground, networks: seq<string>, level: nat)
    requires Sound(g)
    requires level > 0
    ensures AtomsGood(g, Groups(g.p, g.a, networks), level)
  {
    forall i | 0 <= i < |networks|
      ensures AtomGood(g, Groups(g.p, g.a, networks)[i], level)
    {
      GroupIsGood(g, networks[i], level);
    }
  }

  lemma FileSystemIsGood(g: Ground, volume: string, level: nat)
    requires Sound(g)
    requires FoundInAccount(g.p, g.a) && HasVolume(g.p, volume) && level > 0
    ensures AtomGood(g, FileSystemOf(g.a, volume).Id(), level) && AtomGood(g, FileSystemOf(g.a, volume).Arn(), level)
  {
  }

  lemma FileSystemsAreGood(g: Ground, volumes: seq<string>, level: nat)
    requires Sound(g)
    requires FoundInAccount(g.p, g.a) && level > 1 && forall v :: v in volumes ==> HasVolume(g.p, v)
    ensures AtomsGood(g, FileSystemIds(g.a, volumes), level) && AtomsGood(g, FileSystemArns(g.a, volumes), level)
    ensures AtomsGood(g, AccessPoints(volumes), level)
  {
    forall i | 0 <= i < |volumes|
      ensures AtomGood(g, FileSystemIds(g.a, volumes)[i], level) && AtomGood(g, FileSystemArns(g.a, volumes)[i], level)
      ensures AtomGood(g, AccessPoints(volumes)[i], level)
    {
      FileSystemIsGood(g, volumes[i], level);
    }
  }

  lemma {:induction false} SecretValueIsOwn(secrets: seq<Secret>, key: string)
    ensures SecretValue(secrets, key).Lit?
            || exists i :: 0 <= i < |secrets| && !secrets[i].external && SecretValue(secrets, key) == Ref(SecretName(secrets[i].name))
  {
    if secrets != [] {
      SecretValueIsOwn(secrets[..|secrets| - 1], key);
    }
  }

  lemma SecretsAreGood(g: Ground, keys: seq<string>, level: nat)
    requires Sound(g)
    requires level > 0
    ensures AtomsGood(g, SecretValues(g.p, keys), level)
  {
    forall i | 0 <= i < |keys|
      ensures AtomGood(g, SecretValues(g.p, keys)[i], level)
    {
      SecretValueIsOwn(g.p.secrets, keys[i]);
      if SecretValue(g.p.secrets, keys[i]).Ref? {
        var k :| 0 <= k < |g.p.secrets| && !g.p.secrets[k].external && SecretValue(g.p.secrets, keys[i]) == Ref(SecretName(g.p.secrets[k].name));
      }
    }
  }

  lemma ClusterIsGood(g: Ground, level: nat)
    requires Sound(g)
    requires FoundInAccount(g.p, g.a) && level > 5
    ensures AtomGood(g, ClusterOf(g.a).Arn(), level) && AtomGood(g, ClusterOf(g.a).Id(), level)
  {
  }

  // ---------- the writes, one writer after the other ----------

  lemma NetworkWritesAreGood(g: Ground, n: Network, w: Write)
    requires Sound(g)
    requires n in g.p.networks && w in NetworkWrites(g.p, g.a, n)
    ensures WriteGood(g, w)
  {
    if w == NetworkWrites(g.p, g.a, n)[0] {
      assert GoodAt(g, w, 0);
    } else {
      var i :| 0 <= i < |g.p.networks| && g.p.networks[i] == n;
      assert GoodAt(g, w, 1);
    }
  }

  lemma VolumeWritesAreGood(g: Ground, v: Volume, w: Write)
    requires Sound(g)
    requires FoundInAccount(g.p, g.a) && v in g.p.volumes
    requires w in VolumeWrites(g.a, v) || w == AccessPointWrite(g.a, v)
    ensures WriteGood(g, w)
  {
    if w in VolumeWrites(g.a, v) {
      assert GoodAt(g, w, 0);
    } else {
      var i :| 0 <= i < |g.p.volumes| && g.p.volumes[i] == v;
      FileSystemIsGood(g, v.name, 1);
      assert GoodAt(g, w, 1);
    }
  }

  lemma MountTargetIsGood(g: Ground, v: Volume, subnet: string)
    requires Sound(g)
    requires FoundInAccount(g.p, g.a) && v in g.p.volumes && subnet in g.a.subnets
    ensures WriteGood(g, MountTargetWrite(g.p, g.a, v, subnet))
  {
    var i :| 0 <= i < |g.p.volumes| && g.p.volumes[i] == v;
    FileSystemIsGood(g, v.name, 1);
    GroupsAreGood(g, NetworkNames(g.p.networks), 1);
    assert GoodAt(g, MountTargetWrite(g.p, g.a, v, subnet), 1);
  }

  lemma LogGroupAndCloudMapAreGood(g: Ground)
    requires Sound(g)
    ensures WriteGood(g, LogGroupWrite(g.p)) && WriteGood(g, CloudMapWrite(g.p, g.a))
  {
    assert GoodAt(g, LogGroupWrite(g.p), 0) && GoodAt(g, CloudMapWrite(g.p, g.a), 0);
  }

  lemma BalancerGroupsAreGood(g: Ground)
    requires Sound(g)
    ensures AtomsGood(g, BalancerGroups(g.p, g.a), 1)
  {
    GroupsAreGood(g, PublicNetworks(g.p.networks), 1);
  }

  lemma LoadBalancerWriteIsGood(g: Ground)
    requires Sound(g)
    ensures WriteGood(g, LoadBalancerWrite(g.p, g.a))
  {
    BalancerGroupsAreGood(g);
    assert GoodAt(g, LoadBalancerWrite(g.p, g.a), 1);
  }

  lemma ClusterWriteIsGood(g: Ground, w: Write)
    requires Sound(g) && w in ClusterWrites(g.p, g.a)
    ensures WriteGood(g, w)
  {
    assert GoodAt(g, w, 5);
  }

  lemma SecretWriteIsGood(g: Ground, s: Secret, w: Write)
    requires Sound(g) && w in SecretWrites(s)
    ensures WriteGood(g, w)
  {
    assert GoodAt(g, w, 0);
  }

  lemma ExecutionRoleIsGood(g: Ground, s: ServiceConfig)
    requires Sound(g)
    requires s in g.p.services
    ensures WriteGood(g, ExecutionRoleWrite(g.p, s))
  {
    SecretsAreGood(g, s.secrets, 1);
    assert GoodAt(g, ExecutionRoleWrite(g.p, s), 1);
  }

  lemma TaskRoleIsGood(g: Ground, s: ServiceConfig, w: Write)
    requires Sound(g)
    requires Convertible(g.p, g.a) && s in g.p.services && w in TaskRoleWrites(g.a, s)
    ensures WriteGood(g, w)
  {
    FileSystemsAreGood(g, s.volumes, 2);
    assert GoodAt(g, w, 2);
  }

  lemma TaskPropertyIsGood(g: Ground, s: ServiceConfig, i: nat)
    requires Sound(g)
    requires Convertible(g.p, g.a) && s in g.p.services && i < 7
    ensures AtomsGood(g, TaskDefinitionWrite(g.p, g.a, s).resource.properties[i].atoms, 3)
  {
    if i == 0 {
      SecretsAreGood(g, s.secrets, 3);
    } else if i == 3 || i == 4 {
      FileSystemsAreGood(g, s.volumes, 3);
    } else if i == 1 || i == 2 {
      LogOptionsAreGood(g, s);
    } else {
      RolesAreGood(g, s);
    }
  }

  lemma LogOptionsAreGood(g: Ground, s: ServiceConfig)
    requires Sound(g)
    ensures AtomGood(g, LogOption(s, "awslogs-region", Ref(REGION)), 3) && AtomGood(g, LogOption(s, "awslogs-group", Ref("LogGroup")), 3)
  {
  }

  lemma RolesAreGood(g: Ground, s: ServiceConfig)
    requires Sound(g) && s in g.p.services
    ensures NameGood(g, ExecutionRoleName(s.name), 3)
    ensures HasTaskRole(s) ==> NameGood(g, TaskRoleName(s.name), 3)
  {
    assert ServiceComplete(s, g.names);
  }

  lemma TaskDefinitionIsGood(g: Ground, s: ServiceConfig)
    requires Sound(g)
    requires Convertible(g.p, g.a) && s in g.p.services
    ensures WriteGood(g, TaskDefinitionWrite(g.p, g.a, s))
  {
    var properties := TaskDefinitionWrite(g.p, g.a, s).resource.properties;
    forall i | 0 <= i < |properties|
      ensures AtomsGood(g, properties[i].atoms, 3)
    {
      TaskPropertyIsGood(g, s, i);
    }
    assert GoodAt(g, TaskDefinitionWrite(g.p, g.a, s), 3);
  }

  lemma DiscoveryIsGood(g: Ground, s: ServiceConfig)
    requires Sound(g)
    ensures WriteGood(g, DiscoveryWrite(s))
  {
    assert GoodAt(g, DiscoveryWrite(s), 1);
  }

  lemma IngressIsGood(g: Ground, network: string, port: Port)
    requires Sound(g)
    ensures WriteGood(g, IngressWrite(g.p, g.a, network, port))
  {
    GroupIsGood(g, network, 1);
    assert GoodAt(g, IngressWrite(g.p, g.a, network, port), 1);
  }

  lemma LoadBalancerIsGood(g: Ground, s: ServiceConfig, level: nat)
    requires Sound(g)
    requires FoundInAccount(g.p, g.a) && s in g.p.services && s.ports != [] && level > 1
    ensures AtomGood(g, LoadBalancerOf(g.a).Arn(), level)
  {
    if g.a.loadBalancer.None? {
      assert !NoPorts(g.p);
    }
  }

  lemma TargetGroupIsGood(g: Ground, s: ServiceConfig, port: Port)
    requires Sound(g) && FoundInAccount(g.p, g.a)
    ensures WriteGood(g, TargetGroupWrite(g.a, s, port))
  {
    assert GoodAt(g, TargetGroupWrite(g.a, s, port), 0);
  }

  lemma ListenerIsGood(g: Ground, s: ServiceConfig, i: nat)
    requires Sound(g)
    requires FoundInAccount(g.p, g.a) && s in g.p.services && i < |s.ports| && ListenerWrite(g.a, s, s.ports[i]) in PortWrites(g.p, g.a, s, s.ports[i])
    ensures WriteGood(g, ListenerWrite(g.a, s, s.ports[i]))
  {
    LoadBalancerIsGood(g, s, 2);
    assert GoodAt(g, ListenerWrite(g.a, s, s.ports[i]), 2);
  }

  lemma PortWritesAreGood(g: Ground, s: ServiceConfig, i: nat, w: Write)
    requires Sound(g)
    requires FoundInAccount(g.p, g.a) && s in g.p.services && i < |s.ports| && w in PortWrites(g.p, g.a, s, s.ports[i])
    ensures WriteGood(g, w)
  {
    hide Sound;
    hide WriteGood;
    hide FoundInAccount;
    var port := s.ports[i];
    if w == TargetGroupWrite(g.a, s, port) {
      TargetGroupIsGood(g, s, port);
    } else if w == ListenerWrite(g.a, s, port) {
      ListenerIsGood(g, s, i);
    } else {
      InIngresses(g.p, g.a, s.networks, port, w);
      var k :| 0 <= k < |s.networks| && w == IngressWrite(g.p, g.a, s.networks[k], port);
      IngressIsGood(g, s.networks[k], port);
    }
  }

  // ---------- the service resource ----------

  lemma {:induction false} MountTargetsAreGood(g: Ground, volumes: seq<string>, level: nat)
    requires Sound(g)
    requires level > 1 && forall v :: v in volumes ==> HasVolume(g.p, v)
    ensures forall i :: 0 <= i < |AllMountTargets(g.a, volumes)| ==> NameGood(g, AllMountTargets(g.a, volumes)[i], level)
  {
    if volumes != [] {
      var n := |volumes| - 1;
      MountTargetsAreGood(g, volumes[..n], level);
      forall i | 0 <= i < |g.a.subnets|
        ensures NameGood(g, MountTargets(g.a, volumes[n])[i], level)
      {
      }
    }
  }

  lemma ListenerDependencyIsGood(g: Ground, s: ServiceConfig, i: nat)
    requires Sound(g)
    requires Convertible(g.p, g.a) && s in g.p.services && i < |s.ports|
    ensures NameGood(g, Listeners(s)[i], 6)
  {
  }

  lemma ServiceDependenciesAreGood(g: Ground, s: ServiceConfig, i: nat)
    requires Sound(g)
    requires Convertible(g.p, g.a) && s in g.p.services
    requires i < |ServiceResource(g.p, g.a, s).dependsOn|
    ensures DependencyGood(g, Write(ServiceName(s.name), ServiceResource(g.p, g.a, s)), ServiceResource(g.p, g.a, s).dependsOn[i], 6)
  {
    hide Sound;
    hide NameGood;
    hide Convertible;
    hide ServiceDependency;
    var w := Write(ServiceName(s.name), ServiceResource(g.p, g.a, s));
    DependsOnParts(g.p, g.a, s, i);
    if i < |s.ports| {
      ListenerDependencyIsGood(g, s, i);
    } else if i < |s.ports| + |s.dependsOn| {
      IsServiceDependency(g, s, i - |s.ports|);
    } else {
      MountDependencyIsGood(g, s, i - |s.ports| - |s.dependsOn|);
    }
  }

  /** A service depends on its listeners, on services, and on mount targets. */
  lemma DependsOnParts(p: Project, a: Account, s: ServiceConfig, i: nat)
    requires i < |ServiceResource(p, a, s).dependsOn|
    ensures var d, n := ServiceResource(p, a, s).dependsOn[i], |s.ports|;
      if i < n then i < |Listeners(s)| && d == Listeners(s)[i]
      else if i < n + |s.dependsOn| then i - n < |ServiceNames(s.dependsOn)| && d == ServiceNames(s.dependsOn)[i - n]
      else i - n - |s.dependsOn| < |AllMountTargets(a, s.volumes)| && d == AllMountTargets(a, s.volumes)[i - n - |s.dependsOn|]
  {
  }

  lemma IsServiceDependency(g: Ground, s: ServiceConfig, i: nat)
    requires s in g.p.services && i < |ServiceNames(s.dependsOn)|
    ensures ServiceDependency(g, Write(ServiceName(s.name), ServiceResource(g.p, g.a, s)), ServiceNames(s.dependsOn)[i])
  {
  }

  lemma MountDependencyIsGood(g: Ground, s: ServiceConfig, i: nat)
    requires Sound(g)
    requires Convertible(g.p, g.a) && s in g.p.services && i < |AllMountTargets(g.a, s.volumes)|
    ensures NameGood(g, AllMountTargets(g.a, s.volumes)[i], 6)
  {
    MountTargetsAreGood(g, s.volumes, 6);
  }

  lemma TargetGroupsAreGood(g: Ground, s: ServiceConfig, level: nat)
    requires Sound(g)
    requires s in g.p.services && level > 0
    ensures AtomsGood(g, TargetGroups(s), level)
  {
    forall i | 0 <= i < |s.ports|
      ensures AtomGood(g, TargetGroups(s)[i], level)
    {
    }
  }

  lemma ServicePropertyIsGood(g: Ground, s: ServiceConfig, i: nat)
    requires Sound(g)
    requires Convertible(g.p, g.a) && s in g.p.services && i < 6
    ensures AtomsGood(g, ServiceResource(g.p, g.a, s).properties[i].atoms, 6)
  {
    if i == 0 {
      ClusterIsGood(g, 6);
    } else if i == 1 {
      TargetGroupsAreGood(g, s, 6);
    } else if i == 2 {
      GroupsAreGood(g, s.networks, 6);
    } else {
      OwnNamesAreGood(g, s, i);
    }
  }

  /** The properties that refer to resources of the service's own. */
  lemma OwnNamesAreGood(g: Ground, s: ServiceConfig, i: nat)
    requires Sound(g)
    requires Convertible(g.p, g.a) && s in g.p.services && 3 <= i < 6
    ensures AtomsGood(g, ServiceResource(g.p, g.a, s).properties[i].atoms, 6)
  {
    NormalizedTwice(s.name);
    assert ServiceComplete(s, g.names);
  }

  lemma ServicePropertiesAreGood(g: Ground, s: ServiceConfig)
    requires Sound(g)
    requires Convertible(g.p, g.a) && s in g.p.services
    ensures PropertiesGood(g, ServiceResource(g.p, g.a, s).properties, 6)
  {
    var properties := ServiceResource(g.p, g.a, s).properties;
    forall i | 0 <= i < |properties|
      ensures AtomsGood(g, properties[i].atoms, 6)
    {
      ServicePropertyIsGood(g, s, i);
    }
  }

  lemma ServiceIsGood(g: Ground, s: ServiceConfig)
    requires Sound(g)
    requires Convertible(g.p, g.a) && s in g.p.services
    ensures WriteGood(g, Write(ServiceName(s.name), ServiceResource(g.p, g.a, s)))
  {
    var w := Write(ServiceName(s.name), ServiceResource(g.p, g.a, s));
    ServicePropertiesAreGood(g, s);
    forall i | 0 <= i < |w.resource.dependsOn|
      ensures DependencyGood(g, w, w.resource.dependsOn[i], 6)
    {
      ServiceDependenciesAreGood(g, s, i);
    }
    assert GoodAt(g, w, 6);
  }

  lemma ScalingRoleIsGood(g: Ground, s: ServiceConfig)
    requires Sound(g)
    requires Convertible(g.p, g.a) && s in g.p.services && Scales(s)
    ensures WriteGood(g, ScalingWrites(g.a, s)[0])
  {
    assert GoodAt(g, ScalingWrites(g.a, s)[0], 7);
  }

  lemma ScalableTargetIsGood(g: Ground, s: ServiceConfig)
    requires Sound(g)
    requires Convertible(g.p, g.a) && s in g.p.services && Scales(s)
    ensures WriteGood(g, ScalingWrites(g.a, s)[1])
  {
    ClusterIsGood(g, 8);
    assert GoodAt(g, ScalingWrites(g.a, s)[1], 8);
  }

  lemma ScalingPolicyIsGood(g: Ground, s: ServiceConfig)
    requires Sound(g)
    requires Convertible(g.p, g.a) && s in g.p.services && Scales(s)
    ensures WriteGood(g, ScalingWrites(g.a, s)[2])
  {
    assert GoodAt(g, ScalingWrites(g.a, s)[2], 9);
  }

  lemma ScalingIsGood(g: Ground, s: ServiceConfig, w: Write)
    requires Sound(g)
    requires Convertible(g.p, g.a) && s in g.p.services && w in ScalingWrites(g.a, s)
    ensures WriteGood(g, w)
  {
    hide Sound;
    hide WriteGood;
    hide Convertible;
    ScalingRoleIsGood(g, s);
    ScalableTargetIsGood(g, s);
    ScalingPolicyIsGood(g, s);
  }

  /** Each resource of the chain refers to the next one. */
  lemma ChainWriteIsGood(g: Ground, i: nat)
    requires Sound(g)
    requires Convertible(g.p, g.a) && i < |CapacityWrites(g.p, g.a)| && i < 5 && i != 2
    ensures WriteGood(g, CapacityWrites(g.p, g.a)[i])
  {
    var other := CapacityWrites(g.p, g.a)[if i < 4 then i + 1 else 0];
    assert other.name in g.names;
    assert GoodAt(g, CapacityWrites(g.p, g.a)[i], 4 - i);
  }

  lemma LaunchConfigurationIsGood(g: Ground)
    requires Sound(g)
    requires Convertible(g.p, g.a) && 2 < |CapacityWrites(g.p, g.a)|
    ensures WriteGood(g, CapacityWrites(g.p, g.a)[2])
  {
    assert CapacityWrites(g.p, g.a)[3].name in g.names;
    GroupsAreGood(g, NetworkNames(g.p.networks), 2);
    assert GoodAt(g, CapacityWrites(g.p, g.a)[2], 2);
  }

  lemma ExtendedClusterIsGood(g: Ground)
    requires Sound(g)
    requires Convertible(g.p, g.a) && 5 < |CapacityWrites(g.p, g.a)|
    requires Write("Cluster", WithCapacityProvider(ClusterResource(g.p))) in g.clusters
    ensures WriteGood(g, CapacityWrites(g.p, g.a)[5])
  {
    assert CapacityWrites(g.p, g.a)[0].name in g.names;
    assert GoodAt(g, CapacityWrites(g.p, g.a)[5], 5);
  }

  lemma CapacityWriteIsGood(g: Ground, i: nat)
    requires Sound(g)
    requires Convertible(g.p, g.a) && i < |CapacityWrites(g.p, g.a)|
    requires Write("Cluster", WithCapacityProvider(ClusterResource(g.p))) in g.clusters
    ensures WriteGood(g, CapacityWrites(g.p, g.a)[i])
  {
    hide Sound;
    hide WriteGood;
    hide Convertible;
    if i == 2 {
      LaunchConfigurationIsGood(g);
    } else if i < 5 {
      ChainWriteIsGood(g, i);
    } else {
      ExtendedClusterIsGood(g);
    }
  }

  // ---------- all writes ----------

  lemma EnsuredAreGood(g: Ground, w: Write)
    requires Sound(g)
    requires Convertible(g.p, g.a) && w in EnsuredWrites(g.p, g.a)
    ensures WriteGood(g, w)
  {
    InNetworks(g.p, g.a, w);
    InVolumes(g.p, g.a, w);
    if w in NetworksWrites(g.p, g.a) {
      var i :| 0 <= i < |g.p.networks| && w in NetworkWrites(g.p, g.a, g.p.networks[i]);
      NetworkWritesAreGood(g, g.p.networks[i], w);
    } else if w in VolumesWrites(g.p, g.a) {
      var i :| 0 <= i < |g.p.volumes| && w in VolumeWrites(g.a, g.p.volumes[i]);
      VolumeWritesAreGood(g, g.p.volumes[i], w);
    } else if w in ClusterWrites(g.p, g.a) {
      ClusterWriteIsGood(g, w);
    } else {
      LoadBalancerWriteIsGood(g);
    }
  }

  lemma SecretsWrittenAreGood(g: Ground, w: Write)
    requires Sound(g) && w in SecretsWrites(g.p)
    ensures WriteGood(g, w)
  {
    InSecrets(g.p, w);
    var i :| 0 <= i < |g.p.secrets| && w in SecretWrites(g.p.secrets[i]);
    SecretWriteIsGood(g, g.p.secrets[i], w);
  }

  lemma MountTargetsWrittenAreGood(g: Ground, w: Write)
    requires Sound(g) && FoundInAccount(g.p, g.a) && w in MountsWrites(g.p, g.a)
    ensures WriteGood(g, w)
  {
    InMounts(g.p, g.a, w);
    var i :| 0 <= i < |g.p.volumes| && w in MountTargetWrites(g.p, g.a, g.p.volumes[i], g.a.subnets);
    InMountTargets(g.p, g.a, g.p.volumes[i], g.a.subnets, w);
    var k :| 0 <= k < |g.a.subnets| && w == MountTargetWrite(g.p, g.a, g.p.volumes[i], g.a.subnets[k]);
    MountTargetIsGood(g, g.p.volumes[i], g.a.subnets[k]);
  }

  lemma AccessPointsWrittenAreGood(g: Ground, w: Write)
    requires Sound(g) && FoundInAccount(g.p, g.a) && w in AccessPointWrites(g.p, g.a)
    ensures WriteGood(g, w)
  {
    InAccessPoints(g.p, g.a, w);
    var i :| 0 <= i < |g.p.volumes| && w in [AccessPointWrite(g.a, g.p.volumes[i])];
    VolumeWritesAreGood(g, g.p.volumes[i], w);
  }

  lemma SharedAreGood(g: Ground, w: Write)
    requires Sound(g)
    requires Convertible(g.p, g.a) && w in SharedWrites(g.p, g.a)
    ensures WriteGood(g, w)
  {
    if w in SecretsWrites(g.p) {
      SecretsWrittenAreGood(g, w);
    } else if w in MountsWrites(g.p, g.a) {
      MountTargetsWrittenAreGood(g, w);
    } else if w in AccessPointWrites(g.p, g.a) {
      AccessPointsWrittenAreGood(g, w);
    } else {
      LogGroupAndCloudMapAreGood(g);
    }
  }

  lemma PortsWrittenAreGood(g: Ground, s: ServiceConfig, w: Write)
    requires Sound(g) && FoundInAccount(g.p, g.a) && s in g.p.services
    requires w in PortsWrites(g.p, g.a, s)
    ensures WriteGood(g, w)
  {
    InPorts(g.p, g.a, s, w);
    var i :| 0 <= i < |s.ports| && w in PortWrites(g.p, g.a, s, s.ports[i]);
    PortWritesAreGood(g, s, i, w);
  }

  lemma ServiceWriteCases(p: Project, a: Account, s: ServiceConfig, w: Write)
    requires w in ServiceWrites(p, a, s)
    ensures w == ExecutionRoleWrite(p, s) || w in TaskRoleWrites(a, s) || w == TaskDefinitionWrite(p, a, s) || w == DiscoveryWrite(s)
            || w in PortsWrites(p, a, s) || w == Write(ServiceName(s.name), ServiceResource(p, a, s))
  {
  }

  lemma ServiceWritesAreGood(g: Ground, s: ServiceConfig, w: Write)
    requires Sound(g)
    requires Convertible(g.p, g.a) && s in g.p.services && w in ServiceWrites(g.p, g.a, s)
    ensures WriteGood(g, w)
  {
    ServiceWriteCases(g.p, g.a, s, w);
    if w in TaskRoleWrites(g.a, s) {
      TaskRoleIsGood(g, s, w);
    } else if w in PortsWrites(g.p, g.a, s) {
      PortsWrittenAreGood(g, s, w);
    } else {
      ExecutionRoleIsGood(g, s);
      TaskDefinitionIsGood(g, s);
      DiscoveryIsGood(g, s);
      ServiceIsGood(g, s);
    }
  }

  lemma ServicesWrittenAreGood(g: Ground, w: Write)
    requires Sound(g) && Convertible(g.p, g.a) && w in AllServiceWrites(g.p, g.a)
    ensures WriteGood(g, w)
  {
    InServices(g.p, g.a, w);
    var i :| 0 <= i < |g.p.services| && w in ServiceWrites(g.p, g.a, g.p.services[i]) + ScalingWrites(g.a, g.p.services[i]);
    if w in ServiceWrites(g.p, g.a, g.p.services[i]) {
      ServiceWritesAreGood(g, g.p.services[i], w);
    } else {
      ScalingIsGood(g, g.p.services[i], w);
    }
  }

  lemma EarlierWritesAreGood(g: Ground, w: Write)
    requires Sound(g)
    requires Convertible(g.p, g.a)
    requires w in EnsuredWrites(g.p, g.a) || w in SharedWrites(g.p, g.a) || w in AllServiceWrites(g.p, g.a)
    ensures WriteGood(g, w)
  {
    if w in EnsuredWrites(g.p, g.a) {
      EnsuredAreGood(g, w);
    } else if w in SharedWrites(g.p, g.a) {
      SharedAreGood(g, w);
    } else {
      ServicesWrittenAreGood(g, w);
    }
  }

  lemma CapacityIsGood(g: Ground, w: Write)
    requires Sound(g) && Convertible(g.p, g.a) && w in CapacityWrites(g.p, g.a)
    requires Write("Cluster", WithCapacityProvider(ClusterResource(g.p))) in g.clusters
    ensures WriteGood(g, w)
  {
    var i :| 0 <= i < |CapacityWrites(g.p, g.a)| && w == CapacityWrites(g.p, g.a)[i];
    CapacityWriteIsGood(g, i);
  }

  lemma WriteCases(p: Project, a: Account, w: Write)
    requires w in AllWrites(p, a)
    ensures w in EnsuredWrites(p, a) || w in SharedWrites(p, a) || w in AllServiceWrites(p, a) || (NeedsEC2(p) && w in CapacityWrites(p, a))
  {
  }

  /** Whatever is written refers only to written resources of lower levels, dependencies of services excepted. */
  lemma EveryWriteIsGood(g: Ground, w: Write)
    requires Sound(g)
    requires Convertible(g.p, g.a) && w in AllWrites(g.p, g.a)
    requires NeedsEC2(g.p) ==> Write("Cluster", WithCapacityProvider(ClusterResource(g.p))) in g.clusters
    ensures WriteGood(g, w)
  {
    WriteCases(g.p, g.a, w);
    if NeedsEC2(g.p) && w in CapacityWrites(g.p, g.a) {
      CapacityIsGood(g, w);
    } else {
      EarlierWritesAreGood(g, w);
    }
  }

  lemma NamedCluster(g: Ground, w: Write)
    requires WriteGood(g, w) && w.name == "Cluster"
    ensures w in g.clusters
  {
  }
}
