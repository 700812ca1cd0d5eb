/** `convert` as it fills the template's resource map, writer after writer. */
module EcsConvert {
  import opened Wrappers
  import opened EcsLimits
  import opened EcsNames
  import opened EcsTemplate
  import opened EcsReferences
  import opened EcsClosedness
  import opened EcsSpecified
  import opened EcsWiring
  import opened EcsWiredTemplate

  predicate VolumeFails(a: Account, v: Volume) {
    v.name !in a.filesystems && !v.throughputParses
  }

  predicate SecretFails(s: Secret) {
    !s.external && !s.readable
  }

  predicate ScalingFails(s: ServiceConfig) {
    Scales(s) &&
    var config := s.deploy.value.autoscaling.value;
    !config.decodes || (config.memory != 0 && config.cpu != 0) || config.max == 0
  }

  /** The cpu setting does not parse, or no task size covers what is asked for. */
  ghost predicate SizeFails(deploy: Option<Deploy>) {
    || Unreadable(deploy)
    || (!NeedsGpu(deploy) && exists want :: Asked(deploy, want) && NoSizeCovers(want))
  }

  ghost predicate NoSizeCovers(want: Limits) {
    forall c, m :: Offered(c, m) ==> !Covers(c, m, want)
  }

  /** No size can be given to the task, or its environment cannot be read. */
  ghost predicate TaskFails(s: ServiceConfig) {
    SizeFails(s.deploy) || !s.envReadable
  }

  ghost predicate ServiceFails(s: ServiceConfig) {
    TaskFails(s) || RollingUpdateFails(s.deploy) || ScalingFails(s)
  }

  ghost predicate Failing(p: Project, i: nat) {
    i < |p.services| && ServiceFails(p.services[i])
  }

  /** None of the first `n` services fails. */
  ghost predicate NoneFails(p: Project, n: nat) {
    n == 0 || (NoneFails(p, n - 1) && !Failing(p, n - 1))
  }

  lemma {:induction false} NoneFailsMeans(p: Project, n: nat)
    ensures NoneFails(p, n) <==> forall i :: 0 <= i < n ==> !Failing(p, i)
  {
    if n > 0 {
      NoneFailsMeans(p, n - 1);
    }
  }

  /** Something about a volume, a secret, a service or the machines cannot be converted. */
  ghost predicate Fails(p: Project, a: Account) {
    || !NoVolumeFails(p, a, |p.volumes|)
    || !NoSecretFails(p, |p.secrets|)
    || !NoneFails(p, |p.services|)
    || (NeedsEC2(p) && !a.machineKnown)
  }

  lemma FailsMeans(p: Project, a: Account)
    ensures Fails(p, a) <==>
              || (exists v :: v in p.volumes && v.name !in a.filesystems && !v.throughputParses)
              || (exists s :: s in p.secrets && !s.external && !s.readable)
              || (exists s :: s in p.services && (SizeFails(s.deploy) || !s.envReadable || RollingUpdateFails(s.deploy) || ScalingFails(s)))
              || (!a.machineKnown && exists s :: s in p.services && NeedsGpu(s.deploy))
  {
    hide SizeFails;
    hide RollingUpdateFails;
    hide ScalingFails;
    hide NeedsGpu;
    NoVolumeFailsMeans(p, a, |p.volumes|);
    NoSecretFailsMeans(p, |p.secrets|);
    NoneFailsMeans(p, |p.services|);
    MachinesIffEC2(p);
    if v :| v in p.volumes && VolumeFails(a, v) {
      var i :| 0 <= i < |p.volumes| && p.volumes[i] == v;
    }
    if s :| s in p.secrets && SecretFails(s) {
      var i :| 0 <= i < |p.secrets| && p.secrets[i] == s;
    }
    if s :| s in p.services && ServiceFails(s) {
      var i :| 0 <= i < |p.services| && p.services[i] == s;
      assert Failing(p, i);
    }
  }

  predicate ServicesConvertible(p: Project) {
    NothingDividesByZero(p) && forall s :: s in p.services ==> forall v :: v in s.volumes ==> HasVolume(p, v)
  }

  predicate DistinctNetworks(p: Project) {
    forall i, k :: 0 <= i < k < |p.networks| ==> p.networks[i].name != p.networks[k].name
  }

  predicate DistinctVolumes(p: Project) {
    forall i, k :: 0 <= i < k < |p.volumes| ==> p.volumes[i].name != p.volumes[k].name
  }

  predicate NothingDividesByZero(p: Project) {
    forall s :: s in p.services ==> !DividesByZero(s.deploy)
  }

  /** The security groups after `n` networks. */
  ghost function KnownGroups(p: Project, a: Account, n: nat): map<string, Atom>
    requires n <= |p.networks|
  {
    if n == 0 then map x | x in a.securityGroups :: Lit(a.securityGroups[x])
    else
      var name := p.networks[n - 1].name;
      if name in a.securityGroups then KnownGroups(p, a, n - 1) else KnownGroups(p, a, n - 1)[name := Ref(NetworkName(name))]
  }

  lemma {:induction false} KnownGroup(p: Project, a: Account, n: nat, x: string)
    requires n <= |p.networks|
    ensures x in KnownGroups(p, a, n) <==> x in a.securityGroups || exists k :: 0 <= k < n && p.networks[k].name == x
    ensures x in KnownGroups(p, a, n) ==>
              KnownGroups(p, a, n)[x] == if x in a.securityGroups then Lit(a.securityGroups[x]) else Ref(NetworkName(x))
  {
    if n > 0 {
      KnownGroup(p, a, n - 1, x);
    }
  }

  /** The file systems after `n` volumes. */
  ghost function KnownFileSystems(p: Project, a: Account, n: nat): map<string, AwsResource>
    requires n <= |p.volumes|
  {
    if n == 0 then a.filesystems
    else
      var name := p.volumes[n - 1].name;
      if name in a.filesystems then KnownFileSystems(p, a, n - 1)
      else KnownFileSystems(p, a, n - 1)[name := CloudFormation(VolumeName(name))]
  }

  lemma {:induction false} KnownFileSystem(p: Project, a: Account, n: nat, x: string)
    requires n <= |p.volumes|
    ensures x in KnownFileSystems(p, a, n) <==> x in a.filesystems || exists k :: 0 <= k < n && p.volumes[k].name == x
    ensures x in KnownFileSystems(p, a, n) ==> KnownFileSystems(p, a, n)[x] == FileSystemOf(a, x)
  {
    if n > 0 {
      KnownFileSystem(p, a, n - 1, x);
    }
  }

  /** How the first `n` secrets are referred to. */
  ghost function KnownSecrets(p: Project, n: nat): map<string, Atom>
    requires n <= |p.secrets|
  {
    if n == 0 then map[]
    else
      var s := p.secrets[n - 1];
      KnownSecrets(p, n - 1)[s.key := if s.external then Lit(s.name) else Ref(SecretName(s.name))]
  }

  lemma {:induction false} KnownSecret(p: Project, n: nat, key: string)
    requires n <= |p.secrets|
    ensures SecretValue(p.secrets[..n], key) == if key in KnownSecrets(p, n) then KnownSecrets(p, n)[key] else Lit("")
  {
    if n > 0 {
      assert p.secrets[..n][..n - 1] == p.secrets[..n - 1];
      KnownSecret(p, n - 1, key);
    }
  }

  /** None of the first `n` volumes or secrets fails. */
  ghost predicate NoVolumeFails(p: Project, a: Account, n: nat)
    requires n <= |p.volumes|
  {
    n == 0 || (NoVolumeFails(p, a, n - 1) && !VolumeFails(a, p.volumes[n - 1]))
  }

  ghost predicate NoSecretFails(p: Project, n: nat)
    requires n <= |p.secrets|
  {
    n == 0 || (NoSecretFails(p, n - 1) && !SecretFails(p.secrets[n - 1]))
  }

  lemma {:induction false} NoVolumeFailsMeans(p: Project, a: Account, n: nat)
    requires n <= |p.volumes|
    ensures NoVolumeFails(p, a, n) <==> forall i :: 0 <= i < n ==> !VolumeFails(a, p.volumes[i])
  {
    if n > 0 {
      NoVolumeFailsMeans(p, a, n - 1);
    }
  }

  lemma {:induction false} NoSecretFailsMeans(p: Project, n: nat)
    requires n <= |p.secrets|
    ensures NoSecretFails(p, n) <==> forall i :: 0 <= i < n ==> !SecretFails(p.secrets[i])
  {
    if n > 0 {
      NoSecretFailsMeans(p, n - 1);
    }
  }

  lemma Prefix<T>(xs: seq<T>, i: nat)
    requires i < |xs|
    ensures xs[..i + 1] == xs[..i] + [xs[i]]
  {
  }

  class Converter {
    const p: Project
    const a: Account
    var resources: Template
    ghost var log: seq<Write>

    var cluster: Option<AwsResource>
    var securityGroups: map<string, Atom>
    var filesystems: map<string, AwsResource>
    var loadBalancer: Option<AwsResource>
    var secretNames: map<string, Atom>

    /** The resource map is what the writes so far have built. */
    ghost predicate Valid()
      reads this`resources, this`log
    {
      resources == Built(log)
    }

    /** What was found in the account, before anything is ensured. */
    constructor (p: Project, a: Account)
      ensures this.p == p && this.a == a && Valid() && log == []
      ensures cluster == a.cluster && loadBalancer == a.loadBalancer && filesystems == a.filesystems && secretNames == map[]
      ensures securityGroups == map n | n in a.securityGroups :: Lit(a.securityGroups[n])
    {
      this.p, this.a := p, a;
      resources, log := map[], [];
      cluster, loadBalancer, filesystems, secretNames := a.cluster, a.loadBalancer, a.filesystems, map[];
      securityGroups := map n | n in a.securityGroups :: Lit(a.securityGroups[n]);
    }

    method Put(name: string, resource: Resource)
      requires Valid()
      modifies this`resources, this`log
      ensures Valid() && log == old(log) + [Write(name, resource)]
    {
      BuiltSnoc(log, Write(name, resource));
      resources := resources[name := resource];
      log := log + [Write(name, resource)];
    }

    // ---------- ensureResources ----------

    method EnsureCluster()
      requires Valid() && cluster == a.cluster
      modifies this`resources, this`log, this`cluster
      ensures Valid() && log == old(log) + ClusterWrites(p, a) && cluster == Some(ClusterOf(a))
    {
      if cluster == None {
        Put("Cluster", Resource("AWS::ECS::Cluster", [], [Property("ClusterName", [Lit(p.name)])]));
        cluster := Some(CloudFormation("Cluster"));
      }
    }

    /** A network gets a group unless it has one. */
    method EnsureNetwork(n: Network)
      requires Valid() && (n.name in securityGroups <==> n.name in a.securityGroups)
      modifies this`resources, this`log, this`securityGroups
      ensures Valid() && log == old(log) + NetworkWrites(p, a, n)
      ensures securityGroups == if n.name in a.securityGroups then old(securityGroups) else old(securityGroups)[n.name := Ref(NetworkName(n.name))]
    {
      if n.name in securityGroups {
        return;
      }
      var securityGroup := NetworkName(n.name);
      Put(securityGroup, Resource("AWS::EC2::SecurityGroup", [], [Property("VpcId", [Lit(a.vpc)])]));
      Put(securityGroup + "Ingress",
          Resource("AWS::EC2::SecurityGroupIngress", [],
                   [Property("GroupId", [Ref(securityGroup)]), Property("SourceSecurityGroupId", [Ref(securityGroup)])]));
      securityGroups := securityGroups[n.name := Ref(securityGroup)];
    }

    method EnsureNetworkAt(i: nat, ghost start: seq<Write>)
      requires Valid() && i < |p.networks| && DistinctNetworks(p)
      requires log == start + Joined(NetworkPieces(p, a)[..i]) && securityGroups == KnownGroups(p, a, i)
      modifies this`resources, this`log, this`securityGroups
      ensures Valid()
      ensures log == start + Joined(NetworkPieces(p, a)[..i + 1]) && securityGroups == KnownGroups(p, a, i + 1)
    {
      JoinedNext(start, NetworkPieces(p, a), i);
      KnownGroup(p, a, i, p.networks[i].name);
      EnsureNetwork(p.networks[i]);
    }

    method EnsureNetworks()
      requires Valid() && securityGroups == map n | n in a.securityGroups :: Lit(a.securityGroups[n])
      requires DistinctNetworks(p)
      modifies this`resources, this`log, this`securityGroups
      ensures Valid() && log == old(log) + NetworksWrites(p, a)
      ensures securityGroups == KnownGroups(p, a, |p.networks|)
    {
      hide NetworkPieces;
      hide Built;
      hide DistinctNetworks;
      for i := 0 to |p.networks|
        invariant Valid()
        invariant log == old(log) + Joined(NetworkPieces(p, a)[..i])
        invariant securityGroups == KnownGroups(p, a, i)
      {
        EnsureNetworkAt(i, old(log));
      }
      assert NetworkPieces(p, a)[..|p.networks|] == NetworkPieces(p, a);
    }

    ghost predicate GroupsKnown()
      reads this`securityGroups
    {
      securityGroups == KnownGroups(p, a, |p.networks|)
    }

    /** An unknown network has the empty group. */
    function Group(network: string): (r: Atom)
      requires GroupsKnown()
      reads this`securityGroups
      ensures r == GroupOf(p, a, network)
    {
      KnownGroup(p, a, |p.networks|, network);
      assert HasNetwork(p, network) <==> exists k :: 0 <= k < |p.networks| && p.networks[k].name == network;
      if network in securityGroups then securityGroups[network] else Lit("")
    }

    method EnsureVolume(v: Volume) returns (ok: bool)
      requires Valid() && (v.name in filesystems <==> v.name in a.filesystems)
      modifies this`resources, this`log, this`filesystems
      ensures Valid() && (ok <==> !VolumeFails(a, v))
      ensures ok ==> log == old(log) + VolumeWrites(a, v)
      ensures ok ==> filesystems == if v.name in a.filesystems then old(filesystems) else old(filesystems)[v.name := CloudFormation(VolumeName(v.name))]
    {
      if v.name in filesystems {
        return true;
      }
      if !v.throughputParses {
        return false;
      }
      Put(VolumeName(v.name), Resource("AWS::EFS::FileSystem", [], []));
      filesystems := filesystems[v.name := CloudFormation(VolumeName(v.name))];
      ok := true;
    }

    method EnsureVolumeAt(i: nat, ghost start: seq<Write>) returns (ok: bool)
      requires Valid() && i < |p.volumes| && DistinctVolumes(p)
      requires log == start + Joined(VolumePieces(p, a)[..i]) && filesystems == KnownFileSystems(p, a, i)
      modifies this`resources, this`log, this`filesystems
      ensures Valid() && (ok <==> !VolumeFails(a, p.volumes[i]))
      ensures ok ==> log == start + Joined(VolumePieces(p, a)[..i + 1]) && filesystems == KnownFileSystems(p, a, i + 1)
    {
      JoinedNext(start, VolumePieces(p, a), i);
      KnownFileSystem(p, a, i, p.volumes[i].name);
      ok := EnsureVolume(p.volumes[i]);
    }

    method EnsureVolumes() returns (ok: bool)
      requires Valid() && filesystems == a.filesystems && DistinctVolumes(p)
      modifies this`resources, this`log, this`filesystems
      ensures Valid() && (ok <==> NoVolumeFails(p, a, |p.volumes|))
      ensures ok ==> log == old(log) + VolumesWrites(p, a)
      ensures ok ==> FileSystemsKnown()
    {
      hide VolumePieces;
      hide VolumeFails;
      hide Built;
      hide DistinctVolumes;
      for i := 0 to |p.volumes|
        invariant Valid()
        invariant log == old(log) + Joined(VolumePieces(p, a)[..i])
        invariant NoVolumeFails(p, a, i)
        invariant filesystems == KnownFileSystems(p, a, i)
      {
        ok := EnsureVolumeAt(i, old(log));
        if !ok {
          NoVolumeFailsMeans(p, a, |p.volumes|);
          return;
        }
      }
      assert VolumePieces(p, a)[..|p.volumes|] == VolumePieces(p, a);
      ok := true;
    }

    ghost predicate FileSystemsKnown()
      reads this`filesystems
    {
      filesystems == KnownFileSystems(p, a, |p.volumes|)
    }

    /** The security groups of the given networks, one after the other. */
    method ServiceSecurityGroups(networks: seq<string>) returns (groups: seq<Atom>)
      requires GroupsKnown()
      ensures groups == Groups(p, a, networks)
    {
      groups := [];
      for i := 0 to |networks|
        invariant groups == Groups(p, a, networks[..i])
      {
        groups := groups + [Group(networks[i])];
      }
      assert networks[..|networks|] == networks;
    }

    method LoadBalancerSecurityGroups() returns (groups: seq<Atom>)
      requires GroupsKnown()
      ensures groups == Groups(p, a, PublicNetworks(p.networks))
    {
      groups := [];
      for i := 0 to |p.networks|
        invariant groups == Groups(p, a, PublicNetworks(p.networks[..i]))
      {
        assert p.networks[..i + 1][..i] == p.networks[..i];
        if !p.networks[i].internal {
          groups := groups + [Group(p.networks[i].name)];
        }
      }
      assert p.networks[..|p.networks|] == p.networks;
    }

    method EnsureLoadBalancer()
      requires Valid() && loadBalancer == a.loadBalancer && GroupsKnown()
      modifies this`resources, this`log, this`loadBalancer
      ensures Valid() && log == old(log) + LoadBalancerWrites(p, a)
      ensures log == old(log) <==> a.loadBalancer.Some? || !Exposes(p)
      ensures log != old(log) ==> "LoadBalancer" in resources && BalancerWired(p, a, resources["LoadBalancer"])
      ensures loadBalancer == if a.loadBalancer.None? && NoPorts(p) then None else Some(LoadBalancerOf(a))
    {
      hide BalancerWired;
      ApplicationIffHTTP(p);
      if loadBalancer.Some? || NoPorts(p) {
        return;
      }
      BalancerIsWired(p, a);
      BuiltSnoc(log, LoadBalancerWrite(p, a));
      var balancerType, groups := "network", [];
      if NeedsApplication(p) {
        groups := LoadBalancerSecurityGroups();
        balancerType := "application";
      }
      Put("LoadBalancer",
          Resource("AWS::ElasticLoadBalancingV2::LoadBalancer", [],
                   [Property("SecurityGroups", groups), Property("Subnets", Lits(a.subnets)), Property("Type", [Lit(balancerType)])]));
      loadBalancer := Some(CloudFormationArn("LoadBalancer", "LoadBalancerName"));
    }

    // ---------- what services share ----------

    /** A created secret is referred to by its resource from then on. */
    method CreateSecret(s: Secret) returns (ok: bool)
      requires Valid()
      modifies this`resources, this`log, this`secretNames
      ensures Valid() && (ok <==> !SecretFails(s))
      ensures ok ==> log == old(log) + SecretWrites(s)
      ensures ok ==> secretNames == old(secretNames)[s.key := if s.external then Lit(s.name) else Ref(SecretName(s.name))]
    {
      if s.external {
        secretNames := secretNames[s.key := Lit(s.name)];
        return true;
      }
      if !s.readable {
        return false;
      }
      var resource := SecretName(s.name);
      Put(resource, Resource("AWS::SecretsManager::Secret", [], []));
      secretNames := secretNames[s.key := Ref(resource)];
      ok := true;
    }

    method CreateSecrets() returns (ok: bool)
      requires Valid() && secretNames == map[]
      modifies this`resources, this`log, this`secretNames
      ensures Valid() && (ok <==> NoSecretFails(p, |p.secrets|))
      ensures ok ==> log == old(log) + SecretsWrites(p) && SecretsKnown()
    {
      for i := 0 to |p.secrets|
        invariant Valid()
        invariant log == old(log) + Joined(SecretPieces(p)[..i])
        invariant NoSecretFails(p, i)
        invariant secretNames == KnownSecrets(p, i)
      {
        ok := CreateSecretAt(i, old(log));
        if !ok {
          NoSecretFailsMeans(p, |p.secrets|);
          return;
        }
      }
      assert SecretPieces(p)[..|p.secrets|] == SecretPieces(p);
      ok := true;
    }

    method CreateSecretAt(i: nat, ghost start: seq<Write>) returns (ok: bool)
      requires Valid() && i < |p.secrets|
      requires log == start + Joined(SecretPieces(p)[..i]) && secretNames == KnownSecrets(p, i)
      modifies this`resources, this`log, this`secretNames
      ensures Valid() && (ok <==> !SecretFails(p.secrets[i]))
      ensures ok ==> log == start + Joined(SecretPieces(p)[..i + 1]) && secretNames == KnownSecrets(p, i + 1)
    {
      JoinedNext(start, SecretPieces(p), i);
      ok := CreateSecret(p.secrets[i]);
    }

    ghost predicate SecretsKnown()
      reads this`secretNames
    {
      secretNames == KnownSecrets(p, |p.secrets|)
    }

    function SecretAtom(key: string): (r: Atom)
      requires SecretsKnown()
      reads this`secretNames
      ensures r == SecretValue(p.secrets, key)
    {
      KnownSecret(p, |p.secrets|, key);
      assert p.secrets[..|p.secrets|] == p.secrets;
      if key in secretNames then secretNames[key] else Lit("")
    }

    /** Networks, file systems and so on are known. */
    ghost predicate Ready()
      reads this`cluster, this`securityGroups, this`filesystems, this`loadBalancer, this`secretNames
    {
      && cluster == Some(ClusterOf(a))
      && GroupsKnown() && FileSystemsKnown() && SecretsKnown()
      && (!NoPorts(p) ==> loadBalancer == Some(LoadBalancerOf(a)))
    }

    method CreateMountTargets()
      requires Valid() && Ready()
      modifies this`resources, this`log
      ensures Valid() && log == old(log) + MountsWrites(p, a)
    {
      for i := 0 to |p.volumes|
        invariant Valid()
        invariant log == old(log) + Joined(MountPieces(p, a)[..i])
      {
        CreateVolumeTargets(i);
        JoinedNext(old(log), MountPieces(p, a), i);
      }
      assert MountPieces(p, a)[..|p.volumes|] == MountPieces(p, a);
    }

    function FileSystem(volume: string): (r: AwsResource)
      requires Ready() && HasVolume(p, volume)
      reads this`cluster, this`securityGroups, this`filesystems, this`loadBalancer, this`secretNames
      ensures r == FileSystemOf(a, volume)
    {
      KnownFileSystem(p, a, |p.volumes|, volume);
      filesystems[volume]
    }

    method CreateVolumeTargets(n: nat)
      requires Valid() && Ready() && n < |p.volumes|
      modifies this`resources, this`log
      ensures Valid() && log == old(log) + MountTargetWrites(p, a, p.volumes[n], a.subnets)
    {
      hide MountTargetName;
      var v := p.volumes[n];
      var groups := ServiceSecurityGroups(NetworkNames(p.networks));
      var fileSystem := FileSystem(v.name);
      for i := 0 to |a.subnets|
        invariant Valid()
        invariant log == old(log) + MountTargetWrites(p, a, v, a.subnets[..i])
      {
        assert a.subnets[..i + 1][..i] == a.subnets[..i];
        Put(MountTargetName(v.name, a.subnets[i]),
            Resource("AWS::EFS::MountTarget", [],
                     [Property("FileSystemId", [fileSystem.Id()]),
                      Property("SecurityGroups", groups), Property("SubnetId", [Lit(a.subnets[i])])]));
      }
      assert a.subnets[..|a.subnets|] == a.subnets;
    }

    method CreateAccessPoints()
      requires Valid() && Ready()
      modifies this`resources, this`log
      ensures Valid() && log == old(log) + AccessPointWrites(p, a)
    {
      for i := 0 to |p.volumes|
        invariant Valid()
        invariant log == old(log) + Joined(AccessPointPieces(p, a)[..i])
      {
        JoinedNext(old(log), AccessPointPieces(p, a), i);
        var fileSystem := FileSystem(p.volumes[i].name);
        Put(AccessPointName(p.volumes[i].name), Resource("AWS::EFS::AccessPoint", [], [Property("FileSystemId", [fileSystem.Id()])]));
      }
      assert AccessPointPieces(p, a)[..|p.volumes|] == AccessPointPieces(p, a);
    }

    method CreateLogGroupAndCloudMap()
      requires Valid()
      modifies this`resources, this`log
      ensures Valid() && log == old(log) + [LogGroupWrite(p), CloudMapWrite(p, a)]
    {
      Put("LogGroup", Resource("AWS::Logs::LogGroup", [], [Property("LogGroupName", [Lit("/docker-compose/" + p.name)])]));
      Put("CloudMap", Resource("AWS::ServiceDiscovery::PrivateDnsNamespace", [], [Property("Vpc", [Lit(a.vpc)])]));
    }

    // ---------- one service ----------

    method SecretAtoms(keys: seq<string>) returns (atoms: seq<Atom>)
      requires Ready()
      ensures atoms == SecretValues(p, keys)
    {
      atoms := [];
      for i := 0 to |keys|
        invariant atoms == SecretValues(p, keys[..i])
      {
        atoms := atoms + [SecretAtom(keys[i])];
      }
      assert keys[..|keys|] == keys;
    }

    method VolumeAtoms(volumes: seq<string>) returns (ids: seq<Atom>, arns: seq<Atom>, points: seq<Atom>)
      requires Ready() && forall v :: v in volumes ==> HasVolume(p, v)
      ensures ids == FileSystemIds(a, volumes) && arns == FileSystemArns(a, volumes) && points == AccessPoints(volumes)
    {
      ids, arns, points := [], [], [];
      for i := 0 to |volumes|
        invariant ids == FileSystemIds(a, volumes[..i]) && arns == FileSystemArns(a, volumes[..i])
        invariant points == AccessPoints(volumes[..i])
      {
        var fileSystem := FileSystem(volumes[i]);
        ids, arns := ids + [fileSystem.Id()], arns + [fileSystem.Arn()];
        points := points + [Ref(AccessPointName(volumes[i]))];
      }
      assert volumes[..|volumes|] == volumes;
    }

    method CreateExecutionRole(s: ServiceConfig) returns (role: string)
      requires Valid() && Ready()
      modifies this`resources, this`log
      ensures Valid() && log == old(log) + [ExecutionRoleWrite(p, s)] && role == ExecutionRoleName(s.name)
    {
      role := ExecutionRoleName(s.name);
      var arns := if s.pullCredentials.Some? then [Lit(s.pullCredentials.value)] else [];
      var secrets := SecretAtoms(s.secrets);
      Put(role, Resource("AWS::IAM::Role", [], [Property("Policies", arns + secrets)]));
    }

    /** No role is needed without policies of any kind. */
    method CreateTaskRole(s: ServiceConfig) returns (role: Option<string>)
      requires Valid() && Ready() && VolumesDefined(s)
      modifies this`resources, this`log
      ensures Valid() && log == old(log) + TaskRoleWrites(a, s)
      ensures role == if HasTaskRole(s) then Some(TaskRoleName(s.name)) else None
    {
      var ids, arns, points := VolumeAtoms(s.volumes);
      if !s.hasRole && |arns| == 0 && s.managedPolicies == 0 {
        return None;
      }
      role := Some(TaskRoleName(s.name));
      Put(role.value, Resource("AWS::IAM::Role", [], [Property("Policies.Resource", arns), Property("Policies.Condition", points)]));
    }

    method TaskSize(deploy: Option<Deploy>) returns (size: Result<Size>)
      ensures size.Err? <==> SizeFails(deploy)
    {
      size := ToLimits(deploy);
      hide Asked;
      hide Unreadable;
      hide NeedsGpu;
      if want :| Asked(deploy, want) {
        OneIsAsked(deploy, want);
      }
    }

    method CreateTaskDefinition(s: ServiceConfig, executionRole: string, taskRole: Option<string>) returns (ok: bool)
      requires Valid() && Ready() && VolumesDefined(s)
      requires executionRole == ExecutionRoleName(s.name) && taskRole == if HasTaskRole(s) then Some(TaskRoleName(s.name)) else None
      modifies this`resources, this`log
      ensures Valid() && (ok <==> !TaskFails(s))
      ensures ok ==> log == old(log) + [TaskDefinitionWrite(p, a, s)]
      ensures !ok ==> log == old(log)
    {
      var size := TaskSize(s.deploy);
      if size.Err? {
        return false;
      }
      var secrets := SecretAtoms(s.secrets);
      var ids, arns, points := VolumeAtoms(s.volumes);
      if !s.envReadable {
        return false;
      }
      Put(TaskDefinitionName(s.name),
          Resource("AWS::ECS::TaskDefinition", [],
                   [Property("Secrets", secrets),
                    Property("AwslogsRegion", [LogOption(s, "awslogs-region", Ref(REGION))]),
                    Property("AwslogsGroup", [LogOption(s, "awslogs-group", Ref("LogGroup"))]),
                    Property("AccessPointId", points),
                    Property("FilesystemId", ids),
                    Property("ExecutionRoleArn", [Ref(executionRole)]),
                    Property("TaskRoleArn", if taskRole.Some? then [Ref(taskRole.value)] else [])]));
      ok := true;
    }

    method CreateDiscoveryEntry(s: ServiceConfig) returns (registry: Atom)
      requires Valid()
      modifies this`resources, this`log
      ensures Valid() && log == old(log) + [DiscoveryWrite(s)] && registry == GetAtt(DiscoveryName(s.name), "Arn")
    {
      registry := GetAtt(DiscoveryName(s.name), "Arn");
      Put(DiscoveryName(s.name), Resource("AWS::ServiceDiscovery::Service", [], [Property("NamespaceId", [Ref("CloudMap")])]));
    }

    method CreateIngresses(networks: seq<string>, port: Port)
      requires Valid() && Ready()
      modifies this`resources, this`log
      ensures Valid() && log == old(log) + IngressWrites(p, a, networks, port)
    {
      for i := 0 to |networks|
        invariant Valid()
        invariant log == old(log) + IngressWrites(p, a, networks[..i], port)
      {
        assert networks[..i + 1][..i] == networks[..i];
        Put(IngressName(networks[i], port.target),
            Resource("AWS::EC2::SecurityGroupIngress", [], [Property("GroupId", [Group(networks[i])])]));
      }
      assert networks[..|networks|] == networks;
    }

    method CreateListener(s: ServiceConfig, port: Port, balancer: AwsResource) returns (listener: string, targetGroup: string)
      requires Valid() && balancer == LoadBalancerOf(a)
      modifies this`resources, this`log
      ensures Valid() && log == old(log) + [TargetGroupWrite(a, s, port), ListenerWrite(a, s, port)]
      ensures listener == ListenerName(s.name, port.protocol, port.target)
      ensures targetGroup == TargetGroupName(s.name, port.protocol, port.published)
    {
      targetGroup := TargetGroupName(s.name, port.protocol, port.published);
      Put(targetGroup, Resource("AWS::ElasticLoadBalancingV2::TargetGroup", [], [Property("VpcId", [Lit(a.vpc)])]));
      listener := ListenerName(s.name, port.protocol, port.target);
      Put(listener,
          Resource("AWS::ElasticLoadBalancingV2::Listener", [],
                   [Property("TargetGroupArn", [Ref(targetGroup)]), Property("LoadBalancerArn", [balancer.Arn()])]));
    }

    method CreatePort(s: ServiceConfig, port: Port, balancer: AwsResource) returns (listener: string, targetGroup: string)
      requires Valid() && Ready() && balancer == LoadBalancerOf(a)
      modifies this`resources, this`log
      ensures Valid() && log == old(log) + PortWrites(p, a, s, port)
      ensures listener == ListenerName(s.name, port.protocol, port.target)
      ensures targetGroup == TargetGroupName(s.name, port.protocol, port.published)
    {
      CreateIngresses(s.networks, port);
      listener, targetGroup := CreateListener(s, port, balancer);
    }

    /** A service with a port has made sure of a load balancer. */
    function Balancer(s: ServiceConfig): (r: AwsResource)
      requires Ready() && s in p.services && s.ports != []
      reads this`cluster, this`securityGroups, this`filesystems, this`loadBalancer, this`secretNames
      ensures r == LoadBalancerOf(a)
    {
      assert !NoPorts(p);
      loadBalancer.value
    }

    /** One pass of the loop over the ports: the port's resources, and the names to remember. */
    method CreatePortAt(s: ServiceConfig, i: nat, ghost start: seq<Write>, listeners: seq<string>, targetGroups: seq<Atom>)
      returns (listeners': seq<string>, targetGroups': seq<Atom>)
      requires Valid() && Ready() && s in p.services && i < |s.ports|
      requires log == start + Joined(PortPieces(p, a, s)[..i])
      requires listeners == Listeners(s)[..i] && targetGroups == TargetGroups(s)[..i]
      modifies this`resources, this`log
      ensures Valid() && log == start + Joined(PortPieces(p, a, s)[..i + 1])
      ensures listeners' == Listeners(s)[..i + 1] && targetGroups' == TargetGroups(s)[..i + 1]
    {
      var balancer := Balancer(s);
      JoinedNext(start, PortPieces(p, a, s), i);
      var listener, targetGroup := CreatePort(s, s.ports[i], balancer);
      Prefix(Listeners(s), i);
      Prefix(TargetGroups(s), i);
      listeners', targetGroups' := listeners + [listener], targetGroups + [Ref(targetGroup)];
    }

    method CreatePorts(s: ServiceConfig) returns (listeners: seq<string>, targetGroups: seq<Atom>)
      requires Valid() && Ready() && s in p.services
      modifies this`resources, this`log
      ensures Valid() && log == old(log) + PortsWrites(p, a, s)
      ensures listeners == Listeners(s) && targetGroups == TargetGroups(s)
    {
      listeners, targetGroups := [], [];
      for i := 0 to |s.ports|
        invariant Valid()
        invariant log == old(log) + Joined(PortPieces(p, a, s)[..i])
        invariant listeners == Listeners(s)[..i] && targetGroups == TargetGroups(s)[..i]
      {
        listeners, targetGroups := CreatePortAt(s, i, old(log), listeners, targetGroups);
      }
      assert PortPieces(p, a, s)[..|s.ports|] == PortPieces(p, a, s);
    }

    /** What a service waits for besides its listeners: the services it depends on and its volumes' mount targets. */
    method OtherDependencies(s: ServiceConfig) returns (names: seq<string>)
      ensures names == ServiceNames(s.dependsOn) + AllMountTargets(a, s.volumes)
    {
      names := [];
      for i := 0 to |s.dependsOn|
        invariant names == ServiceNames(s.dependsOn[..i])
      {
        names := names + [ServiceName(s.dependsOn[i])];
      }
      assert s.dependsOn[..|s.dependsOn|] == s.dependsOn;
      for i := 0 to |s.volumes|
        invariant names == ServiceNames(s.dependsOn) + AllMountTargets(a, s.volumes[..i])
      {
        assert s.volumes[..i + 1][..i] == s.volumes[..i];
        names := names + MountTargets(a, s.volumes[i]);
      }
      assert s.volumes[..|s.volumes|] == s.volumes;
    }

    method PutService(s: ServiceConfig, listeners: seq<string>, targetGroups: seq<Atom>, registry: Atom)
      requires Valid() && Ready()
      requires listeners == Listeners(s) && targetGroups == TargetGroups(s) && registry == GetAtt(DiscoveryName(s.name), "Arn")
      modifies this`resources, this`log
      ensures Valid() && log == old(log) + [Write(ServiceName(s.name), ServiceResource(p, a, s))]
    {
      var others := OtherDependencies(s);
      var groups := ServiceSecurityGroups(s.networks);
      assert listeners + others == ServiceResource(p, a, s).dependsOn;
      Put(ServiceName(s.name),
          Resource(SERVICE, listeners + others,
                   [Property("Cluster", [cluster.value.Arn()]),
                    Property("LoadBalancers", targetGroups),
                    Property("SecurityGroups", groups),
                    Property("Subnets", Lits(a.subnets)),
                    Property("ServiceRegistries", [registry]),
                    Property("TaskDefinition", [Ref(Normalize(TaskDefinitionName(s.name)))])]));
    }

    /** `createService`; the rolling-update limits are computed last. */
    method CreateService(s: ServiceConfig) returns (ok: bool)
      requires Valid() && Ready() && s in p.services && VolumesDefined(s) && !DividesByZero(s.deploy)
      modifies this`resources, this`log
      ensures Valid() && (ok <==> !TaskFails(s) && !RollingUpdateFails(s.deploy))
      ensures ok ==> log == old(log) + ServiceWrites(p, a, s)
    {
      ok := CreateTask(s);
      if !ok {
        return;
      }
      var registry := CreateDiscoveryEntry(s);
      var listeners, targetGroups := CreatePorts(s);
      var limits := RollingUpdateLimits(s.deploy);
      RollingUpdateErrors(s.deploy);
      if limits.Err? {
        return false;
      }
      PutService(s, listeners, targetGroups, registry);
      InOrder(old(log), [ExecutionRoleWrite(p, s)] + TaskRoleWrites(a, s), TaskDefinitionWrite(p, a, s), DiscoveryWrite(s),
              PortsWrites(p, a, s), [Write(ServiceName(s.name), ServiceResource(p, a, s))]);
    }

    predicate VolumesDefined(s: ServiceConfig) {
      forall v :: v in s.volumes ==> HasVolume(p, v)
    }

    /** The roles and the task definition of a service. */
    method CreateTask(s: ServiceConfig) returns (ok: bool)
      requires Valid() && Ready() && VolumesDefined(s)
      modifies this`resources, this`log
      ensures Valid() && (ok <==> !TaskFails(s))
      ensures ok ==> log == old(log) + ([ExecutionRoleWrite(p, s)] + TaskRoleWrites(a, s)) + [TaskDefinitionWrite(p, a, s)]
    {
      var executionRole := CreateExecutionRole(s);
      var taskRole := CreateTaskRole(s);
      ok := CreateTaskDefinition(s, executionRole, taskRole);
    }

    method CreateAutoscalingPolicy(s: ServiceConfig) returns (ok: bool)
      requires Valid() && Ready()
      modifies this`resources, this`log
      ensures Valid() && (ok <==> !ScalingFails(s))
      ensures ok ==> log == old(log) + ScalingWrites(a, s)
    {
      if s.deploy.None? || s.deploy.value.autoscaling.None? {
        return true;
      }
      var config := s.deploy.value.autoscaling.value;
      if !config.decodes {
        return false;
      }
      if config.memory != 0 && config.cpu != 0 {
        return false;
      }
      if config.max == 0 {
        return false;
      }
      var service, role, target := ServiceName(s.name), AutoScalingRoleName(s.name), ScalableTargetName(s.name);
      Put(role, Resource("AWS::IAM::Role", [], [Property("Policies", [Ref(service)])]));
      Put(target,
          Resource("AWS::ApplicationAutoScaling::ScalableTarget", [service],
                   [Property("ResourceId", [Lit("service"), cluster.value.Id(), GetAtt(service, "Name")]),
                    Property("RoleARN", [GetAtt(role, "Arn")])]));
      Put(ScalingPolicyName(s.name),
          Resource("AWS::ApplicationAutoScaling::ScalingPolicy", [], [Property("ScalingTargetId", [Ref(target)])]));
      ok := true;
    }

    /** The services, each with its scaling policy. */
    method CreateServices() returns (ok: bool)
      requires Valid() && Ready() && ServicesConvertible(p)
      modifies this`resources, this`log
      ensures Valid() && (ok <==> NoneFails(p, |p.services|))
      ensures ok ==> log == old(log) + AllServiceWrites(p, a)
    {
      hide ServiceFails;
      hide ServiceWrites;
      hide ScalingWrites;
      for i := 0 to |p.services|
        invariant Valid()
        invariant log == old(log) + Joined(ServicePieces(p, a)[..i])
        invariant NoneFails(p, i)
      {
        ok := CreateScaledService(i, old(log));
        if !ok {
          SomeFails(p, i + 1, |p.services|);
          return;
        }
      }
      assert ServicePieces(p, a)[..|p.services|] == ServicePieces(p, a);
      ok := true;
    }

    method CreateScaledService(i: nat, ghost start: seq<Write>) returns (ok: bool)
      requires Valid() && Ready() && i < |p.services| && ServicesConvertible(p) && NoneFails(p, i)
      requires log == start + Joined(ServicePieces(p, a)[..i])
      modifies this`resources, this`log
      ensures Valid() && (ok <==> NoneFails(p, i + 1))
      ensures ok ==> log == start + Joined(ServicePieces(p, a)[..i + 1])
    {
      JoinedNext(start, ServicePieces(p, a), i);
      PieceIs(p, a, i);
      ok := CreateOneService(p.services[i]);
    }

    method CreateOneService(s: ServiceConfig) returns (ok: bool)
      requires Valid() && Ready() && s in p.services && VolumesDefined(s) && !DividesByZero(s.deploy)
      modifies this`resources, this`log
      ensures Valid() && (ok <==> !ServiceFails(s))
      ensures ok ==> log == old(log) + (ServiceWrites(p, a, s) + ScalingWrites(a, s))
    {
      ok := CreateService(s);
      if !ok {
        return;
      }
      ok := CreateAutoscalingPolicy(s);
      if ok {
        Together(old(log), ServiceWrites(p, a, s), ScalingWrites(a, s));
      }
    }

    /** `createCapacityProvider` ends by changing the Cluster resource it finds in the template. */
    method CreateCapacityProvider() returns (ok: bool)
      requires Valid() && Ready()
      requires NeedsEC2(p) ==> "Cluster" in resources && resources["Cluster"] == ClusterResource(p)
      modifies this`resources, this`log
      ensures Valid() && (ok <==> !NeedsEC2(p) || a.machineKnown)
      ensures ok ==> log == old(log) + CapacityWrites(p, a)
    {
      if !NeedsEC2(p) {
        return true;
      }
      if !a.machineKnown {
        return false;
      }
      var ec2Cluster := resources["Cluster"];
      PutCapacity();
      Put("Cluster", ec2Cluster.(properties := ec2Cluster.properties + [Property("CapacityProviders", [Ref("CapacityProvider")])]));
      ok := true;
    }

    method PutCapacity()
      requires Valid() && Ready() && NeedsEC2(p)
      modifies this`resources, this`log
      ensures Valid() && log == old(log) + CapacityWrites(p, a)[..5]
    {
      var groups := ServiceSecurityGroups(NetworkNames(p.networks));
      Put("CapacityProvider", Resource("AWS::ECS::CapacityProvider", [], [Property("AutoScalingGroupArn", [Ref("AutoscalingGroup")])]));
      Put("AutoscalingGroup",
          Resource("AWS::AutoScaling::AutoScalingGroup", [],
                   [Property("LaunchConfigurationName", [Ref("LaunchConfiguration")]), Property("VPCZoneIdentifier", Lits(a.subnets))]));
      Put("LaunchConfiguration",
          Resource("AWS::AutoScaling::LaunchConfiguration", [],
                   [Property("SecurityGroups", groups), Property("IamInstanceProfile", [Ref("EC2InstanceProfile")])]));
      Put("EC2InstanceProfile", Resource("AWS::IAM::InstanceProfile", [], [Property("Roles", [Ref("EC2InstanceRole")])]));
      Put("EC2InstanceRole", Resource("AWS::IAM::Role", [], []));
    }

    method EnsureResources() returns (ok: bool)
      requires Valid() && log == [] && Found() && DistinctNetworks(p) && DistinctVolumes(p)
      modifies this
      ensures Valid() && (ok <==> NoVolumeFails(p, a, |p.volumes|))
      ensures ok ==> log == EnsuredWrites(p, a) && secretNames == map[]
      ensures ok ==> cluster == Some(ClusterOf(a)) && GroupsKnown()
      ensures ok ==> FileSystemsKnown()
      ensures ok ==> loadBalancer == if a.loadBalancer.None? && NoPorts(p) then None else Some(LoadBalancerOf(a))
    {
      hide NetworkWrites;
      hide VolumeWrites;
      hide LoadBalancerWrites;
      hide BalancerWired;
      hide Exposes;
      hide NetworksWrites;
      hide VolumesWrites;
      hide ClusterWrites;
      hide KnownGroups;
      hide KnownFileSystems;
      EnsureCluster();
      EnsureNetworks();
      ok := EnsureVolumes();
      if ok {
        EnsureLoadBalancer();
        EnsuredInOrder(p, a);
      }
    }

    /** Nothing is known but what was found in the account. */
    ghost predicate Found()
      reads this
    {
      && cluster == a.cluster && loadBalancer == a.loadBalancer && filesystems == a.filesystems && secretNames == map[]
      && securityGroups == map n | n in a.securityGroups :: Lit(a.securityGroups[n])
    }

    /** Secrets, log group, cloud map and everything about volumes. */
    method CreateShared() returns (ok: bool)
      requires Valid() && secretNames == map[] && cluster == Some(ClusterOf(a)) && GroupsKnown()
      requires FileSystemsKnown()
      requires loadBalancer == if a.loadBalancer.None? && NoPorts(p) then None else Some(LoadBalancerOf(a))
      modifies this`resources, this`log, this`secretNames
      ensures Valid() && (ok <==> NoSecretFails(p, |p.secrets|))
      ensures ok ==> Ready() && log == old(log) + SharedWrites(p, a)
    {
      ok := CreateSecrets();
      if !ok {
        return;
      }
      assert Ready();
      CreateLogGroupAndCloudMap();
      CreateMountTargets();
      CreateAccessPoints();
      SharedInOrder(old(log), p, a);
    }

    /**
     * `convert`: it fails exactly when a throughput or cpu setting does not parse, a secret or env file cannot
     * be read, an autoscaling setting does not decode or makes no sense, a size or limit cannot be met, or no
     * machine is known for EC2; otherwise the template is `TemplateOf` and has what it should have.
     */
    method Convert() returns (ok: bool)
      requires Valid() && log == [] && Found() && DistinctNetworks(p) && DistinctVolumes(p)
      requires Convertible(p, a) && NothingDividesByZero(p)
      modifies this
      ensures ok <==> !Fails(p, a)
      ensures ok ==> resources == TemplateOf(p, a) && AsSpecified(p, a, resources)
    {
      hide AsSpecified;
      TemplateIsAsSpecified(p, a);
      ok := EnsureResources();
      if !ok {
        return;
      }
      ok := CreateShared();
      if !ok {
        return;
      }
      ok := CreateServicesAndMachines();
    }

    /** The services, then the machines they may need. */
    method CreateServicesAndMachines() returns (ok: bool)
      requires Valid() && Ready() && Convertible(p, a) && NothingDividesByZero(p)
      requires log == EnsuredWrites(p, a) + SharedWrites(p, a)
      modifies this`resources, this`log
      ensures ok <==> NoneFails(p, |p.services|) && (!NeedsEC2(p) || a.machineKnown)
      ensures ok ==> resources == TemplateOf(p, a)
    {
      ok := CreateServices();
      if !ok {
        return;
      }
      ok := CreateMachines();
    }

    method CreateMachines() returns (ok: bool)
      requires Valid() && Ready() && Convertible(p, a)
      requires log == EnsuredWrites(p, a) + SharedWrites(p, a) + AllServiceWrites(p, a)
      modifies this`resources, this`log
      ensures ok <==> !NeedsEC2(p) || a.machineKnown
      ensures ok ==> resources == TemplateOf(p, a)
    {
      if NeedsEC2(p) {
        ClusterIsThere(p, a, log);
      }
      ok := CreateCapacityProvider();
    }
  }

  lemma EnsuredInOrder(p: Project, a: Account)
    ensures [] + ClusterWrites(p, a) + NetworksWrites(p, a) + VolumesWrites(p, a) + LoadBalancerWrites(p, a) == EnsuredWrites(p, a)
  {
    var cluster := ClusterWrites(p, a);
    assert [] + cluster == cluster;
  }

  lemma SharedInOrder(log: seq<Write>, p: Project, a: Account)
    ensures log + SecretsWrites(p) + [LogGroupWrite(p), CloudMapWrite(p, a)]
            + MountsWrites(p, a) + AccessPointWrites(p, a)
            == log + SharedWrites(p, a)
  {
  }

  lemma {:induction false} SomeFails(p: Project, n: nat, m: nat)
    requires n <= m && !NoneFails(p, n)
    ensures !NoneFails(p, m)
  {
    if n < m {
      SomeFails(p, n, m - 1);
    }
  }

  lemma PieceIs(p: Project, a: Account, i: nat)
    requires i < |p.services|
    ensures ServicePieces(p, a)[i] == ServiceWrites(p, a, p.services[i]) + ScalingWrites(a, p.services[i])
  {
  }

  lemma Together(log: seq<Write>, x: seq<Write>, y: seq<Write>)
    ensures log + x + y == log + (x + y)
  {
  }

  /** Nothing overwrites the Cluster resource before the capacity provider is created. */
  lemma ClusterIsThere(p: Project, a: Account, log: seq<Write>)
    requires Convertible(p, a) && NeedsEC2(p) && log == EnsuredWrites(p, a) + SharedWrites(p, a) + AllServiceWrites(p, a)
    ensures "Cluster" in Built(log) && Built(log)["Cluster"] == ClusterResource(p)
  {
    var g := Ground(p, a, WrittenNames(p, a), {Write("Cluster", ClusterResource(p))}, Level);
    WrittenIsComplete(p, a);
    LevelIsGraded(a);
    assert ClusterWrites(p, a)[0] in log;
    BuiltFromWrites(log, "Cluster");
    var w := Write("Cluster", Built(log)["Cluster"]);
    assert w in EnsuredWrites(p, a) || w in SharedWrites(p, a) || w in AllServiceWrites(p, a);
    EarlierWritesAreGood(g, w);
    NamedCluster(g, w);
  }

  /** One request at most, and none that is unreadable. */
  lemma OneIsAsked(deploy: Option<Deploy>, want: Limits)
    requires Asked(deploy, want)
    ensures !Unreadable(deploy)
    ensures forall other :: Asked(deploy, other) ==> other == want
  {
    hide InUnits;
    LimitsAreAsked(deploy);
  }

  lemma InOrder(log: seq<Write>, roles: seq<Write>, c: Write, d: Write, e: seq<Write>, f: seq<Write>)
    ensures log + roles + [c] + [d] + e + f == log + (roles + [c, d] + e + f)
  {
  }
}
