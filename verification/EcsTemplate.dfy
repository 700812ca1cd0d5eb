/** The CloudFormation template a project is converted to, as the writes of `convert` in their order. */
module EcsTemplate {
  import opened Wrappers
  import opened Digraph
  import opened EcsLimits
  import opened EcsNames

  // ---------- the project ----------

  /** `httpProtocol` is the x-aws-protocol extension. */
  datatype Port = Port(target: nat, published: nat, protocol: string, httpProtocol: Option<string>)

  /** `envReadable` is false when some env file is missing or does not parse. */
  datatype ServiceConfig = ServiceConfig(
    name: string,
    dependsOn: seq<string>,
    ports: seq<Port>,
    networks: seq<string>,
    volumes: seq<string>,
    secrets: seq<string>,
    logOptions: map<string, string>,
    pullCredentials: Option<string>,
    envReadable: bool,
    hasRole: bool,
    managedPolicies: nat,
    deploy: Option<Deploy>)

  datatype Network = Network(name: string, internal: bool)

  /** `throughputParses` is false when the provisioned throughput is not a number. */
  datatype Volume = Volume(name: string, throughputParses: bool)

  datatype Secret = Secret(key: string, name: string, external: bool, readable: bool)

  /** Go maps appear as lists, in whatever order they are iterated. */
  datatype Project = Project(name: string, services: seq<ServiceConfig>, networks: seq<Network>, volumes: seq<Volume>, secrets: seq<Secret>)

  /** An AWS resource, existing or made by the template. */
  datatype AwsResource =
    | Existing(arn: string, id: string)
    | CloudFormation(logicalName: string)
    | CloudFormationArn(logicalName: string, nameProperty: string)
  {
    function Arn(): Atom {
      match this
      case Existing(arn, _) => Lit(arn)
      case CloudFormation(name) => GetAtt(name, "Arn")
      case CloudFormationArn(name, _) => Ref(name)
    }

    function Id(): Atom {
      match this
      case Existing(_, id) => Lit(id)
      case CloudFormation(name) => Ref(name)
      case CloudFormationArn(name, property) => GetAtt(name, property)
    }
  }

  /** What was found in the AWS account; `machineKnown` is false when no image or machine type can be chosen. */
  datatype Account = Account(
    cluster: Option<AwsResource>,
    loadBalancer: Option<AwsResource>,
    vpc: string,
    subnets: seq<string>,
    securityGroups: map<string, string>,
    filesystems: map<string, AwsResource>,
    machineKnown: bool)

  // ---------- the template ----------

  datatype Atom = Lit(text: string) | Ref(name: string) | GetAtt(name: string, attribute: string)

  /** A property with the atoms its value is made of: one, or the members of a list or a join. */
  datatype Property = Property(path: string, atoms: seq<Atom>)

  datatype Resource = Resource(kind: string, dependsOn: seq<string>, properties: seq<Property>)

  type Template = map<string, Resource>

  datatype Write = Write(name: string, resource: Resource)

  const REGION := "AWS::Region"
  const SERVICE := "AWS::ECS::Service"

  predicate RefersTo(p: Property, name: string) {
    name != REGION && exists a :: a in p.atoms && !a.Lit? && a.name == name
  }

  /** The logical names a resource refers to. */
  ghost predicate Mentions(r: Resource, name: string) {
    name in r.dependsOn || exists p :: p in r.properties && RefersTo(p, name)
  }

  function AtomNames(p: Property): set<string> {
    set a | a in p.atoms && !a.Lit? && a.name != REGION :: a.name
  }

  function MentionSet(r: Resource): set<string> {
    (set d | d in r.dependsOn) + (set p, x | p in r.properties && x in AtomNames(p) :: x)
  }

  lemma MentionSetIsMentions(r: Resource, name: string)
    ensures name in MentionSet(r) <==> Mentions(r, name)
  {
    forall p | p in r.properties
      ensures name in AtomNames(p) <==> RefersTo(p, name)
    {
    }
  }

  /** The references between the resources of a template. */
  function References(t: Template): Relation {
    map k | k in t :: MentionSet(t[k])
  }

  /** Every reference is to a resource of the template. */
  ghost predicate ClosedTemplate(t: Template) {
    forall k, name :: k in t && Mentions(t[k], name) ==> name in t
  }

  function Built(writes: seq<Write>): Template {
    if writes == [] then map[]
    else
      var w := writes[|writes| - 1];
      Built(writes[..|writes| - 1])[w.name := w.resource]
  }

  lemma {:induction false} BuiltFromWrites(writes: seq<Write>, k: string)
    ensures k in Built(writes) ==> Write(k, Built(writes)[k]) in writes
    ensures (exists w :: w in writes && w.name == k) ==> k in Built(writes)
  {
    if writes != [] {
      var n := |writes| - 1;
      BuiltFromWrites(writes[..n], k);
      assert writes == writes[..n] + [writes[n]];
    }
  }

  lemma BuiltSnoc(writes: seq<Write>, w: Write)
    ensures Built(writes + [w]) == Built(writes)[w.name := w.resource]
  {
    assert (writes + [w])[..|writes|] == writes;
  }

  /** The writes for one element after the other. */
  function Joined(pieces: seq<seq<Write>>): seq<Write> {
    if pieces == [] then [] else Joined(pieces[..|pieces| - 1]) + pieces[|pieces| - 1]
  }

  lemma {:induction false} InJoined(pieces: seq<seq<Write>>, w: Write)
    ensures w in Joined(pieces) <==> exists i :: 0 <= i < |pieces| && w in pieces[i]
  {
    if pieces != [] {
      InJoined(pieces[..|pieces| - 1], w);
    }
  }

  lemma JoinedNext(log: seq<Write>, pieces: seq<seq<Write>>, i: nat)
    requires i < |pieces|
    ensures log + Joined(pieces[..i]) + pieces[i] == log + Joined(pieces[..i + 1])
  {
    assert pieces[..i + 1][..i] == pieces[..i];
  }

  // ---------- what the writers refer to ----------

  predicate HasNetwork(p: Project, name: string) {
    exists i :: 0 <= i < |p.networks| && p.networks[i].name == name
  }

  predicate HasVolume(p: Project, name: string) {
    exists i :: 0 <= i < |p.volumes| && p.volumes[i].name == name
  }

  function ClusterOf(a: Account): AwsResource {
    if a.cluster.Some? then a.cluster.value else CloudFormation("Cluster")
  }

  /** The security group of a network; a network the project does not define has the empty one. */
  function GroupOf(p: Project, a: Account, network: string): Atom {
    if network in a.securityGroups then Lit(a.securityGroups[network])
    else if HasNetwork(p, network) then Ref(NetworkName(network))
    else Lit("")
  }

  function Groups(p: Project, a: Account, networks: seq<string>): seq<Atom> {
    seq(|networks|, i requires 0 <= i < |networks| => GroupOf(p, a, networks[i]))
  }

  function NetworkNames(networks: seq<Network>): seq<string> {
    seq(|networks|, i requires 0 <= i < |networks| => networks[i].name)
  }

  function AllGroups(p: Project, a: Account): seq<Atom> {
    Groups(p, a, NetworkNames(p.networks))
  }

  function PublicNetworks(networks: seq<Network>): seq<string> {
    if networks == [] then []
    else
      var n := |networks| - 1;
      PublicNetworks(networks[..n]) + if networks[n].internal then [] else [networks[n].name]
  }

  function FileSystemOf(a: Account, volume: string): AwsResource {
    if volume in a.filesystems then a.filesystems[volume] else CloudFormation(VolumeName(volume))
  }

  predicate PortIsHTTP(port: Port) {
    if port.httpProtocol.Some? then port.httpProtocol.value == "http" || port.httpProtocol.value == "https"
    else port.target == 80 || port.target == 443
  }

  predicate NeedsApplication(p: Project) {
    forall s :: s in p.services ==> forall port :: port in s.ports ==> PortIsHTTP(port)
  }

  predicate NoPorts(p: Project) {
    forall s :: s in p.services ==> |s.ports| == 0
  }

  function LoadBalancerOf(a: Account): AwsResource {
    if a.loadBalancer.Some? then a.loadBalancer.value else CloudFormationArn("LoadBalancer", "LoadBalancerName")
  }

  /** The secret's own reference once it has been created; an external one keeps its name. */
  function SecretValue(secrets: seq<Secret>, key: string): Atom {
    if secrets == [] then Lit("")
    else
      var s := secrets[|secrets| - 1];
      if s.key == key then (if s.external then Lit(s.name) else Ref(SecretName(s.name)))
      else SecretValue(secrets[..|secrets| - 1], key)
  }

  function SecretValues(p: Project, keys: seq<string>): seq<Atom> {
    seq(|keys|, i requires 0 <= i < |keys| => SecretValue(p.secrets, keys[i]))
  }

  function Lits(texts: seq<string>): seq<Atom> {
    seq(|texts|, i requires 0 <= i < |texts| => Lit(texts[i]))
  }

  function LogOption(s: ServiceConfig, key: string, default: Atom): Atom {
    if key in s.logOptions then Lit(s.logOptions[key]) else default
  }

  // ---------- the writers ----------

  function ClusterResource(p: Project): Resource {
    Resource("AWS::ECS::Cluster", [], [Property("ClusterName", [Lit(p.name)])])
  }

  function ClusterWrites(p: Project, a: Account): seq<Write> {
    if a.cluster.Some? then [] else [Write("Cluster", ClusterResource(p))]
  }

  function NetworkWrites(p: Project, a: Account, n: Network): seq<Write> {
    if n.name in a.securityGroups then []
    else [
        Write(NetworkName(n.name), Resource("AWS::EC2::SecurityGroup", [], [Property("VpcId", [Lit(a.vpc)])])),
        Write(NetworkName(n.name) + "Ingress",
              Resource("AWS::EC2::SecurityGroupIngress", [],
                       [Property("GroupId", [Ref(NetworkName(n.name))]), Property("SourceSecurityGroupId", [Ref(NetworkName(n.name))])]))]
  }

  function VolumeWrites(a: Account, v: Volume): seq<Write> {
    if v.name in a.filesystems then [] else [Write(VolumeName(v.name), Resource("AWS::EFS::FileSystem", [], []))]
  }

  function LoadBalancerWrites(p: Project, a: Account): seq<Write> {
    if a.loadBalancer.Some? || NoPorts(p) then [] else [LoadBalancerWrite(p, a)]
  }

  function LoadBalancerWrite(p: Project, a: Account): Write {
    Write("LoadBalancer",
          Resource("AWS::ElasticLoadBalancingV2::LoadBalancer", [],
                   [Property("SecurityGroups", BalancerGroups(p, a)), Property("Subnets", Lits(a.subnets)),
                    Property("Type", [Lit(if NeedsApplication(p) then "application" else "network")])]))
  }

  /** Network load balancers have no security groups. */
  function BalancerGroups(p: Project, a: Account): seq<Atom> {
    if NeedsApplication(p) then Groups(p, a, PublicNetworks(p.networks)) else []
  }

  function SecretWrites(s: Secret): seq<Write> {
    if s.external then [] else [Write(SecretName(s.name), Resource("AWS::SecretsManager::Secret", [], []))]
  }

  function LogGroupWrite(p: Project): Write {
    Write("LogGroup", Resource("AWS::Logs::LogGroup", [], [Property("LogGroupName", [Lit("/docker-compose/" + p.name)])]))
  }

  function CloudMapWrite(p: Project, a: Account): Write {
    Write("CloudMap", Resource("AWS::ServiceDiscovery::PrivateDnsNamespace", [], [Property("Vpc", [Lit(a.vpc)])]))
  }

  function MountTargetWrite(p: Project, a: Account, v: Volume, subnet: string): Write {
    Write(MountTargetName(v.name, subnet),
          Resource("AWS::EFS::MountTarget", [],
                   [Property("FileSystemId", [FileSystemOf(a, v.name).Id()]),
                    Property("SecurityGroups", AllGroups(p, a)), Property("SubnetId", [Lit(subnet)])]))
  }

  function MountTargetWrites(p: Project, a: Account, v: Volume, subnets: seq<string>): seq<Write> {
    if subnets == [] then []
    else MountTargetWrites(p, a, v, subnets[..|subnets| - 1]) + [MountTargetWrite(p, a, v, subnets[|subnets| - 1])]
  }

  lemma {:induction false} InMountTargets(p: Project, a: Account, v: Volume, subnets: seq<string>, w: Write)
    ensures w in MountTargetWrites(p, a, v, subnets) <==> exists i :: 0 <= i < |subnets| && w == MountTargetWrite(p, a, v, subnets[i])
  {
    if subnets != [] {
      InMountTargets(p, a, v, subnets[..|subnets| - 1], w);
    }
  }

  function AccessPointWrite(a: Account, v: Volume): Write {
    Write(AccessPointName(v.name), Resource("AWS::EFS::AccessPoint", [], [Property("FileSystemId", [FileSystemOf(a, v.name).Id()])]))
  }

  function ExecutionRoleWrite(p: Project, s: ServiceConfig): Write {
    var credentials := if s.pullCredentials.Some? then [Lit(s.pullCredentials.value)] else [];
    Write(ExecutionRoleName(s.name),
          Resource("AWS::IAM::Role", [], [Property("Policies", credentials + SecretValues(p, s.secrets))]))
  }

  predicate HasTaskRole(s: ServiceConfig) {
    s.hasRole || s.volumes != [] || s.managedPolicies > 0
  }

  function FileSystemArns(a: Account, volumes: seq<string>): seq<Atom> {
    seq(|volumes|, i requires 0 <= i < |volumes| => FileSystemOf(a, volumes[i]).Arn())
  }

  function FileSystemIds(a: Account, volumes: seq<string>): seq<Atom> {
    seq(|volumes|, i requires 0 <= i < |volumes| => FileSystemOf(a, volumes[i]).Id())
  }

  function AccessPoints(volumes: seq<string>): seq<Atom> {
    seq(|volumes|, i requires 0 <= i < |volumes| => Ref(AccessPointName(volumes[i])))
  }

  function TaskRoleWrites(a: Account, s: ServiceConfig): seq<Write> {
    if !HasTaskRole(s) then []
    else [Write(TaskRoleName(s.name),
                Resource("AWS::IAM::Role", [],
                         [Property("Policies.Resource", FileSystemArns(a, s.volumes)),
                          Property("Policies.Condition", AccessPoints(s.volumes))]))]
  }

  function TaskDefinitionWrite(p: Project, a: Account, s: ServiceConfig): Write {
    Write(TaskDefinitionName(s.name),
          Resource("AWS::ECS::TaskDefinition", [],
                   [Property("Secrets", SecretValues(p, s.secrets)),
                    Property("AwslogsRegion", [LogOption(s, "awslogs-region", Ref(REGION))]),
                    Property("AwslogsGroup", [LogOption(s, "awslogs-group", Ref("LogGroup"))]),
                    Property("AccessPointId", AccessPoints(s.volumes)),
                    Property("FilesystemId", FileSystemIds(a, s.volumes)),
                    Property("ExecutionRoleArn", [Ref(ExecutionRoleName(s.name))]),
                    Property("TaskRoleArn", if HasTaskRole(s) then [Ref(TaskRoleName(s.name))] else [])]))
  }

  function DiscoveryWrite(s: ServiceConfig): Write {
    Write(DiscoveryName(s.name), Resource("AWS::ServiceDiscovery::Service", [], [Property("NamespaceId", [Ref("CloudMap")])]))
  }

  function IngressWrite(p: Project, a: Account, network: string, port: Port): Write {
    Write(IngressName(network, port.target),
          Resource("AWS::EC2::SecurityGroupIngress", [], [Property("GroupId", [GroupOf(p, a, network)])]))
  }

  function TargetGroupWrite(a: Account, s: ServiceConfig, port: Port): Write {
    Write(TargetGroupName(s.name, port.protocol, port.published),
          Resource("AWS::ElasticLoadBalancingV2::TargetGroup", [], [Property("VpcId", [Lit(a.vpc)])]))
  }

  function ListenerWrite(a: Account, s: ServiceConfig, port: Port): Write {
    Write(ListenerName(s.name, port.protocol, port.target),
          Resource("AWS::ElasticLoadBalancingV2::Listener", [],
                   [Property("TargetGroupArn", [Ref(TargetGroupName(s.name, port.protocol, port.published))]),
                    Property("LoadBalancerArn", [LoadBalancerOf(a).Arn()])]))
  }

  function IngressWrites(p: Project, a: Account, networks: seq<string>, port: Port): seq<Write> {
    if networks == [] then []
    else IngressWrites(p, a, networks[..|networks| - 1], port) + [IngressWrite(p, a, networks[|networks| - 1], port)]
  }

  lemma {:induction false} InIngresses(p: Project, a: Account, networks: seq<string>, port: Port, w: Write)
    ensures w in IngressWrites(p, a, networks, port) <==> exists i :: 0 <= i < |networks| && w == IngressWrite(p, a, networks[i], port)
  {
    if networks != [] {
      InIngresses(p, a, networks[..|networks| - 1], port, w);
    }
  }

  function PortWrites(p: Project, a: Account, s: ServiceConfig, port: Port): seq<Write> {
    IngressWrites(p, a, s.networks, port) + [TargetGroupWrite(a, s, port), ListenerWrite(a, s, port)]
  }

  function PortPieces(p: Project, a: Account, s: ServiceConfig): (pieces: seq<seq<Write>>)
    ensures |pieces| == |s.ports|
  {
    seq(|s.ports|, i requires 0 <= i < |s.ports| => PortWrites(p, a, s, s.ports[i]))
  }

  function PortsWrites(p: Project, a: Account, s: ServiceConfig): seq<Write> {
    Joined(PortPieces(p, a, s))
  }

  lemma InPorts(p: Project, a: Account, s: ServiceConfig, w: Write)
    ensures w in PortsWrites(p, a, s) <==> exists i :: 0 <= i < |s.ports| && w in PortWrites(p, a, s, s.ports[i])
  {
    InJoined(PortPieces(p, a, s), w);
    forall i | 0 <= i < |s.ports|
      ensures PortPieces(p, a, s)[i] == PortWrites(p, a, s, s.ports[i])
    {
    }
  }

  function Listeners(s: ServiceConfig): seq<string> {
    seq(|s.ports|, i requires 0 <= i < |s.ports| => ListenerName(s.name, s.ports[i].protocol, s.ports[i].target))
  }

  function TargetGroups(s: ServiceConfig): seq<Atom> {
    seq(|s.ports|, i requires 0 <= i < |s.ports| => Ref(TargetGroupName(s.name, s.ports[i].protocol, s.ports[i].published)))
  }

  function ServiceNames(names: seq<string>): seq<string> {
    seq(|names|, i requires 0 <= i < |names| => ServiceName(names[i]))
  }

  function MountTargets(a: Account, volume: string): seq<string> {
    seq(|a.subnets|, i requires 0 <= i < |a.subnets| => MountTargetName(volume, a.subnets[i]))
  }

  function AllMountTargets(a: Account, volumes: seq<string>): seq<string> {
    if volumes == [] then []
    else AllMountTargets(a, volumes[..|volumes| - 1]) + MountTargets(a, volumes[|volumes| - 1])
  }

  function ServiceResource(p: Project, a: Account, s: ServiceConfig): Resource {
    Resource(SERVICE,
             Listeners(s) + ServiceNames(s.dependsOn) + AllMountTargets(a, s.volumes),
             [Property("Cluster", [ClusterOf(a).Arn()]),
              Property("LoadBalancers", TargetGroups(s)),
              Property("SecurityGroups", Groups(p, a, s.networks)),
              Property("Subnets", Lits(a.subnets)),
              Property("ServiceRegistries", [GetAtt(DiscoveryName(s.name), "Arn")]),
              Property("TaskDefinition", [Ref(Normalize(TaskDefinitionName(s.name)))])])
  }

  function ServiceWrites(p: Project, a: Account, s: ServiceConfig): seq<Write> {
    [ExecutionRoleWrite(p, s)] + TaskRoleWrites(a, s) + [TaskDefinitionWrite(p, a, s), DiscoveryWrite(s)]
    + PortsWrites(p, a, s)
    + [Write(ServiceName(s.name), ServiceResource(p, a, s))]
  }

  predicate Scales(s: ServiceConfig) {
    s.deploy.Some? && s.deploy.value.autoscaling.Some?
  }

  function ScalingWrites(a: Account, s: ServiceConfig): seq<Write> {
    if !Scales(s) then []
    else [
        Write(AutoScalingRoleName(s.name), Resource("AWS::IAM::Role", [], [Property("Policies", [Ref(ServiceName(s.name))])])),
        Write(ScalableTargetName(s.name),
              Resource("AWS::ApplicationAutoScaling::ScalableTarget", [ServiceName(s.name)],
                       [Property("ResourceId", [Lit("service"), ClusterOf(a).Id(), GetAtt(ServiceName(s.name), "Name")]),
                        Property("RoleARN", [GetAtt(AutoScalingRoleName(s.name), "Arn")])])),
        Write(ScalingPolicyName(s.name),
              Resource("AWS::ApplicationAutoScaling::ScalingPolicy", [], [Property("ScalingTargetId", [Ref(ScalableTargetName(s.name))])]))]
  }

  predicate NeedsEC2(p: Project) {
    exists s :: s in p.services && RequireEC2(s.deploy)
  }

  /** The last write changes the Cluster resource that is already there. */
  function CapacityWrites(p: Project, a: Account): seq<Write> {
    if !NeedsEC2(p) then []
    else [
        Write("CapacityProvider", Resource("AWS::ECS::CapacityProvider", [], [Property("AutoScalingGroupArn", [Ref("AutoscalingGroup")])])),
        Write("AutoscalingGroup",
              Resource("AWS::AutoScaling::AutoScalingGroup", [],
                       [Property("LaunchConfigurationName", [Ref("LaunchConfiguration")]), Property("VPCZoneIdentifier", Lits(a.subnets))])),
        Write("LaunchConfiguration",
              Resource("AWS::AutoScaling::LaunchConfiguration", [],
                       [Property("SecurityGroups", AllGroups(p, a)), Property("IamInstanceProfile", [Ref("EC2InstanceProfile")])])),
        Write("EC2InstanceProfile", Resource("AWS::IAM::InstanceProfile", [], [Property("Roles", [Ref("EC2InstanceRole")])])),
        Write("EC2InstanceRole", Resource("AWS::IAM::Role", [], [])),
        Write("Cluster", WithCapacityProvider(ClusterResource(p)))]
  }

  function WithCapacityProvider(cluster: Resource): Resource {
    cluster.(properties := cluster.properties + [Property("CapacityProviders", [Ref("CapacityProvider")])])
  }

  // ---------- the loops over the writers ----------

  function NetworkPieces(p: Project, a: Account): (pieces: seq<seq<Write>>)
    ensures |pieces| == |p.networks|
  {
    seq(|p.networks|, i requires 0 <= i < |p.networks| => NetworkWrites(p, a, p.networks[i]))
  }

  function NetworksWrites(p: Project, a: Account): seq<Write> {
    Joined(NetworkPieces(p, a))
  }

  lemma InNetworks(p: Project, a: Account, w: Write)
    ensures w in NetworksWrites(p, a) <==> exists i :: 0 <= i < |p.networks| && w in NetworkWrites(p, a, p.networks[i])
  {
    InJoined(NetworkPieces(p, a), w);
    forall i | 0 <= i < |p.networks|
      ensures NetworkPieces(p, a)[i] == NetworkWrites(p, a, p.networks[i])
    {
    }
  }

  function VolumePieces(p: Project, a: Account): (pieces: seq<seq<Write>>)
    ensures |pieces| == |p.volumes|
  {
    seq(|p.volumes|, i requires 0 <= i < |p.volumes| => VolumeWrites(a, p.volumes[i]))
  }

  function VolumesWrites(p: Project, a: Account): seq<Write> {
    Joined(VolumePieces(p, a))
  }

  lemma InVolumes(p: Project, a: Account, w: Write)
    ensures w in VolumesWrites(p, a) <==> exists i :: 0 <= i < |p.volumes| && w in VolumeWrites(a, p.volumes[i])
  {
    InJoined(VolumePieces(p, a), w);
    forall i | 0 <= i < |p.volumes|
      ensures VolumePieces(p, a)[i] == VolumeWrites(a, p.volumes[i])
    {
    }
  }

  function SecretPieces(p: Project): (pieces: seq<seq<Write>>)
    ensures |pieces| == |p.secrets|
  {
    seq(|p.secrets|, i requires 0 <= i < |p.secrets| => SecretWrites(p.secrets[i]))
  }

  function SecretsWrites(p: Project): seq<Write> {
    Joined(SecretPieces(p))
  }

  lemma InSecrets(p: Project, w: Write)
    ensures w in SecretsWrites(p) <==> exists i :: 0 <= i < |p.secrets| && w in SecretWrites(p.secrets[i])
  {
    InJoined(SecretPieces(p), w);
    forall i | 0 <= i < |p.secrets|
      ensures SecretPieces(p)[i] == SecretWrites(p.secrets[i])
    {
    }
  }

  function MountPieces(p: Project, a: Account): (pieces: seq<seq<Write>>)
    ensures |pieces| == |p.volumes|
  {
    seq(|p.volumes|, i requires 0 <= i < |p.volumes| => MountTargetWrites(p, a, p.volumes[i], a.subnets))
  }

  function MountsWrites(p: Project, a: Account): seq<Write> {
    Joined(MountPieces(p, a))
  }

  lemma InMounts(p: Project, a: Account, w: Write)
    ensures w in MountsWrites(p, a) <==> exists i :: 0 <= i < |p.volumes| && w in MountTargetWrites(p, a, p.volumes[i], a.subnets)
  {
    InJoined(MountPieces(p, a), w);
    forall i | 0 <= i < |p.volumes|
      ensures MountPieces(p, a)[i] == MountTargetWrites(p, a, p.volumes[i], a.subnets)
    {
    }
  }

  function AccessPointPieces(p: Project, a: Account): (pieces: seq<seq<Write>>)
    ensures |pieces| == |p.volumes|
  {
    seq(|p.volumes|, i requires 0 <= i < |p.volumes| => [AccessPointWrite(a, p.volumes[i])])
  }

  function AccessPointWrites(p: Project, a: Account): seq<Write> {
    Joined(AccessPointPieces(p, a))
  }

  lemma InAccessPoints(p: Project, a: Account, w: Write)
    ensures w in AccessPointWrites(p, a) <==> exists i :: 0 <= i < |p.volumes| && w in [AccessPointWrite(a, p.volumes[i])]
  {
    InJoined(AccessPointPieces(p, a), w);
    forall i | 0 <= i < |p.volumes|
      ensures AccessPointPieces(p, a)[i] == [AccessPointWrite(a, p.volumes[i])]
    {
    }
  }

  function ServicePieces(p: Project, a: Account): (pieces: seq<seq<Write>>)
    ensures |pieces| == |p.services|
  {
    seq(|p.services|, i requires 0 <= i < |p.services| => ServiceWrites(p, a, p.services[i]) + ScalingWrites(a, p.services[i]))
  }

  function AllServiceWrites(p: Project, a: Account): seq<Write> {
    Joined(ServicePieces(p, a))
  }

  lemma InServices(p: Project, a: Account, w: Write)
    ensures w in AllServiceWrites(p, a) <==> exists i :: 0 <= i < |p.services| && w in ServiceWrites(p, a, p.services[i]) + ScalingWrites(a, p.services[i])
  {
    InJoined(ServicePieces(p, a), w);
    forall i | 0 <= i < |p.services|
      ensures ServicePieces(p, a)[i] == ServiceWrites(p, a, p.services[i]) + ScalingWrites(a, p.services[i])
    {
    }
  }

  function EnsuredWrites(p: Project, a: Account): seq<Write> {
    ClusterWrites(p, a) + NetworksWrites(p, a) + VolumesWrites(p, a) + LoadBalancerWrites(p, a)
  }

  function SharedWrites(p: Project, a: Account): seq<Write> {
    SecretsWrites(p) + [LogGroupWrite(p), CloudMapWrite(p, a)] + MountsWrites(p, a) + AccessPointWrites(p, a)
  }

  /** Everything `convert` writes, in order. */
  function AllWrites(p: Project, a: Account): seq<Write> {
    EnsuredWrites(p, a) + SharedWrites(p, a) + AllServiceWrites(p, a) + CapacityWrites(p, a)
  }

  function TemplateOf(p: Project, a: Account): Template {
    Built(AllWrites(p, a))
  }

  // ---------- what convert relies on ----------

  /** The parsing steps look up only networks and volumes of the project, and find existing resources. */
  predicate FoundInAccount(p: Project, a: Account) {
    && (forall n :: n in a.securityGroups ==> HasNetwork(p, n))
    && (forall v :: v in a.filesystems ==> HasVolume(p, v) && a.filesystems[v].Existing?)
    && (a.cluster.Some? ==> a.cluster.value.Existing?)
    && (a.loadBalancer.Some? ==> a.loadBalancer.value.Existing?)
  }

  /** A volume the project does not define, or machines for an existing cluster, make `convert` panic. */
  predicate Convertible(p: Project, a: Account) {
    && FoundInAccount(p, a)
    && (forall s :: s in p.services ==> forall v :: v in s.volumes ==> HasVolume(p, v))
    && (NeedsEC2(p) ==> a.cluster.None?)
  }
}
