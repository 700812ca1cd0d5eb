/** What each resource of a template has to be, in terms of the project and the account alone. */
module EcsSpecified {
  import opened Wrappers
  import opened EcsLimits
  import opened EcsNames
  import opened EcsTemplate

  /** The resource holds this atom under this path. */
  ghost predicate Among(r: Resource, path: string, x: Atom) {
    exists i :: 0 <= i < |r.properties| && r.properties[i].path == path && x in r.properties[i].atoms
  }

  ghost predicate Only(r: Resource, path: string, x: Atom) {
    forall y :: Among(r, path, y) <==> y == x
  }

  /** A resource of this kind that waits for no other. */
  predicate Plain(r: Resource, kind: string) {
    r.kind == kind && r.dependsOn == []
  }

  // ---------- what is referred to ----------

  /** The group found for a network, or else the one created for a network of the project. */
  ghost predicate IsGroup(p: Project, a: Account, network: string, x: Atom) {
    if network in a.securityGroups then x == Lit(a.securityGroups[network])
    else if exists n :: n in p.networks && n.name == network then x == Ref(NetworkName(network))
    else x == Lit("")
  }

  ghost predicate IsGroupOfAny(p: Project, a: Account, networks: seq<string>, x: Atom) {
    exists n :: n in networks && IsGroup(p, a, n, x)
  }

  ghost predicate IsGroupOfProject(p: Project, a: Account, x: Atom) {
    exists n :: n in p.networks && IsGroup(p, a, n.name, x)
  }

  ghost predicate IsPublicGroup(p: Project, a: Account, x: Atom) {
    exists n :: n in p.networks && !n.internal && IsGroup(p, a, n.name, x)
  }

  predicate IsFileSystemId(a: Account, volume: string, x: Atom) {
    if volume in a.filesystems then a.filesystems[volume].Existing? && x == Lit(a.filesystems[volume].id)
    else x == Ref(VolumeName(volume))
  }

  predicate IsFileSystemArn(a: Account, volume: string, x: Atom) {
    if volume in a.filesystems then a.filesystems[volume].Existing? && x == Lit(a.filesystems[volume].arn)
    else x == GetAtt(VolumeName(volume), "Arn")
  }

  /** The last secret of this key: its own name if it is external, else what is created for it. */
  ghost predicate IsSecret(p: Project, key: string, x: Atom) {
    || ((forall s :: s in p.secrets ==> s.key != key) && x == Lit(""))
    || exists i :: LastSecret(p.secrets, key, i)
         && x == if p.secrets[i].external then Lit(p.secrets[i].name) else Ref(SecretName(p.secrets[i].name))
  }

  predicate LastSecret(secrets: seq<Secret>, key: string, i: int) {
    0 <= i < |secrets| && secrets[i].key == key && forall j :: i < j < |secrets| ==> secrets[j].key != key
  }

  ghost predicate IsSecretOfAny(p: Project, keys: seq<string>, x: Atom) {
    exists key :: key in keys && IsSecret(p, key, x)
  }

  ghost predicate IsSubnet(a: Account, x: Atom) {
    exists subnet :: subnet in a.subnets && x == Lit(subnet)
  }

  ghost predicate IsAccessPoint(volumes: seq<string>, x: Atom) {
    exists v :: v in volumes && x == Ref(AccessPointName(v))
  }

  // ---------- for the account ----------

  ghost predicate NeedsMachines(p: Project) {
    exists s :: s in p.services && NeedsGpu(s.deploy)
  }

  ghost predicate ForCluster(p: Project, a: Account, k: string, r: Resource) {
    && a.cluster == None && k == "Cluster" && Plain(r, "AWS::ECS::Cluster")
    && Only(r, "ClusterName", Lit(p.name))
    && (forall x :: Among(r, "CapacityProviders", x) <==> NeedsMachines(p) && x == Ref("CapacityProvider"))
  }

  ghost predicate Exposes(p: Project) {
    exists s, port :: s in p.services && port in s.ports
  }

  predicate SpeaksHTTP(port: Port) {
    port.httpProtocol in {Some("http"), Some("https")} || (port.httpProtocol == None && port.target in {80, 443})
  }

  ghost predicate AllHTTP(p: Project) {
    forall s, port :: s in p.services && port in s.ports ==> SpeaksHTTP(port)
  }

  /** An application balancer is in the groups of the networks that are not internal, a network balancer in none. */
  ghost predicate BalancerWired(p: Project, a: Account, r: Resource) {
    && Plain(r, "AWS::ElasticLoadBalancingV2::LoadBalancer")
    && (forall x :: Among(r, "SecurityGroups", x) <==> AllHTTP(p) && IsPublicGroup(p, a, x))
    && (forall x :: Among(r, "Subnets", x) <==> IsSubnet(a, x))
    && Only(r, "Type", Lit(if AllHTTP(p) then "application" else "network"))
  }

  ghost predicate ForBalancer(p: Project, a: Account, k: string, r: Resource) {
    a.loadBalancer == None && Exposes(p) && k == "LoadBalancer" && BalancerWired(p, a, r)
  }

  ghost predicate ForLogGroup(p: Project, k: string, r: Resource) {
    k == "LogGroup" && Plain(r, "AWS::Logs::LogGroup") && Only(r, "LogGroupName", Lit("/docker-compose/" + p.name))
  }

  ghost predicate ForCloudMap(a: Account, k: string, r: Resource) {
    k == "CloudMap" && Plain(r, "AWS::ServiceDiscovery::PrivateDnsNamespace") && Only(r, "Vpc", Lit(a.vpc))
  }

  /** The chain of resources that brings the machines. */
  ghost predicate ForMachines(p: Project, a: Account, k: string, r: Resource) {
    NeedsMachines(p) && (ForProvider(k, r) || ForMachineGroup(a, k, r) || ForLaunch(p, a, k, r) || ForProfile(k, r) || ForMachineRole(k, r))
  }

  ghost predicate ForProvider(k: string, r: Resource) {
    k == "CapacityProvider" && Plain(r, "AWS::ECS::CapacityProvider") && Only(r, "AutoScalingGroupArn", Ref("AutoscalingGroup"))
  }

  ghost predicate ForMachineGroup(a: Account, k: string, r: Resource) {
    && k == "AutoscalingGroup" && Plain(r, "AWS::AutoScaling::AutoScalingGroup")
    && Only(r, "LaunchConfigurationName", Ref("LaunchConfiguration"))
    && (forall x :: Among(r, "VPCZoneIdentifier", x) <==> IsSubnet(a, x))
  }

  ghost predicate ForLaunch(p: Project, a: Account, k: string, r: Resource) {
    && k == "LaunchConfiguration" && Plain(r, "AWS::AutoScaling::LaunchConfiguration")
    && (forall x :: Among(r, "SecurityGroups", x) <==> IsGroupOfProject(p, a, x))
    && Only(r, "IamInstanceProfile", Ref("EC2InstanceProfile"))
  }

  ghost predicate ForProfile(k: string, r: Resource) {
    k == "EC2InstanceProfile" && Plain(r, "AWS::IAM::InstanceProfile") && Only(r, "Roles", Ref("EC2InstanceRole"))
  }

  ghost predicate ForMachineRole(k: string, r: Resource) {
    k == "EC2InstanceRole" && Plain(r, "AWS::IAM::Role") && r.properties == []
  }

  // ---------- for a network, a volume, a secret ----------

  ghost predicate ForNetwork(a: Account, n: Network, k: string, r: Resource) {
    n.name !in a.securityGroups && (ForNetworkGroup(a, n.name, k, r) || ForNetworkIngress(n.name, k, r))
  }

  ghost predicate ForNetworkGroup(a: Account, network: string, k: string, r: Resource) {
    k == NetworkName(network) && Plain(r, "AWS::EC2::SecurityGroup") && Only(r, "VpcId", Lit(a.vpc))
  }

  /** The members of a network reach each other. */
  ghost predicate ForNetworkIngress(network: string, k: string, r: Resource) {
    && k == NetworkName(network) + "Ingress" && Plain(r, "AWS::EC2::SecurityGroupIngress")
    && Only(r, "GroupId", Ref(NetworkName(network))) && Only(r, "SourceSecurityGroupId", Ref(NetworkName(network)))
  }

  ghost predicate ForVolume(p: Project, a: Account, volume: string, k: string, r: Resource) {
    || ForFileSystem(a, volume, k, r)
    || ForAccessPoint(a, volume, k, r)
    || exists subnet :: subnet in a.subnets && ForMountTarget(p, a, volume, subnet, k, r)
  }

  predicate ForFileSystem(a: Account, volume: string, k: string, r: Resource) {
    volume !in a.filesystems && k == VolumeName(volume) && Plain(r, "AWS::EFS::FileSystem") && r.properties == []
  }

  ghost predicate ForAccessPoint(a: Account, volume: string, k: string, r: Resource) {
    && k == AccessPointName(volume) && Plain(r, "AWS::EFS::AccessPoint")
    && (forall x :: Among(r, "FileSystemId", x) <==> IsFileSystemId(a, volume, x))
  }

  ghost predicate ForMountTarget(p: Project, a: Account, volume: string, subnet: string, k: string, r: Resource) {
    && k == MountTargetName(volume, subnet) && Plain(r, "AWS::EFS::MountTarget")
    && (forall x :: Among(r, "FileSystemId", x) <==> IsFileSystemId(a, volume, x))
    && (forall x :: Among(r, "SecurityGroups", x) <==> IsGroupOfProject(p, a, x))
    && Only(r, "SubnetId", Lit(subnet))
  }

  predicate ForSecret(s: Secret, k: string, r: Resource) {
    !s.external && k == SecretName(s.name) && Plain(r, "AWS::SecretsManager::Secret") && r.properties == []
  }

  // ---------- for a service ----------

  ghost predicate ForService(p: Project, a: Account, s: ServiceConfig, k: string, r: Resource) {
    || ForExecutionRole(p, s, k, r)
    || ForTaskRole(a, s, k, r)
    || ForTaskDefinition(p, a, s, k, r)
    || ForDiscovery(s, k, r)
    || (exists port :: port in s.ports && ForPort(p, a, s, port, k, r))
    || (k == ServiceName(s.name) && ServiceWired(p, a, s, r))
    || ForScaling(a, s, k, r)
  }

  ghost predicate ForExecutionRole(p: Project, s: ServiceConfig, k: string, r: Resource) {
    && k == ExecutionRoleName(s.name) && Plain(r, "AWS::IAM::Role")
    && forall x :: Among(r, "Policies", x) <==>
         (s.pullCredentials.Some? && x == Lit(s.pullCredentials.value)) || IsSecretOfAny(p, s.secrets, x)
  }

  /** There are policies of some kind. */
  predicate WantsRole(s: ServiceConfig) {
    s.hasRole || |s.volumes| > 0 || s.managedPolicies > 0
  }

  ghost predicate ForTaskRole(a: Account, s: ServiceConfig, k: string, r: Resource) {
    && WantsRole(s) && k == TaskRoleName(s.name) && Plain(r, "AWS::IAM::Role")
    && (forall x :: Among(r, "Policies.Resource", x) <==> exists v :: v in s.volumes && IsFileSystemArn(a, v, x))
    && (forall x :: Among(r, "Policies.Condition", x) <==> IsAccessPoint(s.volumes, x))
  }

  ghost predicate ForTaskDefinition(p: Project, a: Account, s: ServiceConfig, k: string, r: Resource) {
    && k == TaskDefinitionName(s.name) && Plain(r, "AWS::ECS::TaskDefinition")
    && (forall x :: Among(r, "Secrets", x) <==> IsSecretOfAny(p, s.secrets, x))
    && Only(r, "AwslogsRegion", if "awslogs-region" in s.logOptions then Lit(s.logOptions["awslogs-region"]) else Ref("AWS::Region"))
    && Only(r, "AwslogsGroup", if "awslogs-group" in s.logOptions then Lit(s.logOptions["awslogs-group"]) else Ref("LogGroup"))
    && (forall x :: Among(r, "AccessPointId", x) <==> IsAccessPoint(s.volumes, x))
    && (forall x :: Among(r, "FilesystemId", x) <==> exists v :: v in s.volumes && IsFileSystemId(a, v, x))
    && Only(r, "ExecutionRoleArn", Ref(ExecutionRoleName(s.name)))
    && (forall x :: Among(r, "TaskRoleArn", x) <==> WantsRole(s) && x == Ref(TaskRoleName(s.name)))
  }

  ghost predicate ForDiscovery(s: ServiceConfig, k: string, r: Resource) {
    k == DiscoveryName(s.name) && Plain(r, "AWS::ServiceDiscovery::Service") && Only(r, "NamespaceId", Ref("CloudMap"))
  }

  /** A way into each network of the service, a target group, and a listener from the balancer to it. */
  ghost predicate ForPort(p: Project, a: Account, s: ServiceConfig, port: Port, k: string, r: Resource) {
    || (exists n :: n in s.networks && ForIngress(p, a, n, port, k, r))
    || ForTargetGroup(a, s, port, k, r)
    || ForListener(a, s, port, k, r)
  }

  ghost predicate ForIngress(p: Project, a: Account, network: string, port: Port, k: string, r: Resource) {
    && k == IngressName(network, port.target) && Plain(r, "AWS::EC2::SecurityGroupIngress")
    && (forall x :: Among(r, "GroupId", x) <==> IsGroup(p, a, network, x))
  }

  ghost predicate ForTargetGroup(a: Account, s: ServiceConfig, port: Port, k: string, r: Resource) {
    && k == TargetGroupName(s.name, port.protocol, port.published) && Plain(r, "AWS::ElasticLoadBalancingV2::TargetGroup")
    && Only(r, "VpcId", Lit(a.vpc))
  }

  ghost predicate ForListener(a: Account, s: ServiceConfig, port: Port, k: string, r: Resource) {
    && k == ListenerName(s.name, port.protocol, port.target) && Plain(r, "AWS::ElasticLoadBalancingV2::Listener")
    && Only(r, "TargetGroupArn", Ref(TargetGroupName(s.name, port.protocol, port.published)))
    && Only(r, "LoadBalancerArn",
            if a.loadBalancer.Some? && a.loadBalancer.value.Existing? then Lit(a.loadBalancer.value.arn) else Ref("LoadBalancer"))
  }

  /** It waits for its listeners, for the services it depends on and for the mount targets of its volumes. */
  ghost predicate WaitsFor(a: Account, s: ServiceConfig, d: string) {
    || (exists port :: port in s.ports && d == ListenerName(s.name, port.protocol, port.target))
    || (exists x :: x in s.dependsOn && d == ServiceName(x))
    || (exists v, subnet :: v in s.volumes && subnet in a.subnets && d == MountTargetName(v, subnet))
  }

  ghost predicate IsTargetGroup(s: ServiceConfig, x: Atom) {
    exists port :: port in s.ports && x == Ref(TargetGroupName(s.name, port.protocol, port.published))
  }

  ghost predicate ServiceWired(p: Project, a: Account, s: ServiceConfig, r: Resource) {
    && r.kind == "AWS::ECS::Service"
    && (forall d :: d in r.dependsOn <==> WaitsFor(a, s, d))
    && Only(r, "Cluster",
            if a.cluster.Some? && a.cluster.value.Existing? then Lit(a.cluster.value.arn) else GetAtt("Cluster", "Arn"))
    && (forall x :: Among(r, "LoadBalancers", x) <==> IsTargetGroup(s, x))
    && (forall x :: Among(r, "SecurityGroups", x) <==> IsGroupOfAny(p, a, s.networks, x))
    && (forall x :: Among(r, "Subnets", x) <==> IsSubnet(a, x))
    && Only(r, "ServiceRegistries", GetAtt(DiscoveryName(s.name), "Arn"))
    && Only(r, "TaskDefinition", Ref(TaskDefinitionName(s.name)))
  }

  ghost predicate ForScaling(a: Account, s: ServiceConfig, k: string, r: Resource) {
    && s.deploy.Some? && s.deploy.value.autoscaling.Some?
    && (ForScalingRole(s, k, r) || ForScalableTarget(a, s, k, r) || ForScalingPolicy(s, k, r))
  }

  ghost predicate ForScalingRole(s: ServiceConfig, k: string, r: Resource) {
    k == AutoScalingRoleName(s.name) && Plain(r, "AWS::IAM::Role") && Only(r, "Policies", Ref(ServiceName(s.name)))
  }

  ghost predicate ForScalableTarget(a: Account, s: ServiceConfig, k: string, r: Resource) {
    && k == ScalableTargetName(s.name) && r.kind == "AWS::ApplicationAutoScaling::ScalableTarget" && r.dependsOn == [ServiceName(s.name)]
    && (forall x :: Among(r, "ResourceId", x) <==>
          || x == Lit("service")
          || x == GetAtt(ServiceName(s.name), "Name")
          || x == if a.cluster.Some? && a.cluster.value.Existing? then Lit(a.cluster.value.id) else Ref("Cluster"))
    && Only(r, "RoleARN", GetAtt(AutoScalingRoleName(s.name), "Arn"))
  }

  ghost predicate ForScalingPolicy(s: ServiceConfig, k: string, r: Resource) {
    && k == ScalingPolicyName(s.name) && Plain(r, "AWS::ApplicationAutoScaling::ScalingPolicy")
    && Only(r, "ScalingTargetId", Ref(ScalableTargetName(s.name)))
  }

  // ---------- a template ----------

  /** A resource `r` belongs under the name `k`, for something in the project or the account. */
  ghost predicate Specified(p: Project, a: Account, k: string, r: Resource) {
    || ForCluster(p, a, k, r) || ForBalancer(p, a, k, r) || ForLogGroup(p, k, r) || ForCloudMap(a, k, r) || ForMachines(p, a, k, r)
    || (exists n :: n in p.networks && ForNetwork(a, n, k, r))
    || (exists v :: v in p.volumes && ForVolume(p, a, v.name, k, r))
    || (exists s :: s in p.secrets && ForSecret(s, k, r))
    || (exists s :: s in p.services && ForService(p, a, s, k, r))
  }

  /** The template has a resource for everything that belongs there, as specified, and no other. */
  ghost predicate AsSpecified(p: Project, a: Account, t: Template) {
    && (forall k :: k in t ==> Specified(p, a, k, t[k]))
    && (forall k, r :: Specified(p, a, k, r) ==> k in t)
  }
}
