/** Logical names of the resources in a CloudFormation template. */
module EcsNames {
  import opened Numerals
  import opened Sequences

  predicate Alphanumeric(c: char) {
    'a' <= c <= 'z' || 'A' <= c <= 'Z' || '0' <= c <= '9'
  }

  function UpperChar(c: char): char {
    if 'a' <= c <= 'z' then (c as int - 32) as char else c
  }

  function Strip(s: string): (r: string)
    ensures forall i :: 0 <= i < |r| ==> Alphanumeric(r[i])
  {
    if s == "" then ""
    else
      var rest := Strip(s[..|s| - 1]);
      if Alphanumeric(s[|s| - 1]) then rest + [s[|s| - 1]] else rest
  }

  /** `strings.Title` on a single word. */
  function Title(s: string): string {
    if s == "" then "" else [UpperChar(s[0])] + s[1..]
  }

  /** `normalizeResourceName`. */
  function Normalize(s: string): string {
    Title(Strip(s))
  }

  function Upper(s: string): string {
    seq(|s|, i requires 0 <= i < |s| => UpperChar(s[i]))
  }

  predicate Normal(s: string) {
    && (forall i :: 0 <= i < |s| ==> Alphanumeric(s[i]))
    && (s != "" ==> UpperChar(s[0]) == s[0])
  }

  /** What is stripped of a name is everything that is not alphanumeric, and nothing else. */
  lemma {:induction false} StripPicks(s: string) returns (at: seq<nat>)
    ensures PickedAt(Strip(s), s, at)
    ensures forall i: nat :: i in at <==> i < |s| && Alphanumeric(s[i])
  {
    if s == "" {
      at := [];
    } else {
      var n := |s| - 1;
      at := StripPicks(s[..n]);
      OneMorePicked(Strip(s[..n]), s, at, n);
      if Alphanumeric(s[n]) {
        at := at + [n];
      }
    }
  }

  lemma NormalizeIsNormal(s: string)
    ensures Normal(Normalize(s))
  {
  }

  lemma {:induction false} StripKeeps(s: string)
    requires forall i :: 0 <= i < |s| ==> Alphanumeric(s[i])
    ensures Strip(s) == s
  {
    if s != "" {
      StripKeeps(s[..|s| - 1]);
    }
  }

  /** Normalising a normal name changes nothing. */
  lemma NormalizeKeeps(s: string)
    requires Normal(s)
    ensures Normalize(s) == s
  {
    StripKeeps(s);
  }

  /** The reference to a task definition is normalised a second time; it still names the resource. */
  lemma NormalizedTwice(name: string)
    ensures Normalize(Normalize(name) + "TaskDefinition") == Normalize(name) + "TaskDefinition"
  {
    NormalizeIsNormal(name);
    NormalizeKeeps(Normalize(name) + "TaskDefinition");
  }

  function NetworkName(network: string): string { Normalize(network) + "Network" }
  function ServiceName(service: string): string { Normalize(service) + "Service" }
  function VolumeName(volume: string): string { Normalize(volume) + "Filesystem" }
  function AccessPointName(volume: string): string { Normalize(volume) + "AccessPoint" }
  function MountTargetName(volume: string, subnet: string): string { Normalize(volume) + "NFSMountTargetOn" + Normalize(subnet) }
  function SecretName(secret: string): string { Normalize(secret) + "Secret" }
  function ExecutionRoleName(service: string): string { Normalize(service) + "TaskExecutionRole" }
  function TaskRoleName(service: string): string { Normalize(service) + "TaskRole" }
  function TaskDefinitionName(service: string): string { Normalize(service) + "TaskDefinition" }
  function DiscoveryName(service: string): string { Normalize(service) + "ServiceDiscoveryEntry" }
  function IngressName(network: string, target: nat): string { Normalize(network) + Itoa(target) + "Ingress" }
  function TargetGroupName(service: string, protocol: string, published: nat): string {
    Normalize(service) + Upper(protocol) + Itoa(published) + "TargetGroup"
  }
  function ListenerName(service: string, protocol: string, target: nat): string {
    Normalize(service) + Upper(protocol) + Itoa(target) + "Listener"
  }
  function AutoScalingRoleName(service: string): string { Normalize(service) + "AutoScalingRole" }
  function ScalableTargetName(service: string): string { Normalize(service) + "ScalableTarget" }
  function ScalingPolicyName(service: string): string { Normalize(service) + "ScalingPolicy" }

  lemma NumbersTellApart(start: string, m: nat, n: nat, end: string)
    requires start + Itoa(m) + end == start + Itoa(n) + end
    ensures m == n
  {
    var a, b := start + Itoa(m) + end, start + Itoa(n) + end;
    assert a[|start|..|a| - |end|] == Itoa(m) && b[|start|..|b| - |end|] == Itoa(n);
    NumberReads(m);
    NumberReads(n);
  }

  /** Different ports of a service have different listeners, target groups and ways into a network. */
  lemma PortsTellApart(x: string, protocol: string, m: nat, n: nat)
    requires m != n
    ensures IngressName(x, m) != IngressName(x, n) && TargetGroupName(x, protocol, m) != TargetGroupName(x, protocol, n)
    ensures ListenerName(x, protocol, m) != ListenerName(x, protocol, n)
  {
    if IngressName(x, m) == IngressName(x, n) {
      NumbersTellApart(Normalize(x), m, n, "Ingress");
    }
    if TargetGroupName(x, protocol, m) == TargetGroupName(x, protocol, n) {
      NumbersTellApart(Normalize(x) + Upper(protocol), m, n, "TargetGroup");
    }
    if ListenerName(x, protocol, m) == ListenerName(x, protocol, n) {
      NumbersTellApart(Normalize(x) + Upper(protocol), m, n, "Listener");
    }
  }

  // ---------- telling kinds of names apart by their ends ----------

  /** The `i`-th character from the end. */
  function FromEnd(name: string, i: nat): char
    requires i > 0
  {
    if i <= |name| then name[|name| - i] else ' '
  }

  predicate HexDigit(c: char) {
    '0' <= c <= '9' || 'a' <= c <= 'f'
  }

  predicate OnSubnet(name: string) {
    |name| >= 3 && HexDigit(name[|name| - 1]) && HexDigit(name[|name| - 2]) && HexDigit(name[|name| - 3])
  }

  /** The ids AWS gives subnets end in hexadecimal digits. */
  predicate SubnetId(id: string) {
    OnSubnet(Normalize(id))
  }

  /**
   * Where a resource stands: it refers only to resources of lower levels, except that services, at level 6,
   * refer to one another.
   */
  function Level(name: string): nat {
    if OnSubnet(name) then 1
    else match FromEnd(name, 1)
      case 'e' =>
        if FromEnd(name, 2) == 'c' then 6                       // Service
        else if FromEnd(name, 3) == 'i' then 1                  // Profile
        else if FromEnd(name, 5) == 'g' then 7                  // AutoScalingRole
        else if FromEnd(name, 5) == 'k' then 2                  // TaskRole
        else if FromEnd(name, 5) == 'n' then 1                  // TaskExecutionRole
        else 0                                                  // EC2InstanceRole
      case 't' =>
        if FromEnd(name, 2) == 'n' then 1                       // AccessPoint
        else if FromEnd(name, 3) == 'g' then 8                  // ScalableTarget
        else 0                                                  // Secret
      case 'y' => if FromEnd(name, 2) == 'c' then 9 else 1      // ScalingPolicy, ServiceDiscoveryEntry
      case 'r' =>
        if FromEnd(name, 3) == 't' then 5                       // Cluster
        else if FromEnd(name, 3) == 'd' then 4                  // CapacityProvider
        else if FromEnd(name, 3) == 'n' then 2                  // Listener
        else 1                                                  // LoadBalancer
      case 'n' => if FromEnd(name, 5) == 'i' then 3 else 2      // TaskDefinition, LaunchConfiguration
      case 's' => 1                                             // Ingress
      case 'p' => if FromEnd(name, 7) == 'n' then 3 else 0      // AutoscalingGroup, TargetGroup, LogGroup, CloudMap
      case _ => 0                                               // Network, Filesystem
  }

  lemma NotOnSubnet(a: string, b: string)
    requires |b| >= 3
    ensures OnSubnet(a + b) <==> OnSubnet(b)
  {
  }

  lemma LevelOf(a: string, b: string)
    requires |b| >= 6 && (b[|b| - 1] == 'p' ==> |b| >= 7)
    ensures Level(a + b) == Level(b)
  {
    NotOnSubnet(a, b);
    assert forall i :: 0 < i <= |b| ==> FromEnd(a + b, i) == FromEnd(b, i);
  }

  lemma MountTargetLevel(volume: string, subnet: string)
    requires SubnetId(subnet)
    ensures Level(MountTargetName(volume, subnet)) == 1
  {
    NotOnSubnet(Normalize(volume) + "NFSMountTargetOn", Normalize(subnet));
  }

  lemma ResourceLevels(x: string)
    ensures Level(NetworkName(x)) == 0 && Level(VolumeName(x)) == 0 && Level(SecretName(x)) == 0
    ensures Level(AccessPointName(x)) == 1 && Level(NetworkName(x) + "Ingress") == 1
    ensures Level(ExecutionRoleName(x)) == 1 && Level(DiscoveryName(x)) == 1
    ensures Level(TaskRoleName(x)) == 2 && Level(TaskDefinitionName(x)) == 3 && Level(ServiceName(x)) == 6
  {
    LevelOf(Normalize(x), "Network");
    LevelOf(Normalize(x), "Filesystem");
    LevelOf(Normalize(x), "Secret");
    LevelOf(Normalize(x), "AccessPoint");
    LevelOf(NetworkName(x), "Ingress");
    LevelOf(Normalize(x), "TaskExecutionRole");
    LevelOf(Normalize(x), "ServiceDiscoveryEntry");
    LevelOf(Normalize(x), "TaskRole");
    LevelOf(Normalize(x), "TaskDefinition");
    LevelOf(Normalize(x), "Service");
  }

  lemma ScalingLevels(x: string)
    ensures Level(AutoScalingRoleName(x)) == 7 && Level(ScalableTargetName(x)) == 8 && Level(ScalingPolicyName(x)) == 9
  {
    LevelOf(Normalize(x), "AutoScalingRole");
    LevelOf(Normalize(x), "ScalableTarget");
    LevelOf(Normalize(x), "ScalingPolicy");
  }

  lemma PortLevels(x: string, protocol: string, port: nat)
    ensures Level(TargetGroupName(x, protocol, port)) == 0 && Level(ListenerName(x, protocol, port)) == 2
    ensures Level(IngressName(x, port)) == 1
  {
    LevelOf(Normalize(x) + Itoa(port), "Ingress");
    LevelOf(Normalize(x) + Upper(protocol) + Itoa(port), "TargetGroup");
    LevelOf(Normalize(x) + Upper(protocol) + Itoa(port), "Listener");
  }

  lemma ConstantLevels()
    ensures Level("Cluster") == 5 && Level("CapacityProvider") == 4 && Level("AutoscalingGroup") == 3
    ensures Level("LaunchConfiguration") == 2 && Level("EC2InstanceProfile") == 1 && Level("EC2InstanceRole") == 0
    ensures Level("LoadBalancer") == 1 && Level("LogGroup") == 0 && Level("CloudMap") == 0
  {
  }
}
