/** The sizes and limits computed for a service on ECS: Fargate task sizes and rolling-update percentages. */
module EcsLimits {
  import opened Wrappers

  /** The NanoCPUs string, as `ParseCPUs` reads it. */
  datatype Cpus = NotSet | Unparsable | Nano(n: int)

  datatype GenericResource = GenericResource(kind: string, value: int)

  datatype Device = Device(capabilities: seq<string>, count: int)

  datatype Reservation = Reservation(memory: int, cpus: Cpus, generic: seq<GenericResource>, devices: seq<Device>)

  /** `minPercent` and `maxPercent` are the x-aws extensions. */
  datatype UpdateConfig = UpdateConfig(minPercent: Option<int>, maxPercent: Option<int>, parallelism: Option<nat>)

  /** `decodes` is false when the setting is not an object of these four numbers; they say nothing then. */
  datatype AutoScaling = AutoScaling(decodes: bool, memory: int, cpu: int, min: int, max: int)

  datatype Deploy = Deploy(
    limits: Option<Reservation>,
    reservations: Option<Reservation>,
    replicas: Option<nat>,
    update: Option<UpdateConfig>,
    autoscaling: Option<AutoScaling>)

  datatype Result<T> = Ok(value: T) | Err

  datatype Limits = Limits(memory: int, cpu: int)

  /** A task size; on EC2 either part may be left out. */
  datatype Size = Size(cpu: Option<int>, memory: Option<int>)

  const MIB := 1024 * 1024

  /** Go's integer division, which truncates. */
  function Quotient(a: int, b: int): int
    requires b > 0
  {
    if a >= 0 then a / b else -(-a / b)
  }

  /** `getConfiguredLimits`: reservations stand in for limits that are not set. */
  function ConfiguredLimits(deploy: Option<Deploy>): Result<Limits> {
    if deploy.None? then Ok(Limits(0, 0))
    else
      var chosen := if deploy.value.limits.Some? then deploy.value.limits else deploy.value.reservations;
      if chosen.None? then Ok(Limits(0, 0))
      else match chosen.value.cpus
        case NotSet => Ok(Limits(chosen.value.memory, 0))
        case Unparsable => Err
        case Nano(n) => Ok(Limits(chosen.value.memory, Quotient(n, 1000000)))
  }

  /** The first generic resource of kind gpus. */
  function FirstGpus(generic: seq<GenericResource>): Option<int> {
    if generic == [] then None
    else if generic[0].kind == "gpus" then Some(generic[0].value)
    else FirstGpus(generic[1..])
  }

  /** The first device whose only capability is gpu. */
  function FirstGpuDevice(devices: seq<Device>): Option<int> {
    if devices == [] then None
    else if devices[0].capabilities == ["gpu"] then Some(devices[0].count)
    else FirstGpuDevice(devices[1..])
  }

  function GpuRequirements(deploy: Option<Deploy>): int {
    if deploy.None? || deploy.value.reservations.None? then 0
    else
      var r := deploy.value.reservations.value;
      match FirstGpus(r.generic)
      case Some(n) => n
      case None => match FirstGpuDevice(r.devices) case Some(n) => n case None => 0
  }

  predicate RequireEC2(deploy: Option<Deploy>) {
    GpuRequirements(deploy) > 0
  }

  // ---------- what these mean ----------

  /** The settings that count: the limits if there are any, else the reservations, if there are any. */
  predicate Counts(deploy: Option<Deploy>, r: Reservation) {
    && deploy.Some?
    && (deploy.value.limits == Some(r) || (deploy.value.limits == None && deploy.value.reservations == Some(r)))
  }

  predicate NothingSet(deploy: Option<Deploy>) {
    deploy.Some? ==> deploy.value.limits == None && deploy.value.reservations == None
  }

  /** A thousand units for a processor, that is for a billion nanoprocessors; a rest is dropped. */
  predicate InUnits(nano: int, cpu: int) {
    if nano >= 0 then cpu * 1000000 <= nano < (cpu + 1) * 1000000 else (cpu - 1) * 1000000 < nano <= cpu * 1000000
  }

  /** What is asked for: nothing at all, or a memory and a cpu limit if one is set. */
  ghost predicate Asked(deploy: Option<Deploy>, want: Limits) {
    || (NothingSet(deploy) && want == Limits(0, 0))
    || exists r :: Counts(deploy, r) && want.memory == r.memory
         && ((r.cpus == NotSet && want.cpu == 0) || (r.cpus.Nano? && InUnits(r.cpus.n, want.cpu)))
  }

  ghost predicate Unreadable(deploy: Option<Deploy>) {
    exists r :: Counts(deploy, r) && r.cpus == Unparsable
  }

  lemma UnitsAreUnique(nano: int, a: int, b: int)
    requires InUnits(nano, a) && InUnits(nano, b)
    ensures a == b
  {
  }

  lemma QuotientIsUnits(n: int)
    ensures InUnits(n, Quotient(n, 1000000))
  {
  }

  lemma LimitsAreAsked(deploy: Option<Deploy>)
    ensures ConfiguredLimits(deploy).Err? <==> Unreadable(deploy)
    ensures ConfiguredLimits(deploy).Ok? ==> forall want :: Asked(deploy, want) <==> want == ConfiguredLimits(deploy).value
  {
    hide Quotient;
    hide InUnits;
    if deploy.Some? && !NothingSet(deploy) {
      var r := if deploy.value.limits.Some? then deploy.value.limits.value else deploy.value.reservations.value;
      assert Counts(deploy, r) && forall q :: Counts(deploy, q) ==> q == r;
      if r.cpus.Nano? {
        QuotientIsUnits(r.cpus.n);
        forall cpu | InUnits(r.cpus.n, cpu)
          ensures cpu == Quotient(r.cpus.n, 1000000)
        {
          UnitsAreUnique(r.cpus.n, cpu, Quotient(r.cpus.n, 1000000));
        }
      }
    }
  }

  /** The first resource of kind gpus is at `i`. */
  predicate FirstGpusAt(generic: seq<GenericResource>, i: nat) {
    i < |generic| && generic[i].kind == "gpus" && forall j :: 0 <= j < i ==> generic[j].kind != "gpus"
  }

  predicate FirstGpuDeviceAt(devices: seq<Device>, i: nat) {
    i < |devices| && devices[i].capabilities == ["gpu"] && forall j :: 0 <= j < i ==> devices[j].capabilities != ["gpu"]
  }

  /** A positive number of gpus is reserved, as a generic resource or, if there is none of that kind, as a device. */
  ghost predicate NeedsGpu(deploy: Option<Deploy>) {
    deploy.Some? && deploy.value.reservations.Some? &&
    var r := deploy.value.reservations.value;
    || (exists i: nat :: FirstGpusAt(r.generic, i) && r.generic[i].value > 0)
    || ((forall i :: 0 <= i < |r.generic| ==> r.generic[i].kind != "gpus")
        && exists i: nat :: FirstGpuDeviceAt(r.devices, i) && r.devices[i].count > 0)
  }

  lemma {:induction false} GpusFound(generic: seq<GenericResource>)
    ensures FirstGpus(generic).None? <==> forall i :: 0 <= i < |generic| ==> generic[i].kind != "gpus"
    ensures forall i: nat :: FirstGpusAt(generic, i) ==> FirstGpus(generic) == Some(generic[i].value)
    ensures FirstGpus(generic).Some? ==> exists i: nat :: FirstGpusAt(generic, i)
  {
    if generic != [] {
      GpusFound(generic[1..]);
      forall i: nat | FirstGpusAt(generic, i)
        ensures FirstGpus(generic) == Some(generic[i].value)
      {
        if i > 0 {
          assert FirstGpusAt(generic[1..], i - 1);
        }
      }
      if generic[0].kind == "gpus" {
        assert FirstGpusAt(generic, 0);
      } else if FirstGpus(generic).Some? {
        var i: nat :| FirstGpusAt(generic[1..], i);
        assert FirstGpusAt(generic, i + 1);
      }
    }
  }

  lemma {:induction false} GpuDevicesFound(devices: seq<Device>)
    ensures FirstGpuDevice(devices).Some? ==> exists i: nat :: FirstGpuDeviceAt(devices, i)
    ensures forall i: nat :: FirstGpuDeviceAt(devices, i) ==> FirstGpuDevice(devices) == Some(devices[i].count)
  {
    if devices != [] {
      GpuDevicesFound(devices[1..]);
      forall i: nat | FirstGpuDeviceAt(devices, i)
        ensures FirstGpuDevice(devices) == Some(devices[i].count)
      {
        if i > 0 {
          assert FirstGpuDeviceAt(devices[1..], i - 1);
        }
      }
      if devices[0].capabilities == ["gpu"] {
        assert FirstGpuDeviceAt(devices, 0);
      } else if FirstGpuDevice(devices).Some? {
        var i: nat :| FirstGpuDeviceAt(devices[1..], i);
        assert FirstGpuDeviceAt(devices, i + 1);
      }
    }
  }

  lemma EC2IffGpu(deploy: Option<Deploy>)
    ensures RequireEC2(deploy) <==> NeedsGpu(deploy)
  {
    if deploy.Some? && deploy.value.reservations.Some? {
      GpusFound(deploy.value.reservations.value.generic);
      GpuDevicesFound(deploy.value.reservations.value.devices);
    }
  }

  // ---------- Fargate ----------

  const FARGATE_CPUS := [256, 512, 1024, 2048, 4096]

  /** The memory sizes, in MiB, that Fargate offers for a cpu size. */
  function Options(cpu: int): seq<int> {
    if cpu == 256 then [512, 1024, 2048]
    else if cpu == 512 then [1024, 2048, 3072, 4096]
    else if cpu == 1024 then [2048, 3072, 4096, 5120, 6144, 7168, 8192]
    else if cpu == 2048 then [4096, 5120, 6144, 7168, 8192, 9216, 10240, 11264, 12288, 13312, 14336, 15360, 16384]
    else if cpu == 4096 then [8192, 9216, 10240, 11264, 12288, 13312, 14336, 15360, 16384, 17408, 18432, 19456, 20480,
                              21504, 22528, 23552, 24576, 25600, 26624, 27648, 28672, 29696, 30720]
    else []
  }

  /** A size Fargate offers. */
  predicate Offered(cpu: int, memory: int) {
    memory in Options(cpu)
  }

  predicate Covers(cpu: int, memory: int, want: Limits) {
    want.cpu <= cpu && want.memory <= memory * MIB
  }

  /** A smaller size comes first: less cpu, or as much cpu and less memory. */
  predicate NoLarger(cpu: int, memory: int, cpu': int, memory': int) {
    cpu < cpu' || (cpu == cpu' && memory <= memory')
  }

  /** The least offered size that covers what is wanted. */
  ghost predicate LeastCovering(want: Limits, cpu: int, memory: int) {
    && Offered(cpu, memory) && Covers(cpu, memory, want)
    && forall c, m :: Offered(c, m) && Covers(c, m, want) ==> NoLarger(cpu, memory, c, m)
  }

  /** Between its ends every row holds the multiples of 1024, and the first row starts with 512. */
  predicate InRow(cpu: int, memory: int) {
    (cpu == 256 && memory == 512)
    || (memory % 1024 == 0 && Low(cpu) <= memory <= High(cpu) && !(cpu == 256 && memory == 0))
  }

  function Low(cpu: int): int {
    if cpu == 256 then 1024 else if cpu == 512 then 1024 else if cpu == 1024 then 2048
    else if cpu == 2048 then 4096 else if cpu == 4096 then 8192 else 1
  }

  function High(cpu: int): int {
    if cpu == 256 then 2048 else if cpu == 512 then 4096 else if cpu == 1024 then 8192
    else if cpu == 2048 then 16384 else if cpu == 4096 then 30720 else 0
  }

  lemma RowAt(cpu: int, i: nat)
    requires i < |Options(cpu)|
    ensures cpu != 256 ==> Options(cpu)[i] == Low(cpu) + 1024 * i
    ensures cpu == 256 ==> Options(cpu)[i] == if i == 0 then 512 else 1024 * i
  {
  }

  lemma RowIsRegular(cpu: int)
    requires cpu in FARGATE_CPUS
    ensures |Options(cpu)| == if cpu == 256 then 3 else (High(cpu) - Low(cpu)) / 1024 + 1
    ensures Regular(Options(cpu), cpu == 256, Low(cpu))
  {
    forall i | 0 <= i < |Options(cpu)|
      ensures Options(cpu)[i] == if cpu != 256 then Low(cpu) + 1024 * i else if i == 0 then 512 else 1024 * i
    {
      RowAt(cpu, i);
    }
  }

  predicate Regular(row: seq<int>, first: bool, low: int) {
    forall i :: 0 <= i < |row| ==> row[i] == if !first then low + 1024 * i else if i == 0 then 512 else 1024 * i
  }

  lemma RegularMembers(row: seq<int>, first: bool, low: int, memory: int)
    requires Regular(row, first, low) && low % 1024 == 0
    ensures memory in row <==>
              if first then (|row| > 0 && memory == 512) || (memory % 1024 == 0 && 1 <= memory / 1024 < |row|)
              else memory % 1024 == 0 && 0 <= (memory - low) / 1024 < |row|
  {
    var i := if first then (if memory == 512 then 0 else memory / 1024) else (memory - low) / 1024;
    assert 0 <= i < |row| && row[i] == memory ==> memory in row;
  }

  lemma OptionsAreRows(cpu: int, memory: int)
    ensures Offered(cpu, memory) <==> InRow(cpu, memory)
    ensures Offered(cpu, memory) ==> cpu in FARGATE_CPUS
  {
    if cpu in FARGATE_CPUS {
      RowIsRegular(cpu);
      RegularMembers(Options(cpu), cpu == 256, Low(cpu), memory);
      LowIsMultiple(cpu);
    }
  }

  lemma LowIsMultiple(cpu: int)
    requires cpu in FARGATE_CPUS
    ensures Low(cpu) % 1024 == 0
  {
  }

  lemma RowsAscend(cpu: int, i: nat, k: nat)
    requires i < k < |Options(cpu)|
    ensures Options(cpu)[i] < Options(cpu)[k]
  {
    RowAt(cpu, i);
    RowAt(cpu, k);
  }

  ghost predicate NoneCovers(cpu: int, want: Limits) {
    forall m :: Offered(cpu, m) ==> !Covers(cpu, m, want)
  }

  /** The inner loop: the first option with enough memory. */
  method FirstFitting(options: seq<int>, memory: int) returns (k: Option<nat>)
    ensures k.Some? ==> k.value < |options| && memory <= options[k.value] * MIB
    ensures k.Some? ==> forall n :: 0 <= n < k.value ==> memory > options[n] * MIB
    ensures k.None? ==> forall n :: 0 <= n < |options| ==> memory > options[n] * MIB
  {
    for i := 0 to |options|
      invariant forall n :: 0 <= n < i ==> memory > options[n] * MIB
    {
      if memory <= options[i] * MIB {
        return Some(i);
      }
    }
    k := None;
  }

  /**
   * `toLimits`. Where gpus are needed what is asked for is passed on, in units and mebibytes; otherwise the result
   * is the least size Fargate offers that covers it. There is an error iff the cpu setting does not parse or no
   * offered size covers what is asked for.
   */
  method ToLimits(deploy: Option<Deploy>) returns (r: Result<Size>)
    ensures Unreadable(deploy) ==> r.Err?
    ensures !Unreadable(deploy) ==> exists want :: Asked(deploy, want)
    ensures forall want :: Asked(deploy, want) && NeedsGpu(deploy) ==>
              r == Ok(Size(if want.cpu > 0 then Some(want.cpu) else None,
                           if want.memory > 0 then Some(want.memory / 1048576) else None))
    ensures forall want :: Asked(deploy, want) && !NeedsGpu(deploy) ==>
              && (r.Ok? ==> r.value.cpu.Some? && r.value.memory.Some? && LeastCovering(want, r.value.cpu.value, r.value.memory.value))
              && (r.Err? <==> forall c, m :: Offered(c, m) ==> !Covers(c, m, want))
  {
    LimitsAreAsked(deploy);
    EC2IffGpu(deploy);
    var configured := ConfiguredLimits(deploy);
    if configured.Err? {
      return Err;
    }
    var want := configured.value;
    assert Asked(deploy, want);
    if RequireEC2(deploy) {
      return Ok(Size(if want.cpu > 0 then Some(want.cpu) else None,
                     if want.memory > 0 then Some(want.memory / MIB) else None));
    }
    if want.memory == 0 && want.cpu == 0 {
      SmallestSize();
      return Ok(Size(Some(256), Some(512)));
    }
    for i := 0 to |FARGATE_CPUS|
      invariant forall j :: 0 <= j < i ==> NoneCovers(FARGATE_CPUS[j], want)
    {
      var cpu := FARGATE_CPUS[i];
      if want.cpu <= cpu {
        var k := FirstFitting(Options(cpu), want.memory);
        if k.Some? {
          FirstIsLeast(want, i, k.value);
          return Ok(Size(Some(cpu), Some(Options(cpu)[k.value])));
        }
      }
    }
    NoRowCovers(want);
    r := Err;
  }

  lemma NoRowCovers(want: Limits)
    requires forall j :: 0 <= j < |FARGATE_CPUS| ==> NoneCovers(FARGATE_CPUS[j], want)
    ensures forall c, m :: Offered(c, m) ==> !Covers(c, m, want)
  {
    forall c, m | Offered(c, m)
      ensures !Covers(c, m, want)
    {
      OptionsAreRows(c, m);
      var j :| 0 <= j < |FARGATE_CPUS| && FARGATE_CPUS[j] == c;
      assert NoneCovers(FARGATE_CPUS[j], want);
    }
  }

  lemma SmallestSize()
    ensures LeastCovering(Limits(0, 0), 256, 512)
    ensures Offered(256, 512) && Covers(256, 512, Limits(0, 0))
  {
    assert 512 == Options(256)[0];
    forall c, m | Offered(c, m)
      ensures NoLarger(256, 512, c, m)
    {
      OptionsAreRows(c, m);
    }
  }

  /** The first size found row by row is the least one. */
  lemma FirstIsLeast(want: Limits, i: nat, k: nat)
    requires i < |FARGATE_CPUS| && k < |Options(FARGATE_CPUS[i])|
    requires Covers(FARGATE_CPUS[i], Options(FARGATE_CPUS[i])[k], want)
    requires forall j :: 0 <= j < i ==> NoneCovers(FARGATE_CPUS[j], want)
    requires forall n :: 0 <= n < k ==> !Covers(FARGATE_CPUS[i], Options(FARGATE_CPUS[i])[n], want)
    ensures LeastCovering(want, FARGATE_CPUS[i], Options(FARGATE_CPUS[i])[k])
  {
    var cpu := FARGATE_CPUS[i];
    forall c, m | Offered(c, m) && Covers(c, m, want)
      ensures NoLarger(cpu, Options(cpu)[k], c, m)
    {
      OptionsAreRows(c, m);
      var j :| 0 <= j < |FARGATE_CPUS| && FARGATE_CPUS[j] == c;
      assert i <= j;
      if j == i {
        var n :| 0 <= n < |Options(cpu)| && Options(cpu)[n] == m;
        assert k <= n;
        if k < n {
          RowsAscend(cpu, k, n);
        }
      }
    }
  }

  /** Whoever wants more of either gets no less of both. */
  lemma LargerRequestsGetLargerSizes(want: Limits, more: Limits, c: int, m: int, c': int, m': int)
    requires want.cpu <= more.cpu && want.memory <= more.memory
    requires LeastCovering(want, c, m) && LeastCovering(more, c', m')
    ensures c <= c' && m <= m'
  {
    assert Covers(c', m', want);
    OptionsAreRows(c, m);
    OptionsAreRows(c', m');
    if m' < m {
      // row c would offer m' too
      OptionsAreRows(c, m');
    }
  }

  // ---------- rolling updates ----------

  /** `computeRollingUpdateLimits`: the minimum healthy and the maximum percentage. */
  function RollingUpdateLimits(deploy: Option<Deploy>): Result<(int, int)>
    requires !DividesByZero(deploy)
  {
    if deploy.None? || deploy.value.update.None? then Ok((100, 200))
    else
      var update := deploy.value.update.value;
      var minPercent := if update.minPercent.Some? then update.minPercent.value else 100;
      var maxPercent := if update.maxPercent.Some? then update.maxPercent.value else 200;
      if (update.minPercent.Some? && update.maxPercent.Some?) || update.parallelism.None? then Ok((minPercent, maxPercent))
      else if deploy.value.replicas.None? then Err
      else
        var replicas, parallelism := deploy.value.replicas.value, update.parallelism.value;
        if replicas < parallelism then Err
        else
          Ok((if update.minPercent.Some? then minPercent else (replicas - parallelism) * 100 / replicas,
              if update.maxPercent.Some? then maxPercent else (replicas + parallelism) * 100 / replicas))
  }

  /** No replicas and no parallelism leave nothing to divide by. */
  predicate DividesByZero(deploy: Option<Deploy>) {
    && deploy.Some? && deploy.value.replicas == Some(0) && deploy.value.update.Some?
    && deploy.value.update.value.parallelism == Some(0)
    && !(deploy.value.update.value.minPercent.Some? && deploy.value.update.value.maxPercent.Some?)
  }

  /** A parallelism needs at least as many replicas, unless both percentages are given. */
  predicate RollingUpdateFails(deploy: Option<Deploy>) {
    && deploy.Some? && deploy.value.update.Some?
    && var update := deploy.value.update.value;
    && (update.minPercent.None? || update.maxPercent.None?) && update.parallelism.Some?
    && (deploy.value.replicas.None? || deploy.value.replicas.value < update.parallelism.value)
  }

  lemma RollingUpdateErrors(deploy: Option<Deploy>)
    requires !DividesByZero(deploy)
    ensures RollingUpdateLimits(deploy).Err? <==> RollingUpdateFails(deploy)
  {
  }

  /**
   * A percentage that is given is taken as it is. Without a parallelism the others are 100 and 200; with one they
   * are the parts of the replicas that remain, or are there, while that many are replaced, rounded down.
   */
  lemma RollingLimitsMean(deploy: Option<Deploy>)
    requires !DividesByZero(deploy) && RollingUpdateLimits(deploy).Ok?
    ensures var (lo, hi) := RollingUpdateLimits(deploy).value;
      if deploy.None? || deploy.value.update == None then lo == 100 && hi == 200
      else
        var update, replicas := deploy.value.update.value, deploy.value.replicas;
        && (update.minPercent.Some? ==> lo == update.minPercent.value)
        && (update.maxPercent.Some? ==> hi == update.maxPercent.value)
        && (update.parallelism == None && update.minPercent == None ==> lo == 100)
        && (update.parallelism == None && update.maxPercent == None ==> hi == 200)
        && (update.parallelism.Some? && update.minPercent == None ==>
              replicas.Some? && IsPercent(lo, replicas.value - update.parallelism.value, replicas.value))
        && (update.parallelism.Some? && update.maxPercent == None ==>
              replicas.Some? && IsPercent(hi, replicas.value + update.parallelism.value, replicas.value))
  {
    if deploy.Some? && deploy.value.update.Some? && deploy.value.update.value.parallelism.Some? && deploy.value.replicas.Some? {
      var r, p := deploy.value.replicas.value, deploy.value.update.value.parallelism.value;
      if 0 < r && p <= r {
        DividesInto((r - p) * 100, r);
        DividesInto((r + p) * 100, r);
      }
    }
  }

  /** `percent` per cent of `whole` is as much of `part` as a whole number of them allows. */
  predicate IsPercent(percent: int, part: int, whole: int) {
    percent * whole <= part * 100 < (percent + 1) * whole
  }

  /** The replicas a percentage amounts to, rounded up for the minimum and down for the maximum, as ECS does. */
  function AtLeast(percent: int, replicas: nat): int {
    (percent * replicas + 99) / 100
  }

  function AtMost(percent: int, replicas: nat): int {
    percent * replicas / 100
  }

  lemma DividesInto(x: int, d: int)
    requires d > 0
    ensures d * (x / d) <= x < d * (x / d) + d
  {
  }

  /**
   * With a parallelism and no explicit percentages an update may take down or add at most that many replicas
   * at a time; the two percentages lie around 100 and differ from it equally, up to rounding.
   */
  lemma RollingLimitsRespectParallelism(deploy: Option<Deploy>)
    requires !DividesByZero(deploy) && deploy.Some? && deploy.value.update.Some? && deploy.value.replicas.Some?
    requires deploy.value.update.value.minPercent.None? && deploy.value.update.value.maxPercent.None?
    requires deploy.value.update.value.parallelism.Some?
    ensures var r, p := deploy.value.replicas.value, deploy.value.update.value.parallelism.value;
      var result := RollingUpdateLimits(deploy);
      && (result.Err? <==> r < p)
      && (result.Ok? ==>
            var (lo, hi) := result.value;
            && 0 <= lo <= 100 <= hi <= 200
            && 199 <= lo + hi <= 200
            && AtLeast(lo, r) <= r - p
            && AtMost(hi, r) <= r + p)
  {
    var r, p := deploy.value.replicas.value, deploy.value.update.value.parallelism.value;
    if p <= r {
      PercentBounds(r, p);
    }
  }

  lemma PercentBounds(r: nat, p: nat)
    requires 0 < r && p <= r
    ensures var lo, hi := (r - p) * 100 / r, (r + p) * 100 / r;
      && 0 <= lo <= 100 <= hi <= 200
      && 199 <= lo + hi <= 200
      && AtLeast(lo, r) <= r - p
      && AtMost(hi, r) <= r + p
  {
    var down, up := (r - p) * 100, (r + p) * 100;
    DividesInto(down, r);
    DividesInto(up, r);
    Quotients(r, p, down / r, up / r);
  }

  /** What division leaves of the two percentages. */
  lemma Quotients(r: nat, p: nat, lo: int, hi: int)
    requires 0 < r && p <= r
    requires r * lo <= (r - p) * 100 < r * lo + r && r * hi <= (r + p) * 100 < r * hi + r
    ensures 0 <= lo <= 100 <= hi <= 200 && 199 <= lo + hi <= 200
    ensures AtLeast(lo, r) <= r - p && AtMost(hi, r) <= r + p
  {
    LowerQuotient(r, p, lo);
    UpperQuotient(r, p, hi);
    var sum := lo + hi;
    assert r * sum == r * lo + r * hi;
    SumQuotient(r, p, r * lo, r * hi, sum);
    assert lo * r == r * lo && hi * r == r * hi;
  }

  lemma LowerQuotient(r: nat, p: nat, lo: int)
    requires 0 < r && p <= r && r * lo <= (r - p) * 100 < r * lo + r
    ensures 0 <= lo <= 100
  {
    assert r * (lo + 1) == r * lo + r;
    Cancel(r, 0, lo + 1);
    Cancel(r, lo, 101);
  }

  lemma UpperQuotient(r: nat, p: nat, hi: int)
    requires 0 < r && p <= r && r * hi <= (r + p) * 100 < r * hi + r
    ensures 100 <= hi <= 200
  {
    assert r * (hi + 1) == r * hi + r;
    Cancel(r, 100, hi + 1);
    Cancel(r, hi, 201);
  }

  lemma SumQuotient(r: nat, p: nat, down: int, up: int, sum: int)
    requires 0 < r && p <= r && r * sum == down + up
    requires down <= (r - p) * 100 < down + r && up <= (r + p) * 100 < up + r
    ensures 199 <= sum <= 200
  {
    Cancel(r, 198, sum);
    Cancel(r, sum, 201);
  }

  lemma Cancel(r: int, a: int, b: int)
    requires r > 0 && r * a < r * b
    ensures a < b
  {
    assert b <= a ==> r * b <= r * a;
  }
}
