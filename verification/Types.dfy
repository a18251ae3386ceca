/**
 The wire and runtime entities of one node (`types.rs`, `docker.rs`): what is desired,
 and what runs.
 */
module Types {
  import opened Common
  import opened Text

  datatype Ingress = Ingress(domain: string, port: int, edge: string)

  datatype HealthCheck = HealthCheck(
    path: string, port: Option<int>, intervalMs: int, timeoutMs: int, healthyThreshold: int)

  datatype Rollout = Rollout(maxSurge: int, drainTimeout: string, stopGrace: string)

  datatype SecretRef = SecretRef(name: string, ssm: string)

  datatype VolumeDecl = VolumeDecl(name: string, path: string)

  datatype BackupConfig = BackupConfig(schedule: string, retentionDays: int, bucket: string, prefix: string)

  datatype JobRunRequest = JobRunRequest(id: string, requestedAt: string)

  /** One entry of an environment; an environment lists its entries in strictly increasing key order. */
  datatype EnvVar = EnvVar(name: string, value: string)

  datatype ServiceConfig = ServiceConfig(
    project: string, service: string, image: string, cpu: int, memory: int, replicas: int,
    env: seq<EnvVar>, secretRefs: seq<SecretRef>, restartAt: Option<string>,
    cron: Option<string>, ingress: Option<Ingress>, healthCheck: Option<HealthCheck>,
    rollout: Rollout, volumes: seq<VolumeDecl>, backup: Option<BackupConfig>,
    jobRun: Option<JobRunRequest>)

  /** A managed container as inspection reports it. Identifiers are opaque. */
  datatype ManagedReplica = ManagedReplica(
    id: nat, index: int, state: string, project: string, service: string, image: string,
    cpu: int, memory: int, hostPort: Option<int>, configStamp: string,
    cronFireMs: Option<int>, jobRunId: Option<string>)

  function KeyOf(c: ServiceConfig): string { ServiceKey(c.project, c.service) }

  function ReplicaKey(r: ManagedReplica): string { ServiceKey(r.project, r.service) }

  function NameOf(r: ManagedReplica): string { ContainerName(r.project, r.service, r.index) }

  predicate Running(r: ManagedReplica) { r.state == "running" }

  /** The configs name each service once. */
  ghost predicate UniqueKeys(services: seq<ServiceConfig>) {
    forall i, j :: 0 <= i < j < |services| ==> KeyOf(services[i]) != KeyOf(services[j])
  }

  /** Neither part of any service's key holds a separator. */
  ghost predicate WellNamed(services: seq<ServiceConfig>) {
    forall i :: 0 <= i < |services| ==> IsNamePart(services[i].project) && IsNamePart(services[i].service)
  }

  /** `"20s"`, `"500ms"`, `"1m"` in milliseconds; 0 when malformed. */
  function ParseDurationMs(duration: string): int {
    var digits := LeadingDigits(duration);
    var suffix := duration[|digits|..];
    if digits == "" || NumberValue(digits) > I64_MAX then 0
    else if suffix == "ms" then NumberValue(digits)
    else if suffix == "s" then WrapI64(NumberValue(digits) * 1000)
    else if suffix == "m" then WrapI64(NumberValue(digits) * 60_000)
    else 0
  }

  /** A unit of a duration, in milliseconds. */
  function UnitMs(unit: string): Option<int> {
    if unit == "ms" then Some(1) else if unit == "s" then Some(1000) else if unit == "m" then Some(60_000) else None
  }

  /** The text is a number of 64 bits and a unit, and its value in milliseconds still fits. */
  ghost predicate Measures(duration: string, number: string, unit: string) {
    && duration == number + unit && IsNumber(number) && UnitMs(unit).Some?
    && NumberValue(number) * UnitMs(unit).value <= I64_MAX
  }

  lemma {:induction false} LeadingDigitsAre(number: string, unit: string)
    requires (forall i :: 0 <= i < |number| ==> IsDigit(number[i])) && (unit == "" || !IsDigit(unit[0]))
    ensures LeadingDigits(number + unit) == number
    decreases |number|
  {
    var s := number + unit;
    if number == "" {
      assert s == unit;
    } else {
      LeadingDigitsAre(number[1..], unit);
      assert s[1..] == number[1..] + unit;
    }
  }

  /** A well-formed duration has the value it reads as. */
  lemma DurationReads(duration: string, number: string, unit: string)
    requires Measures(duration, number, unit)
    ensures ParseDurationMs(duration) == NumberValue(number) * UnitMs(unit).value
  {
    hide NumberValue, WrapI64;
    LeadingDigitsAre(number, unit);
    assert duration[|number|..] == unit;
  }

  /** Anything that is not a number and a unit counts as zero. */
  lemma OtherDurationsAreZero(duration: string)
    requires forall number, unit :: duration == number + unit && IsNumber(number) ==> UnitMs(unit).None?
    ensures ParseDurationMs(duration) == 0
  {
    var digits := LeadingDigits(duration);
    assert duration == digits + duration[|digits|..];
    if digits != "" { assert UnitMs(duration[|digits|..]).None?; }
  }

  function LeadingDigits(s: string): (r: string)
    ensures r <= s && forall i :: 0 <= i < |r| ==> IsDigit(r[i])
  {
    if s == "" || !IsDigit(s[0]) then "" else [s[0]] + LeadingDigits(s[1..])
  }
}
