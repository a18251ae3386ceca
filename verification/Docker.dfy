/**
 Labels stamped on a container when it is run and read back on inspection (`docker.rs`):
 the only memory the planner has of what a container was created from.
 */
module Docker {
  import opened Common
  import opened Text
  import opened Types
  import opened Stamp

  const PROJECT := "launchpad.project"
  const SERVICE := "launchpad.service"
  const IMAGE := "launchpad.image"
  const REPLICA := "launchpad.replica"
  const CPU := "launchpad.cpu"
  const MEMORY := "launchpad.memory"
  const CONFIG_STAMP := "launchpad.configStamp"
  const CRON_FIRE := "launchpad.cronFire"
  const JOB_RUN := "launchpad.jobRun"

  /** The container a run creates, as the next inspection reports it. */
  function NewReplica(c: ServiceConfig, id: nat, index: int, state: string, hostPort: Option<int>,
                      fireMs: Option<int>, jobRunId: Option<string>): ManagedReplica
  {
    ManagedReplica(id, index, state, c.project, c.service, c.image, c.cpu, c.memory, hostPort,
                   ServiceConfigStamp(c), fireMs, jobRunId)
  }

  /** The labels of `docker run`; a fire label takes precedence over a job label. */
  function RunLabels(c: ServiceConfig, index: int, fireMs: Option<int>, jobRunId: Option<string>): map<string, string> {
    var base := map[
      PROJECT := c.project, SERVICE := c.service, IMAGE := c.image,
      REPLICA := SignedDecimal(index), CPU := SignedDecimal(c.cpu), MEMORY := SignedDecimal(c.memory),
      CONFIG_STAMP := ServiceConfigStamp(c)];
    if fireMs.Some? then base[CRON_FIRE := SignedDecimal(fireMs.value)]
    else if jobRunId.Some? then base[JOB_RUN := jobRunId.value]
    else base
  }

  function LabelNumber(labels: map<string, string>, name: string): int {
    if name in labels && ParseSigned(labels[name]).Some? then ParseSigned(labels[name]).value else 0
  }

  function LabelText(labels: map<string, string>, name: string): string {
    if name in labels then labels[name] else ""
  }

  /** A zero or unreadable fire label counts as none. */
  function FireLabel(labels: map<string, string>): Option<int> {
    var n := LabelNumber(labels, CRON_FIRE);
    if n == 0 then None else Some(n)
  }

  function JobLabel(labels: map<string, string>): Option<string> {
    var id := LabelText(labels, JOB_RUN);
    if id == "" then None else Some(id)
  }

  /** One inspected container; those without both name labels are not managed. */
  function InspectReplica(id: nat, state: string, configImage: string, hostPort: Option<int>, labels: map<string, string>)
    : Option<ManagedReplica>
  {
    if LabelText(labels, PROJECT) == "" || LabelText(labels, SERVICE) == "" then None
    else Some(ManagedReplica(
      id, LabelNumber(labels, REPLICA), state, LabelText(labels, PROJECT), LabelText(labels, SERVICE),
      if IMAGE in labels then labels[IMAGE] else configImage,
      LabelNumber(labels, CPU), LabelNumber(labels, MEMORY), hostPort,
      LabelText(labels, CONFIG_STAMP), FireLabel(labels), JobLabel(labels)))
  }

  predicate FitsI64(n: int) { I64_MIN <= n <= I64_MAX }

  /** Inspecting a container reads back exactly what it was run with. */
  lemma LabelsRoundTrip(c: ServiceConfig, id: nat, index: int, state: string, configImage: string,
                        hostPort: Option<int>, fireMs: Option<int>, jobRunId: Option<string>)
    requires c.project != "" && c.service != ""
    requires FitsI64(index) && FitsI64(c.cpu) && FitsI64(c.memory)
    requires fireMs.Some? ==> FitsI64(fireMs.value) && fireMs.value != 0 && jobRunId.None?
    requires jobRunId.Some? ==> jobRunId.value != ""
    ensures InspectReplica(id, state, configImage, hostPort, RunLabels(c, index, fireMs, jobRunId))
         == Some(NewReplica(c, id, index, state, hostPort, fireMs, jobRunId))
  {
    hide SignedDecimal, ParseSigned, ServiceConfigStamp;
    ParsePrint(index);
    ParsePrint(c.cpu);
    ParsePrint(c.memory);
    if fireMs.Some? { ParsePrint(fireMs.value); }
  }

  /** A fire at the epoch would be forgotten: its label reads back as no label. */
  lemma EpochFireForgotten(c: ServiceConfig, index: int)
    ensures FireLabel(RunLabels(c, index, Some(0), None)) == None
  {
    hide ServiceConfigStamp;
    ParsePrint(0);
  }
}
