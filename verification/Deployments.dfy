/**
 * Deployment records: the orchestrator of each deployment writes by id, while ECS and load-balancer
 * events look up the newest active deployment and write that one. Every handler is one atomic step.
 */
module Deployments {
  import opened Sequences

  datatype DeploymentStatus =
    PENDING | IN_PROGRESS | DEPLOYING_ECS | CONFIGURING_ALB | WAITING_HEALTH_CHECK | SUCCESS | FAILED | ROLLED_BACK

  predicate IsTerminal(status: DeploymentStatus) {
    status in {SUCCESS, FAILED, ROLLED_BACK}
  }

  datatype Entry =
    | RunningTask(taskArn: string, startedAt: Option<string>, connectivity: string)
    | StoppedTask(taskArn: string, exitCode: Option<int>, stoppedReason: Option<string>, stoppedAt: Option<string>)
    | HealthyTarget(id: string, port: nat, healthyAt: string)
    | UnhealthyTarget(id: string, port: nat, reason: Option<string>, unhealthyAt: string)

  /** A metadata value. Undefined properties exist in memory but are dropped when the column is written as JSON. */
  datatype Meta = Text(text: string) | Number(number: int) | Flag(flag: bool) | List(entries: seq<Entry>) | Undefined

  /** The property names the code writes into the metadata column. */
  datatype MetaKey =
    PipelineNameKey | ProjectNameKey | EcsServiceNameKey | EcsClusterNameKey | EventRuleCreatedKey |
    TargetGroupArnKey | HealthCheckRuleCreatedKey | TaskDefinitionArnKey | DesiredCountKey |
    RunningCountKey | PendingCountKey | SteadyStateReachedKey | SteadyStateAtKey | CompletedAtKey |
    FinalUrlKey | EcsTaskStatusKey | RunningTasksKey | StoppedTasksKey | HealthyTargetsKey |
    UnhealthyTargetsKey

  type Metadata = map<MetaKey, Meta>

  datatype Deployment = Deployment(
    pipelineId: string, status: DeploymentStatus,
    deployUrl: Option<string>, ecsServiceArn: Option<string>, targetGroupArn: Option<string>,
    albArn: Option<string>, albDnsName: Option<string>, errorMessage: Option<string>,
    metadata: Metadata, deployedAt: Option<int>, completedAt: Option<int>)

  /** The optional fields of updateDeploymentStatus; empty strings count as absent. */
  datatype Updates = Updates(
    deployUrl: Option<string>, ecsServiceArn: Option<string>, targetGroupArn: Option<string>,
    albArn: Option<string>, albDnsName: Option<string>, errorMessage: Option<string>, metadata: Metadata)

  const NO_UPDATES := Updates(None, None, None, None, None, None, map[])

  function MetadataOnly(metadata: Metadata): Updates {
    NO_UPDATES.(metadata := metadata)
  }

  function Given(current: Option<string>, update: Option<string>): Option<string> {
    if update.Some? && update.value != "" then update else current
  }

  function TextOrUndefined(value: Option<string>): Meta {
    if value.Some? then Text(value.value) else Undefined
  }

  function Persist(m: Metadata): Metadata {
    map k | k in m && m[k] != Undefined :: m[k]
  }

  function UpdateRow(d: Deployment, status: DeploymentStatus, u: Updates, now: int): Deployment {
    Deployment(
      d.pipelineId, status,
      Given(d.deployUrl, u.deployUrl), Given(d.ecsServiceArn, u.ecsServiceArn), Given(d.targetGroupArn, u.targetGroupArn),
      Given(d.albArn, u.albArn), Given(d.albDnsName, u.albDnsName), Given(d.errorMessage, u.errorMessage),
      Persist(d.metadata + u.metadata),
      if status == SUCCESS then Some(now) else d.deployedAt,
      if IsTerminal(status) then Some(now) else d.completedAt)
  }

  // ---------------------------------------------------------------- lookups

  /** The table in creation order; a deployment's id is its index. */
  type Table = seq<Deployment>

  datatype Query =
    | ActiveOfPipeline(pipelineId: string)
    | ActiveWithServiceArn(part: string)
    | AwaitingTargetGroup(arn: string)
    | WithStatus(pipelineId: string, status: DeploymentStatus)

  predicate IsActive(status: DeploymentStatus) {
    status in {PENDING, IN_PROGRESS, DEPLOYING_ECS, CONFIGURING_ALB, WAITING_HEALTH_CHECK}
  }

  predicate Matches(q: Query, d: Deployment) {
    match q
    case ActiveOfPipeline(pipelineId) => d.pipelineId == pipelineId && IsActive(d.status)
    case ActiveWithServiceArn(part) => d.ecsServiceArn.Some? && Contains(d.ecsServiceArn.value, part) && IsActive(d.status)
    case AwaitingTargetGroup(arn) => d.targetGroupArn == Some(arn) && d.status in {CONFIGURING_ALB, WAITING_HEALTH_CHECK}
    case WithStatus(pipelineId, status) => d.pipelineId == pipelineId && d.status == status
  }

  /** ORDER BY createdAt DESC, first row. */
  function Newest(rows: Table, q: Query): (r: Option<nat>)
    ensures r.Some? ==> r.value < |rows| && Matches(q, rows[r.value])
    ensures forall i :: (if r.Some? then r.value + 1 else 0) <= i < |rows| ==> !Matches(q, rows[i])
  {
    if |rows| == 0 then None
    else if Matches(q, rows[|rows| - 1]) then Some(|rows| - 1)
    else Newest(rows[..|rows| - 1], q)
  }

  predicate NoLineBreak(s: string) {
    forall c :: c in s ==> c !in {'\n', '\r', '\U{2028}', '\U{2029}'}
  }

  /** The group of a `^prefix(.+)$` match. */
  function After(prefix: string, s: string): Option<string> {
    if prefix < s && NoLineBreak(s[|prefix|..]) then Some(s[|prefix|..]) else None
  }

  function FindByServiceName(rows: Table, serviceName: string): Option<nat> {
    var pipelineId := After("service-", serviceName);
    var byPipeline := if pipelineId.Some? then Newest(rows, ActiveOfPipeline(pipelineId.value)) else None;
    if byPipeline.Some? then byPipeline else Newest(rows, ActiveWithServiceArn(serviceName))
  }

  /** String.prototype.replace with a string pattern: only the first occurrence goes. */
  function RemoveFirst(s: string, part: string): string {
    if part <= s then s[|part|..]
    else if |s| == 0 then s
    else [s[0]] + RemoveFirst(s[1..], part)
  }

  function FindToComplete(rows: Table, serviceName: string): Option<nat> {
    var pipelineId := RemoveFirst(serviceName, "otto-");
    var waiting := Newest(rows, WithStatus(pipelineId, WAITING_HEALTH_CHECK));
    if waiting.Some? then waiting else Newest(rows, WithStatus(pipelineId, DEPLOYING_ECS))
  }

  // ---------------------------------------------------------------- events

  datatype TaskStatus = TaskPending | TaskRunning | TaskStopped
  datatype Health = Healthy | Unhealthy | Unavailable | Draining

  datatype Event =
    | TaskDefinitionUpdated(serviceName: string, taskDefinitionArn: Option<string>, desired: int, running: int, pending: int)
    | SteadyState(serviceName: string, running: int, at: string)
    | OtherServiceEvent(serviceName: string)
    | TaskChanged(group: string, lastStatus: TaskStatus, task: string, exitCode: Option<int>, startedAt: Option<string>,
                  connectivity: string, stoppedReason: Option<string>, stoppedAt: Option<string>)
    | TargetHealthChanged(targetGroupArn: string, state: Health, id: string, port: nat, reason: Option<string>, at: string)
    | RunningTaskReported(service: string, at: string)   // EventBridgeService.updateDeploymentToSuccess

  /** The row an event writes, when it writes at all. */
  function Target(rows: Table, e: Event): (r: Option<nat>)
    ensures r.Some? ==> r.value < |rows|
  {
    match e
    case TaskDefinitionUpdated(name, _, _, _, _) => FindByServiceName(rows, name)
    case SteadyState(name, _, _) => FindByServiceName(rows, name)
    case OtherServiceEvent(_) => None
    case TaskChanged(group, last, _, exitCode, _, _, _, _) =>
      var name := After("service:", group);
      if name.Some? && (last == TaskRunning || (last == TaskStopped && exitCode != Some(0)))
      then FindByServiceName(rows, name.value) else None
    case TargetHealthChanged(arn, state, _, _, _, _) =>
      if state in {Healthy, Unhealthy} then Newest(rows, AwaitingTargetGroup(arn)) else None
    case RunningTaskReported(service, _) => FindToComplete(rows, service)
  }

  datatype Kind = RunningTasks | StoppedTasks | HealthyTargets | UnhealthyTargets

  function KeyOf(kind: Kind): MetaKey {
    match kind
    case RunningTasks => RunningTasksKey
    case StoppedTasks => StoppedTasksKey
    case HealthyTargets => HealthyTargetsKey
    case UnhealthyTargets => UnhealthyTargetsKey
  }

  /** Array.isArray(metadata[key]) ? metadata[key] : [] */
  function ListOf(m: Metadata, kind: Kind): seq<Entry> {
    if KeyOf(kind) in m && m[KeyOf(kind)].List? then m[KeyOf(kind)].entries else []
  }

  /** The list entry an event adds to the row it writes, if any. */
  function EntryFor(d: Deployment, e: Event): Option<(Kind, Entry)> {
    match e
    case TaskChanged(_, last, task, exitCode, startedAt, connectivity, reason, stoppedAt) =>
      if last == TaskRunning then Some((RunningTasks, RunningTask(task, startedAt, connectivity)))
      else Some((StoppedTasks, StoppedTask(task, exitCode, reason, stoppedAt)))
    case TargetHealthChanged(_, state, id, port, reason, at) =>
      if state == Unhealthy then Some((UnhealthyTargets, UnhealthyTarget(id, port, reason, at)))
      else if d.status != WAITING_HEALTH_CHECK then Some((HealthyTargets, HealthyTarget(id, port, at)))
      else None
    case _ => None
  }

  function Appended(m: Metadata, kind: Kind, entry: Entry): Metadata {
    m[KeyOf(kind) := List(ListOf(m, kind) + [entry])]
  }

  /** completeDeployment(success) as far as the record goes. */
  function CompletionWith(finalUrl: Option<string>, at: string): Updates {
    NO_UPDATES.(deployUrl := finalUrl,
                metadata := map[CompletedAtKey := Text(at), FinalUrlKey := TextOrUndefined(finalUrl)])
  }

  /** What the handler writes to the row it found: the new metadata already contains the old. */
  function Write(d: Deployment, e: Event, now: int): Deployment {
    var entry := EntryFor(d, e);
    if entry.Some? then
      UpdateRow(d, d.status, MetadataOnly(Appended(d.metadata, entry.value.0, entry.value.1)), now)
    else match e
      case TaskDefinitionUpdated(_, arn, desired, running, pending) =>
        UpdateRow(d, DEPLOYING_ECS, MetadataOnly(d.metadata + map[
          TaskDefinitionArnKey := TextOrUndefined(arn), DesiredCountKey := Number(desired),
          RunningCountKey := Number(running), PendingCountKey := Number(pending)]), now)
      case SteadyState(_, running, at) =>
        UpdateRow(d, CONFIGURING_ALB, MetadataOnly(d.metadata + map[
          SteadyStateReachedKey := Flag(true), SteadyStateAtKey := Text(at), RunningCountKey := Number(running)]), now)
      case TargetHealthChanged(_, _, _, _, _, at) => UpdateRow(d, SUCCESS, CompletionWith(Given(None, d.deployUrl), at), now)
      case RunningTaskReported(_, at) =>
        UpdateRow(d, SUCCESS, MetadataOnly(d.metadata + map[
          CompletedAtKey := Text(at), EcsTaskStatusKey := Text("RUNNING")]), now)
      case _ => d
  }

  function Handle(rows: Table, e: Event, now: int): (r: Table)
    ensures |r| == |rows|
  {
    var target := Target(rows, e);
    if target.Some? then rows[target.value := Write(rows[target.value], e, now)] else rows
  }

  /** An event changes at most one row, it is the newest that the lookup accepts, and it was active. */
  lemma EventTouchesOneActiveRow(rows: Table, e: Event, now: int)
    ensures forall i :: 0 <= i < |rows| && Some(i) != Target(rows, e) ==> Handle(rows, e, now)[i] == rows[i]
    ensures Target(rows, e).Some? ==> IsActive(rows[Target(rows, e).value].status)
    ensures forall i :: 0 <= i < |rows| && IsTerminal(rows[i].status) ==> Handle(rows, e, now)[i] == rows[i]
  {
  }

  // ---------------------------------------------------------------- the orchestrator's writes

  function NewDeployment(pipelineId: string, pipelineName: string, projectName: string): Deployment {
    Deployment(pipelineId, PENDING, None, None, None, None, None, None,
               map[PipelineNameKey := Text(pipelineName), ProjectNameKey := Text(projectName)], None, None)
  }

  /** How a tracking setup ends: in the catch branch the FAILED write can fail as well. */
  datatype TrackResult = Tracked | TrackingFailed(error: string) | FailureNotRecorded

  function EcsTracking(serviceName: string, clusterName: string): Metadata {
    map[EcsServiceNameKey := Text(serviceName), EcsClusterNameKey := Text(clusterName), EventRuleCreatedKey := Flag(true)]
  }

  function HealthTracking(targetGroupArn: string): Metadata {
    map[TargetGroupArnKey := Text(targetGroupArn), HealthCheckRuleCreatedKey := Flag(true)]
  }

  function AfterTracking(d: Deployment, result: TrackResult, status: DeploymentStatus, metadata: Metadata, now: int): Deployment {
    match result
    case Tracked => UpdateRow(d, status, MetadataOnly(metadata), now)
    case TrackingFailed(error) => UpdateRow(d, FAILED, NO_UPDATES.(errorMessage := Some(error)), now)
    case FailureNotRecorded => d
  }

  // ---------------------------------------------------------------- the services that write records

  class DeploymentTracker {
    var rows: Table

    constructor ()
      ensures rows == []
    {
      rows := [];
    }

    /** startDeploymentTracking, for a pipeline that exists. */
    method StartDeploymentTracking(pipelineId: string, pipelineName: string, projectName: string) returns (id: nat)
      modifies this
      ensures id == |old(rows)| && rows == old(rows) + [NewDeployment(pipelineId, pipelineName, projectName)]
    {
      id := |rows|;
      rows := rows + [NewDeployment(pipelineId, pipelineName, projectName)];
    }

    /** updateDeploymentStatus; false is the `Deployment not found` error. */
    method UpdateDeploymentStatus(id: nat, status: DeploymentStatus, updates: Updates, now: int) returns (found: bool)
      modifies this
      ensures found == (id < |old(rows)|)
      ensures rows == if found then old(rows)[id := UpdateRow(old(rows)[id], status, updates, now)] else old(rows)
    {
      if id >= |rows| {
        return false;
      }
      var d := rows[id].(status := status);
      d := AssignFields(d, updates);
      d := d.(metadata := d.metadata + updates.metadata);
      if status == SUCCESS {
        d := d.(deployedAt := Some(now), completedAt := Some(now));
      } else if status == FAILED || status == ROLLED_BACK {
        d := d.(completedAt := Some(now));
      }
      rows := rows[id := d.(metadata := Persist(d.metadata))];
      return true;
    }

    /** The field-by-field `if (updates.x)` assignments. */
    static method AssignFields(row: Deployment, updates: Updates) returns (d: Deployment)
      ensures d == row.(
        deployUrl := Given(row.deployUrl, updates.deployUrl),
        ecsServiceArn := Given(row.ecsServiceArn, updates.ecsServiceArn),
        targetGroupArn := Given(row.targetGroupArn, updates.targetGroupArn),
        albArn := Given(row.albArn, updates.albArn),
        albDnsName := Given(row.albDnsName, updates.albDnsName),
        errorMessage := Given(row.errorMessage, updates.errorMessage))
    {
      d := row;
      d := d.(deployUrl := Given(d.deployUrl, updates.deployUrl));
      d := d.(ecsServiceArn := Given(d.ecsServiceArn, updates.ecsServiceArn));
      d := d.(targetGroupArn := Given(d.targetGroupArn, updates.targetGroupArn));
      d := d.(albArn := Given(d.albArn, updates.albArn));
      d := d.(albDnsName := Given(d.albDnsName, updates.albDnsName));
      d := d.(errorMessage := Given(d.errorMessage, updates.errorMessage));
    }

    /** completeDeployment(success); clean-up of the event rules is not part of the record. */
    method CompleteDeployment(id: nat, finalUrl: Option<string>, at: string, now: int) returns (found: bool)
      modifies this
      ensures found == (id < |old(rows)|)
      ensures rows == if found then old(rows)[id := UpdateRow(old(rows)[id], SUCCESS, CompletionWith(finalUrl, at), now)]
                      else old(rows)
    {
      found := UpdateDeploymentStatus(id, SUCCESS, CompletionWith(finalUrl, at), now);
    }

    /** setupEcsEventTracking; true when it returns normally. */
    method SetupEcsEventTracking(id: nat, serviceName: string, clusterName: string, result: TrackResult, now: int)
      returns (ok: bool)
      requires id < |rows|
      modifies this
      ensures ok == result.Tracked?
      ensures rows == old(rows)[id := AfterTracking(old(rows)[id], result, DEPLOYING_ECS, EcsTracking(serviceName, clusterName), now)]
    {
      ok := Track(id, result, DEPLOYING_ECS, EcsTracking(serviceName, clusterName), now);
    }

    /** setupTargetHealthTracking */
    method SetupTargetHealthTracking(id: nat, targetGroupArn: string, result: TrackResult, now: int) returns (ok: bool)
      requires id < |rows|
      modifies this
      ensures ok == result.Tracked?
      ensures rows == old(rows)[id := AfterTracking(old(rows)[id], result, WAITING_HEALTH_CHECK, HealthTracking(targetGroupArn), now)]
    {
      ok := Track(id, result, WAITING_HEALTH_CHECK, HealthTracking(targetGroupArn), now);
    }

    /** The try/catch both setup methods share: record the new status, or the failure. */
    method Track(id: nat, result: TrackResult, status: DeploymentStatus, metadata: Metadata, now: int) returns (ok: bool)
      requires id < |rows|
      modifies this
      ensures ok == result.Tracked?
      ensures rows == old(rows)[id := AfterTracking(old(rows)[id], result, status, metadata, now)]
    {
      match result {
        case Tracked =>
          var _ := UpdateDeploymentStatus(id, status, MetadataOnly(metadata), now);
        case TrackingFailed(error) =>
          var _ := UpdateDeploymentStatus(id, FAILED, NO_UPDATES.(errorMessage := Some(error)), now);
        case FailureNotRecorded =>
      }
      return result.Tracked?;
    }

    /** Every event handler: find the row, then write it through the tracker. */
    method HandleEvent(e: Event, now: int)
      modifies this
      ensures rows == Handle(old(rows), e, now)
    {
      var target := Target(rows, e);
      if target.None? {
        return;
      }
      var id := target.value;
      var d := rows[id];
      match e {
        case TaskDefinitionUpdated(_, arn, desired, running, pending) =>
          var _ := UpdateDeploymentStatus(id, DEPLOYING_ECS, MetadataOnly(d.metadata + map[
            TaskDefinitionArnKey := TextOrUndefined(arn), DesiredCountKey := Number(desired),
            RunningCountKey := Number(running), PendingCountKey := Number(pending)]), now);
        case SteadyState(_, running, at) =>
          var _ := UpdateDeploymentStatus(id, CONFIGURING_ALB, MetadataOnly(d.metadata + map[
            SteadyStateReachedKey := Flag(true), SteadyStateAtKey := Text(at), RunningCountKey := Number(running)]), now);
        case TaskChanged(_, last, task, exitCode, startedAt, connectivity, reason, stoppedAt) =>
          if last == TaskRunning {
            var _ := UpdateDeploymentStatus(id, d.status, MetadataOnly(
              Appended(d.metadata, RunningTasks, RunningTask(task, startedAt, connectivity))), now);
          } else {
            var _ := UpdateDeploymentStatus(id, d.status, MetadataOnly(
              Appended(d.metadata, StoppedTasks, StoppedTask(task, exitCode, reason, stoppedAt))), now);
          }
        case TargetHealthChanged(_, state, target, port, reason, at) =>
          if state == Unhealthy {
            var _ := UpdateDeploymentStatus(id, d.status, MetadataOnly(
              Appended(d.metadata, UnhealthyTargets, UnhealthyTarget(target, port, reason, at))), now);
          } else if d.status == WAITING_HEALTH_CHECK {
            var _ := CompleteDeployment(id, Given(None, d.deployUrl), at, now);
          } else {
            var _ := UpdateDeploymentStatus(id, d.status, MetadataOnly(
              Appended(d.metadata, HealthyTargets, HealthyTarget(target, port, at))), now);
          }
        case RunningTaskReported(_, at) =>
          var _ := UpdateDeploymentStatus(id, SUCCESS, MetadataOnly(d.metadata + map[
            CompletedAtKey := Text(at), EcsTaskStatusKey := Text("RUNNING")]), now);
      }
    }
  }

  // ---------------------------------------------------------------- runs

  /** How far deployAfterBuild is with a deployment. */
  datatype Progress = Provisioning | EcsTracked | HealthTracked | Finished

  datatype State = State(rows: Table, progress: seq<Progress>)

  datatype Step =
    | Begin(pipelineId: string, pipelineName: string, projectName: string)
    | ProvisioningThrows(id: nat)
    | TrackEcs(id: nat, serviceName: string, clusterName: string, result: TrackResult)
    | TrackHealth(id: nat, targetGroupArn: string, result: TrackResult)
    | RecordResources(id: nat, updates: Updates, throws: bool)
    | Deliver(event: Event)

  datatype Timed = At(now: int, step: Step)

  function WithRow(s: State, id: nat, d: Deployment, p: Progress): State
    requires id < |s.rows| && id < |s.progress|
  {
    State(s.rows[id := d], s.progress[id := p])
  }

  predicate Due(s: State, id: nat, p: Progress) {
    id < |s.rows| && id < |s.progress| && s.progress[id] == p
  }

  /** One step; a step of the orchestrator that is not due does nothing. */
  function Do(s: State, t: Timed): State {
    match t.step
    case Begin(pipelineId, pipelineName, projectName) =>
      State(s.rows + [NewDeployment(pipelineId, pipelineName, projectName)], s.progress + [Provisioning])
    case ProvisioningThrows(id) =>
      if Due(s, id, Provisioning) then WithRow(s, id, s.rows[id], Finished) else s
    case TrackEcs(id, serviceName, clusterName, result) =>
      if Due(s, id, Provisioning) then
        WithRow(s, id, AfterTracking(s.rows[id], result, DEPLOYING_ECS, EcsTracking(serviceName, clusterName), t.now),
                if result.Tracked? then EcsTracked else Finished)
      else s
    case TrackHealth(id, targetGroupArn, result) =>
      if Due(s, id, EcsTracked) then
        WithRow(s, id, AfterTracking(s.rows[id], result, WAITING_HEALTH_CHECK, HealthTracking(targetGroupArn), t.now),
                if result.Tracked? then HealthTracked else Finished)
      else s
    case RecordResources(id, updates, throws) =>
      if Due(s, id, HealthTracked) then
        WithRow(s, id, if throws then s.rows[id]
                       else UpdateRow(s.rows[id], WAITING_HEALTH_CHECK, updates.(metadata := map[]), t.now), Finished)
      else s
    case Deliver(e) => s.(rows := Handle(s.rows, e, t.now))
  }

  function RunFrom(s: State, steps: seq<Timed>): State {
    if |steps| == 0 then s else Do(RunFrom(s, steps[..|steps| - 1]), steps[|steps| - 1])
  }

  function Run(steps: seq<Timed>): State {
    RunFrom(State([], []), steps)
  }

  // ---------------------------------------------------------------- what holds in every state

  predicate RowInvariant(d: Deployment, p: Progress) {
    && (d.status == SUCCESS ==> d.deployedAt.Some?)
    && (IsTerminal(d.status) ==> d.completedAt.Some?)
    && d.status !in {IN_PROGRESS, ROLLED_BACK}
    && (d.status == FAILED ==> p == Finished)
    && (forall k :: k in d.metadata ==> d.metadata[k] != Undefined)
    && (FinalUrlKey in d.metadata ==> Given(None, d.deployUrl).Some?)
  }

  predicate Invariant(s: State) {
    && |s.rows| == |s.progress|
    && forall i :: 0 <= i < |s.rows| ==> RowInvariant(s.rows[i], s.progress[i])
  }

  lemma WriteKeepsInvariant(d: Deployment, e: Event, now: int, p: Progress)
    requires RowInvariant(d, p) && IsActive(d.status)
    ensures RowInvariant(Write(d, e, now), p)
  {
  }

  lemma StepKeepsInvariant(s: State, t: Timed)
    requires Invariant(s)
    ensures Invariant(Do(s, t))
  {
    hide Write, Target;
    if t.step.Deliver? {
      var target := Target(s.rows, t.step.event);
      EventTouchesOneActiveRow(s.rows, t.step.event, t.now);
      if target.Some? {
        WriteKeepsInvariant(s.rows[target.value], t.step.event, t.now, s.progress[target.value]);
      }
    }
  }

  /**
   * In every reachable state SUCCESS has both completion times, FAILED has the second, FAILED is only the
   * orchestrator's last word, and the statuses IN_PROGRESS and ROLLED_BACK never occur.
   */
  lemma {:induction false} InvariantHolds(steps: seq<Timed>)
    ensures Invariant(Run(steps))
  {
    if |steps| > 0 {
      InvariantHolds(steps[..|steps| - 1]);
      StepKeepsInvariant(Run(steps[..|steps| - 1]), steps[|steps| - 1]);
    }
  }

  // ---------------------------------------------------------------- terminal statuses

  lemma SettledStep(s: State, t: Timed, id: nat)
    requires Due(s, id, Finished) && IsTerminal(s.rows[id].status)
    ensures Due(Do(s, t), id, Finished) && Do(s, t).rows[id] == s.rows[id]
  {
    if t.step.Deliver? {
      EventTouchesOneActiveRow(s.rows, t.step.event, t.now);
    }
  }

  lemma {:induction false} SettledForever(s: State, steps: seq<Timed>, id: nat)
    requires Due(s, id, Finished) && IsTerminal(s.rows[id].status)
    ensures Due(RunFrom(s, steps), id, Finished) && RunFrom(s, steps).rows[id] == s.rows[id]
  {
    if |steps| > 0 {
      SettledForever(s, steps[..|steps| - 1], id);
      SettledStep(RunFrom(s, steps[..|steps| - 1]), steps[|steps| - 1], id);
    }
  }

  lemma RunAppend(s: State, steps: seq<Timed>, t: Timed)
    ensures RunFrom(s, steps + [t]) == Do(RunFrom(s, steps), t)
  {
    assert (steps + [t])[..|steps|] == steps;
  }

  /** The orchestrator's next write when it goes well. */
  function NextWrite(p: Progress, id: nat): Step {
    match p
    case Provisioning => TrackEcs(id, "", "", Tracked)
    case EcsTracked => TrackHealth(id, "", Tracked)
    case HealthTracked => RecordResources(id, NO_UPDATES, false)
    case Finished => ProvisioningThrows(id)
  }

  /**
   * A terminal record stays exactly as it is through every continuation if and only if its orchestrator has
   * made its last write: before that, an early SUCCESS is overwritten by the orchestrator's next status.
   */
  lemma TerminalIsPermanentExactlyWhenFinished(s: State, id: nat)
    requires Invariant(s) && id < |s.rows| && IsTerminal(s.rows[id].status)
    ensures (forall steps :: id < |RunFrom(s, steps).rows| && RunFrom(s, steps).rows[id] == s.rows[id])
            <==> s.progress[id] == Finished
  {
    if s.progress[id] == Finished {
      forall steps
        ensures id < |RunFrom(s, steps).rows| && RunFrom(s, steps).rows[id] == s.rows[id]
      {
        SettledForever(s, steps, id);
      }
    } else {
      var t := At(0, NextWrite(s.progress[id], id));
      RunAppend(s, [], t);
      assert !IsTerminal(Do(s, t).rows[id].status);
      assert RunFrom(s, [] + [t]).rows[id] != s.rows[id];
    }
  }

  /** The newest deployment of a pipeline, waiting for ECS, is completed by a report of its running task. */
  lemma ReportCompletes(rows: Table, service: string, now: int)
    requires |rows| == 1 && rows[0].status == DEPLOYING_ECS && rows[0].pipelineId == RemoveFirst(service, "otto-")
    ensures Handle(rows, RunningTaskReported(service, ""), now)[0].status == SUCCESS
  {
    assert Newest(rows, WithStatus(rows[0].pipelineId, WAITING_HEALTH_CHECK)).None?;
    assert Matches(WithStatus(rows[0].pipelineId, DEPLOYING_ECS), rows[0]);
    hide RemoveFirst;
  }

  lemma AfterBegin(pipelineId: string)
    ensures Run([At(1, Begin(pipelineId, "", ""))] + [At(2, TrackEcs(0, "", "", Tracked))]) ==
            Do(State([NewDeployment(pipelineId, "", "")], [Provisioning]), At(2, TrackEcs(0, "", "", Tracked)))
  {
    var begin := [At(1, Begin(pipelineId, "", ""))];
    assert [] + begin == begin;
    RunAppend(State([], []), [], begin[0]);
    RunAppend(State([], []), begin, At(2, TrackEcs(0, "", "", Tracked)));
    assert Do(State([], []), begin[0]) == State([NewDeployment(pipelineId, "", "")], [Provisioning]);
  }

  /** A running task seen before the orchestrator is done marks SUCCESS, and the next write takes it back. */
  lemma EarlySuccessIsOverwritten(pipelineId: string, service: string)
    requires RemoveFirst(service, "otto-") == pipelineId
    ensures var early := Run([At(1, Begin(pipelineId, "", ""))] + [At(2, TrackEcs(0, "", "", Tracked))]
                             + [At(3, Deliver(RunningTaskReported(service, "")))]);
            && |early.rows| == 1 && early.rows[0].status == SUCCESS
            && |Do(early, At(4, TrackHealth(0, "", Tracked))).rows| == 1
            && Do(early, At(4, TrackHealth(0, "", Tracked))).rows[0].status == WAITING_HEALTH_CHECK
  {
    hide RunFrom, RemoveFirst, Handle;
    var tracked := [At(1, Begin(pipelineId, "", ""))] + [At(2, TrackEcs(0, "", "", Tracked))];
    AfterBegin(pipelineId);
    RunAppend(State([], []), tracked, At(3, Deliver(RunningTaskReported(service, ""))));
    ReportCompletes(Run(tracked).rows, service, 3);
  }

  // ---------------------------------------------------------------- accounting

  /** The entries of a kind that the run's events added to a deployment, in order. */
  function Recorded(steps: seq<Timed>, id: nat, kind: Kind): seq<Entry> {
    if |steps| == 0 then []
    else
      var front, t := steps[..|steps| - 1], steps[|steps| - 1];
      var rows := Run(front).rows;
      Recorded(front, id, kind) + AddedBy(rows, t, id, kind)
  }

  function AddedBy(rows: Table, t: Timed, id: nat, kind: Kind): seq<Entry> {
    if t.step.Deliver? && Target(rows, t.step.event) == Some(id) then
      var entry := EntryFor(rows[id], t.step.event);
      if entry.Some? && entry.value.0 == kind then [entry.value.1] else []
    else []
  }

  function ListAt(s: State, id: nat, kind: Kind): seq<Entry> {
    if id < |s.rows| then ListOf(s.rows[id].metadata, kind) else []
  }

  lemma WriteAddsOneEntry(d: Deployment, e: Event, now: int, kind: Kind)
    ensures var entry := EntryFor(d, e);
            ListOf(Write(d, e, now).metadata, kind) ==
            ListOf(d.metadata, kind) + if entry.Some? && entry.value.0 == kind then [entry.value.1] else []
  {
    if EntryFor(d, e).None? {
      OtherWritesKeepLists(d, e, now, kind);
    }
  }

  lemma OtherWritesKeepLists(d: Deployment, e: Event, now: int, kind: Kind)
    requires EntryFor(d, e).None?
    ensures ListOf(Write(d, e, now).metadata, kind) == ListOf(d.metadata, kind)
  {
    hide UpdateRow;
    match e {
      case TaskDefinitionUpdated(_, arn, desired, running, pending) =>
        MergeKeepsList(d, DEPLOYING_ECS, map[
          TaskDefinitionArnKey := TextOrUndefined(arn), DesiredCountKey := Number(desired),
          RunningCountKey := Number(running), PendingCountKey := Number(pending)], now, kind);
      case SteadyState(_, running, at) =>
        MergeKeepsList(d, CONFIGURING_ALB, map[
          SteadyStateReachedKey := Flag(true), SteadyStateAtKey := Text(at), RunningCountKey := Number(running)], now, kind);
      case TargetHealthChanged(_, _, _, _, _, at) =>
        UpdateKeepsList(d, SUCCESS, CompletionWith(Given(None, d.deployUrl), at), now, kind);
      case RunningTaskReported(_, at) =>
        MergeKeepsList(d, SUCCESS, map[CompletedAtKey := Text(at), EcsTaskStatusKey := Text("RUNNING")], now, kind);
      case _ =>
    }
  }

  /** Merging the old metadata in twice changes no list that the new keys leave alone. */
  lemma MergeKeepsList(d: Deployment, status: DeploymentStatus, extra: Metadata, now: int, kind: Kind)
    requires KeyOf(kind) !in extra
    ensures ListOf(UpdateRow(d, status, MetadataOnly(d.metadata + extra), now).metadata, kind) == ListOf(d.metadata, kind)
  {
    assert (d.metadata + (d.metadata + extra)).Keys == d.metadata.Keys + extra.Keys;
  }

  lemma UpdateKeepsList(d: Deployment, status: DeploymentStatus, u: Updates, now: int, kind: Kind)
    requires KeyOf(kind) !in u.metadata
    ensures ListOf(UpdateRow(d, status, u, now).metadata, kind) == ListOf(d.metadata, kind)
  {
  }

  lemma TrackingKeepsList(d: Deployment, result: TrackResult, status: DeploymentStatus, metadata: Metadata, now: int, kind: Kind)
    requires KeyOf(kind) !in metadata
    ensures ListOf(AfterTracking(d, result, status, metadata, now).metadata, kind) == ListOf(d.metadata, kind)
  {
    match result {
      case Tracked => UpdateKeepsList(d, status, MetadataOnly(metadata), now, kind);
      case TrackingFailed(error) => UpdateKeepsList(d, FAILED, NO_UPDATES.(errorMessage := Some(error)), now, kind);
      case FailureNotRecorded =>
    }
  }

  lemma ListStep(s: State, t: Timed, id: nat, kind: Kind)
    ensures ListAt(Do(s, t), id, kind) == ListAt(s, id, kind) + AddedBy(s.rows, t, id, kind)
  {
    hide AfterTracking, UpdateRow, Write;
    match t.step {
      case Begin(_, _, _) =>
      case ProvisioningThrows(_) =>
      case TrackEcs(at, serviceName, clusterName, result) =>
        if Due(s, at, Provisioning) {
          TrackingKeepsList(s.rows[at], result, DEPLOYING_ECS, EcsTracking(serviceName, clusterName), t.now, kind);
        }
      case TrackHealth(at, arn, result) =>
        if Due(s, at, EcsTracked) {
          TrackingKeepsList(s.rows[at], result, WAITING_HEALTH_CHECK, HealthTracking(arn), t.now, kind);
        }
      case RecordResources(at, updates, throws) =>
        if Due(s, at, HealthTracked) {
          UpdateKeepsList(s.rows[at], WAITING_HEALTH_CHECK, updates.(metadata := map[]), t.now, kind);
        }
      case Deliver(e) =>
        var target := Target(s.rows, e);
        if target.Some? {
          WriteAddsOneEntry(s.rows[target.value], e, t.now, kind);
        }
    }
  }

  /**
   * Each task and target list of a deployment holds exactly the entries of the events applied to it, in order,
   * although every write merges the metadata twice.
   */
  lemma {:induction false} ListsAreTheAppliedEvents(steps: seq<Timed>, id: nat, kind: Kind)
    ensures ListAt(Run(steps), id, kind) == Recorded(steps, id, kind)
  {
    if |steps| > 0 {
      var front := steps[..|steps| - 1];
      ListsAreTheAppliedEvents(front, id, kind);
      ListStep(Run(front), steps[|steps| - 1], id, kind);
    }
  }

  /** The one write that loses a metadata key: a task-definition event without an ARN over a record that has one. */
  predicate DropsKey(rows: Table, t: Timed, id: nat) {
    && t.step.Deliver? && t.step.event.TaskDefinitionUpdated? && t.step.event.taskDefinitionArn.None?
    && Target(rows, t.step.event) == Some(id) && TaskDefinitionArnKey in rows[id].metadata
  }

  /** Metadata keys survive every step except exactly that one, which loses only the ARN. */
  lemma KeysAreKeptExactly(s: State, t: Timed, id: nat)
    requires Invariant(s) && id < |s.rows|
    ensures |s.rows| <= |Do(s, t).rows|
    ensures s.rows[id].metadata.Keys <= Do(s, t).rows[id].metadata.Keys <==> !DropsKey(s.rows, t, id)
    ensures s.rows[id].metadata.Keys - {TaskDefinitionArnKey} <= Do(s, t).rows[id].metadata.Keys
  {
    hide UpdateRow, AfterTracking, Write, Target;
    assert RowInvariant(s.rows[id], s.progress[id]) && Defined(s.rows[id].metadata);
    hide RowInvariant, Defined;
    match t.step {
      case TrackEcs(at, serviceName, clusterName, result) =>
        if at == id && Due(s, id, Provisioning) {
          TrackingIsDefined(serviceName, clusterName);
          TrackingKeepsKeys(s.rows[id], result, DEPLOYING_ECS, EcsTracking(serviceName, clusterName), t.now);
        }
      case TrackHealth(at, targetGroupArn, result) =>
        if at == id && Due(s, id, EcsTracked) {
          TrackingIsDefined(targetGroupArn, "");
          TrackingKeepsKeys(s.rows[id], result, WAITING_HEALTH_CHECK, HealthTracking(targetGroupArn), t.now);
        }
      case RecordResources(at, updates, throws) =>
        if at == id && Due(s, id, HealthTracked) {
          NoKeysAreDefined();
          DefinedUpdateKeepsKeys(s.rows[id], WAITING_HEALTH_CHECK, updates.(metadata := map[]), t.now);
        }
      case Deliver(e) =>
        if Target(s.rows, e) == Some(id) {
          WriteKeepsKeys(s.rows[id], e, t.now, s.progress[id]);
        }
      case _ =>
    }
  }

  lemma NoKeysAreDefined()
    ensures Defined(map[])
  {
  }

  lemma TrackingIsDefined(a: string, b: string)
    ensures Defined(EcsTracking(a, b)) && Defined(HealthTracking(a))
  {
  }

  lemma TrackingKeepsKeys(d: Deployment, result: TrackResult, status: DeploymentStatus, metadata: Metadata, now: int)
    requires Defined(d.metadata) && Defined(metadata)
    ensures d.metadata.Keys <= AfterTracking(d, result, status, metadata, now).metadata.Keys
  {
    hide UpdateRow;
    NoKeysAreDefined();
    match result {
      case Tracked => DefinedUpdateKeepsKeys(d, status, MetadataOnly(metadata), now);
      case TrackingFailed(error) => DefinedUpdateKeepsKeys(d, FAILED, NO_UPDATES.(errorMessage := Some(error)), now);
      case FailureNotRecorded =>
    }
  }

  predicate Defined(m: Metadata) {
    forall k :: k in m ==> m[k] != Undefined
  }

  lemma DefinedUpdateKeepsKeys(d: Deployment, status: DeploymentStatus, u: Updates, now: int)
    requires Defined(d.metadata) && Defined(u.metadata)
    ensures d.metadata.Keys <= UpdateRow(d, status, u, now).metadata.Keys
  {
    assert forall k :: k in d.metadata ==> k in d.metadata + u.metadata;
  }

  /** The update with the task definition: an absent ARN removes the key, anything else keeps all. */
  lemma ArnUpdateKeys(d: Deployment, arn: Option<string>, desired: int, running: int, pending: int, now: int)
    requires Defined(d.metadata)
    ensures var d' := UpdateRow(d, DEPLOYING_ECS, MetadataOnly(d.metadata + map[
                        TaskDefinitionArnKey := TextOrUndefined(arn), DesiredCountKey := Number(desired),
                        RunningCountKey := Number(running), PendingCountKey := Number(pending)]), now);
            && (d.metadata.Keys <= d'.metadata.Keys <==> !(arn.None? && TaskDefinitionArnKey in d.metadata))
            && d.metadata.Keys - {TaskDefinitionArnKey} <= d'.metadata.Keys
  {
  }

  lemma WriteKeepsKeys(d: Deployment, e: Event, now: int, p: Progress)
    requires RowInvariant(d, p)
    ensures d.metadata.Keys <= Write(d, e, now).metadata.Keys <==>
            !(e.TaskDefinitionUpdated? && e.taskDefinitionArn.None? && TaskDefinitionArnKey in d.metadata)
    ensures d.metadata.Keys - {TaskDefinitionArnKey} <= Write(d, e, now).metadata.Keys
  {
    assert Defined(d.metadata);
    var entry := EntryFor(d, e);
    if entry.Some? {
      var m := Appended(d.metadata, entry.value.0, entry.value.1);
      assert Defined(m);
      hide UpdateRow, RowInvariant, Appended, Defined;
      DefinedUpdateKeepsKeys(d, d.status, MetadataOnly(m), now);
    } else {
      PlainWriteKeepsKeys(d, e, now, p);
    }
  }

  lemma PlainWriteKeepsKeys(d: Deployment, e: Event, now: int, p: Progress)
    requires RowInvariant(d, p) && EntryFor(d, e).None?
    ensures d.metadata.Keys <= Write(d, e, now).metadata.Keys <==>
            !(e.TaskDefinitionUpdated? && e.taskDefinitionArn.None? && TaskDefinitionArnKey in d.metadata)
    ensures d.metadata.Keys - {TaskDefinitionArnKey} <= Write(d, e, now).metadata.Keys
  {
    hide UpdateRow;
    match e {
      case TaskDefinitionUpdated(_, arn, desired, running, pending) => ArnUpdateKeys(d, arn, desired, running, pending, now);
      case SteadyState(_, running, at) =>
        DefinedUpdateKeepsKeys(d, CONFIGURING_ALB, MetadataOnly(d.metadata + map[
          SteadyStateReachedKey := Flag(true), SteadyStateAtKey := Text(at), RunningCountKey := Number(running)]), now);
      case TargetHealthChanged(_, _, _, _, _, at) => CompletionKeepsKeys(d, at, now);
      case RunningTaskReported(_, at) =>
        DefinedUpdateKeepsKeys(d, SUCCESS, MetadataOnly(d.metadata + map[
          CompletedAtKey := Text(at), EcsTaskStatusKey := Text("RUNNING")]), now);
      case _ =>
    }
  }

  /** The final URL is undefined only when the record has none, and then the key was not there. */
  lemma CompletionKeepsKeys(d: Deployment, at: string, now: int)
    requires Defined(d.metadata) && (FinalUrlKey in d.metadata ==> Given(None, d.deployUrl).Some?)
    ensures d.metadata.Keys <= UpdateRow(d, SUCCESS, CompletionWith(Given(None, d.deployUrl), at), now).metadata.Keys
  {
  }
}
