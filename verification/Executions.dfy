/**
 * Reconciliation of an execution row with the build it stands for. CodeBuild events, the heartbeat that runs
 * every minute and the manual check all write the row, and a check selects the row, asks AWS and writes in
 * three separate moments.
 */
module Executions {
  import opened Sequences
  import opened ExecutionStatuses

  datatype Build = InProgress | Succeeded | BuildFailed | Stopped | TimedOut | Fault

  /** What getBuildStatus gives: an exception, a build without a status ('UNKNOWN'), or the status. */
  datatype Answer = Threw | Unknown | Reported(build: Build)

  datatype Row = Row(status: ExecutionStatus, linked: bool,   // linked: awsBuildId is set
                     startedAt: nat, completedAt: Option<nat>, duration: Option<int>,
                     metadata: map<string, string>, updatedAt: nat)

  const STALE_AFTER: nat := 5 * 60 * 1000

  /** The repository touches updatedAt only when a column changed. */
  function Save(before: Row, after: Row, now: nat): Row {
    if after == before then before else after.(updatedAt := now)
  }

  function UpdateStatus(row: Row, status: ExecutionStatus, metadata: map<string, string>, now: nat): Row {
    var merged := row.(status := status, metadata := row.metadata + metadata);
    Save(row, if IsTerminal(status) then merged.(completedAt := Some(now), duration := Some((now - row.startedAt) / 1000)) else merged, now)
  }

  /** An event with a status the table does not know leaves the status as it is. */
  function EventStatus(build: Build, current: ExecutionStatus): ExecutionStatus {
    match build
    case InProgress => RUNNING
    case Succeeded => SUCCESS
    case BuildFailed => FAILED
    case Stopped => FAILED
    case _ => current
  }

  /** The first IN_PROGRESS event links a row that was created before its build; other events need the link. */
  function OnEvent(row: Row, build: Build, metadata: map<string, string>, now: nat): Row {
    if !row.linked && !build.InProgress? then row
    else
      var found := Save(row, row.(linked := true), now);
      UpdateStatus(found, EventStatus(build, found.status), metadata, now)
  }

  /** A new row. startedAt may be the time an event states, on another clock than updatedAt. */
  predicate Fresh(row: Row) {
    !IsTerminal(row.status) && row.completedAt.None? && row.duration.None?
  }

  /** createNewExecution */
  function Created(eventTime: nat, metadata: map<string, string>, now: nat): Row {
    Row(RUNNING, true, eventTime, None, None, metadata, now)
  }

  datatype Check = Heartbeat | Manual

  datatype Verdict = Skip | Beat | Set(status: ExecutionStatus)

  function Decide(check: Check, answer: Answer): Verdict {
    match (check, answer)
    case (_, Threw) => Skip
    case (Heartbeat, Unknown) => Skip
    case (Heartbeat, Reported(build)) =>
      (match build
       case Succeeded => Set(SUCCESS)
       case InProgress => Beat
       case Fault => Skip
       case _ => Set(FAILED))
    case (Manual, Unknown) => Set(FAILED)
    case (Manual, Reported(build)) =>
      if build.InProgress? then Skip else Set(if build.Succeeded? then SUCCESS else FAILED)
  }

  predicate Stale(row: Row, now: nat) {
    row.status.RUNNING? && row.updatedAt + STALE_AFTER < now
  }

  /** A beat saves the entity that was selected, all its columns included; a new status goes to the row of now. */
  function Write(row: Row, selected: Row, verdict: Verdict, metadata: map<string, string>, now: nat): Row {
    match verdict
    case Skip => row
    case Beat => selected.(updatedAt := now)
    case Set(status) => UpdateStatus(row, status, metadata, now)
  }

  /** A whole check of one row with nothing in between. */
  function Swept(row: Row, check: Check, answer: Answer, metadata: map<string, string>, now: nat): Row {
    if Stale(row, now) && row.linked then Write(row, row, Decide(check, answer), metadata, now) else row
  }

  function CountStale(rows: seq<Row>, now: nat): nat {
    if |rows| == 0 then 0 else CountStale(rows[..|rows| - 1], now) + if Stale(rows[|rows| - 1], now) then 1 else 0
  }

  function CountSet(rows: seq<Row>, answers: seq<Answer>, now: nat): nat
    requires |answers| == |rows|
  {
    if |rows| == 0 then 0
    else
      var n := |rows| - 1;
      CountSet(rows[..n], answers[..n], now)
      + if Stale(rows[n], now) && rows[n].linked && Decide(Manual, answers[n]).Set? then 1 else 0
  }

  /** The execution table and the operations on it, one await-free stretch each. */
  class LogsService {
    var rows: seq<Row>

    constructor ()
      ensures rows == []
    {
      rows := [];
    }

    /** updateExecutionStatus; false stands for NotFoundException. */
    method UpdateExecutionStatus(id: nat, status: ExecutionStatus, metadata: map<string, string>, now: nat) returns (found: bool)
      modifies this`rows
      ensures found == (id < |old(rows)|)
      ensures rows == if found then old(rows)[id := UpdateStatus(old(rows)[id], status, metadata, now)] else old(rows)
    {
      if id >= |rows| {
        return false;
      }
      var execution := rows[id].(status := status);
      execution := execution.(metadata := execution.metadata + metadata);
      if status == SUCCESS || status == FAILED {
        execution := execution.(completedAt := Some(now));
        execution := execution.(duration := Some((now - execution.startedAt) / 1000));
      }
      rows := rows[id := if execution == rows[id] then rows[id] else execution.(updatedAt := now)];
      return true;
    }

    /**
     * processCodeBuildEvent. An execution that exists is linked if need be and given the mapped status; for an
     * unknown one only IN_PROGRESS creates a row, started when the event says.
     */
    method ProcessCodeBuildEvent(id: nat, build: Build, metadata: map<string, string>, eventTime: nat, now: nat)
      modifies this`rows
      ensures rows == if id < |old(rows)| then old(rows)[id := OnEvent(old(rows)[id], build, metadata, now)]
                      else if build.InProgress? then old(rows) + [Created(eventTime, metadata, now)]
                      else old(rows)
      ensures |rows| > |old(rows)| ==> Fresh(rows[|old(rows)|]) && rows[|old(rows)|].linked && rows[|old(rows)|].status == RUNNING
    {
      if id >= |rows| {
        if build == InProgress {
          rows := rows + [Row(RUNNING, true, eventTime, None, None, metadata, now)];
        }
        return;
      }
      if !rows[id].linked {
        if build != InProgress {
          return;
        }
        rows := rows[id := rows[id].(linked := true, updatedAt := now)];
      }
      var newStatus := EventStatus(build, rows[id].status);
      var _ := UpdateExecutionStatus(id, newStatus, metadata, now);
    }

    /** checkStaleExecutions, when nothing else writes meanwhile. */
    method CheckStaleExecutions(answers: seq<Answer>, notes: seq<map<string, string>>, now: nat)
      requires |answers| == |rows| == |notes|
      modifies this`rows
      ensures |rows| == |old(rows)|
      ensures forall i :: 0 <= i < |rows| ==> rows[i] == Swept(old(rows)[i], Heartbeat, answers[i], notes[i], now)
    {
      hide UpdateStatus;
      var selected := rows;
      for i := 0 to |selected|
        invariant |rows| == |selected|
        invariant forall j :: 0 <= j < i ==> rows[j] == Swept(selected[j], Heartbeat, answers[j], notes[j], now)
        invariant forall j :: i <= j < |rows| ==> rows[j] == selected[j]
      {
        if selected[i].status == RUNNING && selected[i].updatedAt + STALE_AFTER < now && selected[i].linked {
          var verdict := Decide(Heartbeat, answers[i]);
          if verdict == Beat {
            rows := rows[i := selected[i].(updatedAt := now)];
          } else if verdict.Set? && verdict.status != selected[i].status {
            var _ := UpdateExecutionStatus(i, verdict.status, notes[i], now);
          }
        }
      }
    }

    method CheckStaleExecutionsManually(answers: seq<Answer>, notes: seq<map<string, string>>, now: nat)
      returns (checked: nat, updated: nat)
      requires |answers| == |rows| == |notes|
      modifies this`rows
      ensures |rows| == |old(rows)|
      ensures forall i :: 0 <= i < |rows| ==> rows[i] == Swept(old(rows)[i], Manual, answers[i], notes[i], now)
      ensures checked == CountStale(old(rows), now) && updated == CountSet(old(rows), answers, now)
    {
      hide UpdateStatus;
      var selected := rows;
      checked, updated := 0, 0;
      for i := 0 to |selected|
        invariant |rows| == |selected|
        invariant forall j :: 0 <= j < i ==> rows[j] == Swept(selected[j], Manual, answers[j], notes[j], now)
        invariant forall j :: i <= j < |rows| ==> rows[j] == selected[j]
        invariant checked == CountStale(selected[..i], now) && updated == CountSet(selected[..i], answers[..i], now)
      {
        assert selected[..i + 1][..i] == selected[..i] && answers[..i + 1][..i] == answers[..i];
        if selected[i].status == RUNNING && selected[i].updatedAt + STALE_AFTER < now {
          checked := checked + 1;
          if selected[i].linked {
            var verdict := Decide(Manual, answers[i]);
            if verdict.Set? {
              var _ := UpdateExecutionStatus(i, verdict.status, notes[i], now);
              updated := updated + 1;
            }
          }
        }
      }
      assert selected[..|selected|] == selected && answers[..|selected|] == answers;
    }
  }

  // ---------------------------------------------------------------- runs

  /** A check in flight. */
  datatype Pass = Selected(check: Check, row: Row) | Asked(check: Check, row: Row, answer: Answer) | Done

  datatype State = State(row: Row, build: Build, now: nat, passes: seq<Pass>)

  datatype Outcome = Heard | NoStatus | Failing

  datatype Step =
    | Tick(ms: nat)
    | BuildEnds(build: Build)
    | Deliver(build: Build, metadata: map<string, string>)   // in any order, late, or more than once
    | Select(check: Check)
    | Ask(pass: nat, outcome: Outcome)
    | WriteBack(pass: nat, metadata: map<string, string>)

  /** An event reports what was true once: the build runs, or it ended the way it did. */
  predicate Truthful(s: State, build: Build) {
    build.InProgress? || build == s.build
  }

  function Do(s: State, step: Step): State {
    match step
    case Tick(ms) => s.(now := s.now + ms)
    case BuildEnds(build) => if s.build.InProgress? then s.(build := build) else s
    case Deliver(build, metadata) => if Truthful(s, build) then s.(row := OnEvent(s.row, build, metadata, s.now)) else s
    case Select(check) =>
      if Stale(s.row, s.now) && s.row.linked then s.(passes := s.passes + [Selected(check, s.row)]) else s
    case Ask(k, outcome) =>
      if k >= |s.passes| || !s.passes[k].Selected? then s
      else
        var answer := match outcome case Heard => Reported(s.build) case NoStatus => Unknown case Failing => Threw;
        s.(passes := s.passes[k := Asked(s.passes[k].check, s.passes[k].row, answer)])
    case WriteBack(k, metadata) =>
      if k >= |s.passes| || !s.passes[k].Asked? then s
      else
        var p := s.passes[k];
        s.(row := Write(s.row, p.row, Decide(p.check, p.answer), metadata, s.now), passes := s.passes[k := Done])
  }

  function Run(first: Row, steps: seq<Step>): State {
    if |steps| == 0 then State(first, InProgress, first.updatedAt, [])
    else Do(Run(first, steps[..|steps| - 1]), steps[|steps| - 1])
  }

  // ---------------------------------------------------------------- what decides the status

  /** Which kind of write came last: none, one that says "running", the end of the build, or a guess without a status. */
  datatype Mark = Untouched | Began | Ended | Guessed

  function MarkOf(s: State, step: Step, mark: Mark): Mark {
    match step
    case Deliver(build, _) =>
      if build.InProgress? then Began
      else if s.row.linked && build == s.build && (build.Succeeded? || build.BuildFailed? || build.Stopped?) then Ended
      else mark
    case WriteBack(k, _) =>
      if k >= |s.passes| || !s.passes[k].Asked? then mark
      else (match Decide(s.passes[k].check, s.passes[k].answer)
            case Skip => mark
            case Beat => Began
            case Set(_) => if s.passes[k].answer.Unknown? then Guessed else Ended)
    case _ => mark
  }

  function LastWrite(first: Row, steps: seq<Step>): Mark {
    if |steps| == 0 then Untouched
    else
      var n := |steps| - 1;
      MarkOf(Run(first, steps[..n]), steps[n], LastWrite(first, steps[..n]))
  }

  /** The status an ended build should have. */
  function Mapped(build: Build): ExecutionStatus {
    if build.Succeeded? then SUCCESS else if build.InProgress? then RUNNING else FAILED
  }

  function Meaning(mark: Mark, first: Row, build: Build): ExecutionStatus {
    match mark
    case Untouched => first.status
    case Began => RUNNING
    case Ended => Mapped(build)
    case Guessed => FAILED
  }

  /** completedAt and duration come together and fit; a terminal status has them. */
  predicate Timed(row: Row, now: nat) {
    && (row.completedAt.Some? ==> row.completedAt.value <= now
                                  && row.duration == Some((row.completedAt.value - row.startedAt) / 1000))
    && (IsTerminal(row.status) ==> row.completedAt.Some?)
  }

  predicate PassOk(s: State, p: Pass) {
    || p.Done?
    || (p.row.status.RUNNING? && p.row.linked && Timed(p.row, s.now) && p.row.startedAt == s.row.startedAt
        && (p.Asked? && p.answer.Reported? ==> Truthful(s, p.answer.build)))
  }

  predicate Invariant(s: State, first: Row, mark: Mark) {
    && s.row.status == Meaning(mark, first, s.build)
    && (mark.Ended? ==> !s.build.InProgress?)
    && Timed(s.row, s.now) && s.row.startedAt == first.startedAt
    && (forall i :: 0 <= i < |s.passes| ==> PassOk(s, s.passes[i]))
  }

  lemma StatusAfterStep(s: State, first: Row, mark: Mark, step: Step)
    requires Invariant(s, first, mark)
    ensures Do(s, step).row.status == Meaning(MarkOf(s, step, mark), first, Do(s, step).build)
    ensures MarkOf(s, step, mark).Ended? ==> !Do(s, step).build.InProgress?
  {
    if step.WriteBack? && step.pass < |s.passes| {
      assert PassOk(s, s.passes[step.pass]);
    }
    hide Timed, Invariant;
  }

  lemma StepKeepsInvariant(s: State, first: Row, mark: Mark, step: Step)
    requires Invariant(s, first, mark)
    ensures Invariant(Do(s, step), first, MarkOf(s, step, mark))
  {
    StatusAfterStep(s, first, mark, step);
    PassesStayOk(s, first, mark, step);
    TimesAfterStep(s, first, mark, step);
    hide PassOk, Timed, Do, MarkOf, Meaning;
  }

  lemma TimesAfterStep(s: State, first: Row, mark: Mark, step: Step)
    requires Invariant(s, first, mark)
    ensures Timed(Do(s, step).row, Do(s, step).now) && Do(s, step).row.startedAt == first.startedAt
  {
    if step.Deliver? || step.WriteBack? {
      WriteKeepsTimes(s, step);
    }
    hide PassOk, OnEvent, Write, Meaning;
  }

  lemma PassesStayOk(s: State, first: Row, mark: Mark, step: Step)
    requires Invariant(s, first, mark)
    ensures var s' := Do(s, step); forall i :: 0 <= i < |s'.passes| ==> PassOk(s', s'.passes[i])
  {
    if step.Deliver? || step.WriteBack? {
      WriteKeepsTimes(s, step);
    }
    hide UpdateStatus, OnEvent, Write, Decide, MarkOf, Meaning;
    var s' := Do(s, step);
    forall i | 0 <= i < |s'.passes|
      ensures PassOk(s', s'.passes[i])
    {
      if i < |s.passes| {
        assert PassOk(s, s.passes[i]);
      }
    }
  }

  lemma WriteKeepsTimes(s: State, step: Step)
    requires Timed(s.row, s.now) && (step.Deliver? || step.WriteBack?)
    requires forall i :: 0 <= i < |s.passes| ==> PassOk(s, s.passes[i])
    ensures Timed(Do(s, step).row, s.now) && Do(s, step).row.startedAt == s.row.startedAt
  {
    if step.WriteBack? && step.pass < |s.passes| {
      assert PassOk(s, s.passes[step.pass]);
    }
  }

  lemma {:induction false} InvariantHolds(first: Row, steps: seq<Step>)
    requires Fresh(first)
    ensures Invariant(Run(first, steps), first, LastWrite(first, steps))
  {
    if |steps| > 0 {
      var n := |steps| - 1;
      InvariantHolds(first, steps[..n]);
      StepKeepsInvariant(Run(first, steps[..n]), first, LastWrite(first, steps[..n]), steps[n]);
    }
  }

  // ---------------------------------------------------------------- main results

  /**
   * The status at the end of any run is decided by the kind of the last write, not by who wrote or in which
   * order: every terminal write of every writer means the same status. And a terminal status always carries its
   * completion time and the whole seconds since the start.
   */
  lemma {:induction false} StatusFollowsLastWrite(first: Row, steps: seq<Step>)
    requires Fresh(first)
    ensures var s := Run(first, steps);
            && s.row.status == Meaning(LastWrite(first, steps), first, s.build)
            && (IsTerminal(s.row.status) ==>
                  s.row.completedAt.Some? && s.row.duration == Some((s.row.completedAt.value - s.row.startedAt) / 1000))
  {
    InvariantHolds(first, steps);
  }

  /** Two runs about the same build whose last writes were terminal end in the same status, whatever their order. */
  lemma {:induction false} OrderDoesNotMatter(first: Row, some: seq<Step>, other: seq<Step>)
    requires Fresh(first) && Run(first, some).build == Run(first, other).build
    requires LastWrite(first, some).Ended? && LastWrite(first, other).Ended?
    ensures Run(first, some).row.status == Run(first, other).row.status == Mapped(Run(first, some).build)
    ensures IsTerminal(Run(first, some).row.status)
  {
    InvariantHolds(first, some);
    InvariantHolds(first, other);
  }

  /** A write that contradicts the end of the build: a late "running", or a guess when the build succeeded. */
  predicate Contradicts(s: State, step: Step) {
    || (step.Deliver? && step.build.InProgress?)
    || (step.WriteBack? && step.pass < |s.passes| && s.passes[step.pass].Asked?
        && (var p := s.passes[step.pass];
            Decide(p.check, p.answer).Beat? || (p.check.Manual? && p.answer.Unknown? && s.build.Succeeded?)))
  }

  /** Once the row shows the end of the build, a step takes it away exactly when it contradicts it. */
  lemma EndStaysExactlyUnlessContradicted(first: Row, steps: seq<Step>, step: Step)
    requires Fresh(first) && !Run(first, steps).build.InProgress?
    requires Run(first, steps).row.status == Mapped(Run(first, steps).build)
    ensures var s := Run(first, steps); Do(s, step).row.status == Mapped(s.build) <==> !Contradicts(s, step)
  {
    var s, mark := Run(first, steps), LastWrite(first, steps);
    InvariantHolds(first, steps);
    StepKeepsInvariant(s, first, mark, step);
    if step.WriteBack? && step.pass < |s.passes| {
      assert PassOk(s, s.passes[step.pass]);
    }
  }

  /** No step of a continuation contradicts the end of the build. */
  predicate NeverContradicted(first: Row, steps: seq<Step>, later: seq<Step>) {
    |later| == 0 ||
    (var n := |later| - 1;
     NeverContradicted(first, steps, later[..n]) && !Contradicts(Run(first, steps + later[..n]), later[n]))
  }

  /** The row shows the end of its build, with the completion time and the duration. */
  predicate ShowsEnd(s: State) {
    && !s.build.InProgress? && s.row.status == Mapped(s.build)
    && s.row.completedAt.Some? && s.row.duration == Some((s.row.completedAt.value - s.row.startedAt) / 1000)
  }

  lemma StepFromEnd(first: Row, steps: seq<Step>, step: Step)
    requires Fresh(first) && ShowsEnd(Run(first, steps))
    ensures ShowsEnd(Run(first, steps + [step])) <==> !Contradicts(Run(first, steps), step)
  {
    assert (steps + [step])[..|steps|] == steps;
    EndStaysExactlyUnlessContradicted(first, steps, step);
    StatusFollowsLastWrite(first, steps + [step]);
  }

  /** Every state of a continuation shows the end. */
  predicate ShownThroughout(first: Row, steps: seq<Step>, later: seq<Step>) {
    ShowsEnd(Run(first, steps + later)) && (|later| == 0 || ShownThroughout(first, steps, later[..|later| - 1]))
  }

  /** From the end on, every state of a continuation shows it if and only if none of its steps contradicts it. */
  lemma {:induction false} EndHoldsThroughoutExactlyWhen(first: Row, steps: seq<Step>, later: seq<Step>)
    requires Fresh(first) && ShowsEnd(Run(first, steps))
    ensures ShownThroughout(first, steps, later) <==> NeverContradicted(first, steps, later)
  {
    hide ShowsEnd, Run, Contradicts;
    if |later| == 0 {
      assert steps + later == steps;
    } else {
      var n := |later| - 1;
      EndHoldsThroughoutExactlyWhen(first, steps, later[..n]);
      assert steps + later == steps + later[..n] + [later[n]];
      if ShownThroughout(first, steps, later[..n]) {
        StepFromEnd(first, steps + later[..n], later[n]);
      }
    }
  }

  /** A check that nothing interrupts is the sweep of the table, on this row. */
  lemma UninterruptedCheckIsSweep(s: State, check: Check, outcome: Outcome, metadata: map<string, string>)
    requires Stale(s.row, s.now) && s.row.linked
    ensures var k := |s.passes|;
            var answer := match outcome case Heard => Reported(s.build) case NoStatus => Unknown case Failing => Threw;
            Do(Do(Do(s, Select(check)), Ask(k, outcome)), WriteBack(k, metadata)).row == Swept(s.row, check, answer, metadata, s.now)
  {
    var selected := Do(s, Select(check));
    assert selected.passes[|s.passes|] == Selected(check, s.row);
    var asked := Do(selected, Ask(|s.passes|, outcome));
    assert asked.passes[|s.passes|].Asked?;
  }

  /**
   * After the build ended, the next sweep that hears from AWS brings a row that still says "running" to the mapped
   * status, except that the heartbeat passes over a build that ended in FAULT.
   */
  lemma StaleSweepRestoresExactly(first: Row, steps: seq<Step>, check: Check, metadata: map<string, string>)
    requires Fresh(first)
    requires var s := Run(first, steps); !s.build.InProgress? && Stale(s.row, s.now) && s.row.linked
    ensures var s := Run(first, steps);
            var row := Swept(s.row, check, Reported(s.build), metadata, s.now);
            && (row.status == Mapped(s.build) <==> check.Manual? || !s.build.Fault?)
            && (row.status == Mapped(s.build) ==> row.completedAt == Some(s.now) && Timed(row, s.now))
  {
    InvariantHolds(first, steps);
  }

  /** On a stale row the two checks set the same status exactly when AWS named one other than FAULT, or nothing at all. */
  lemma ChecksAgreeExactlyWhen(row: Row, answer: Answer, notes: map<string, string>, other: map<string, string>, now: nat)
    requires Stale(row, now) && row.linked
    ensures Swept(row, Heartbeat, answer, notes, now).status == Swept(row, Manual, answer, other, now).status
            <==> !answer.Unknown? && answer != Reported(Fault)
  {
  }

  /** The heartbeat selects the row and asks, the build ends and its event arrives, and then the heartbeat writes. */
  const BEFORE_THE_BEAT := [Tick(STALE_AFTER + 1)] + [Select(Heartbeat)] + [Ask(0, Heard)] + [BuildEnds(Succeeded)]
                           + [Deliver(Succeeded, map[])]

  lemma RunAppend(first: Row, steps: seq<Step>, step: Step)
    ensures Run(first, steps + [step]) == Do(Run(first, steps), step)
  {
    assert (steps + [step])[..|steps|] == steps;
  }

  lemma AskedState(first: Row)
    requires first.status.RUNNING? && first.linked
    ensures var start := State(first, InProgress, first.updatedAt, []);
            Do(Do(Do(start, Tick(STALE_AFTER + 1)), Select(Heartbeat)), Ask(0, Heard)) ==
            State(first, InProgress, first.updatedAt + STALE_AFTER + 1, [Asked(Heartbeat, first, Reported(InProgress))])
  {
    var start := State(first, InProgress, first.updatedAt, []);
    var ticked := start.(now := first.updatedAt + STALE_AFTER + 1);
    assert Do(start, Tick(STALE_AFTER + 1)) == ticked;
    assert Do(ticked, Select(Heartbeat)) == ticked.(passes := [Selected(Heartbeat, first)]);
  }

  lemma NothingYet(first: Row)
    ensures Run(first, []) == State(first, InProgress, first.updatedAt, [])
  {
  }

  lemma AfterAsking(first: Row)
    requires Fresh(first) && first.status.RUNNING? && first.linked
    ensures Run(first, [Tick(STALE_AFTER + 1)] + [Select(Heartbeat)] + [Ask(0, Heard)]) ==
            State(first, InProgress, first.updatedAt + STALE_AFTER + 1, [Asked(Heartbeat, first, Reported(InProgress))])
  {
    hide Run, Do;
    var tick, select := [Tick(STALE_AFTER + 1)], [Select(Heartbeat)];
    assert [] + tick == tick;
    NothingYet(first);
    RunAppend(first, [], tick[0]);
    RunAppend(first, tick, select[0]);
    RunAppend(first, tick + select, Ask(0, Heard));
    AskedState(first);
  }

  /** A heartbeat that selected the row and heard "in progress" just before the end undoes the end, with its completion time. */
  lemma HeartbeatUndoesTheEnd(first: Row)
    requires Fresh(first) && first.status.RUNNING? && first.linked
    ensures Run(first, BEFORE_THE_BEAT).row.status == SUCCESS
    ensures var row := Run(first, BEFORE_THE_BEAT + [WriteBack(0, map[])]).row;
            row.status == RUNNING && row.completedAt.None?
  {
    AfterAsking(first);
    var asked := [Tick(STALE_AFTER + 1)] + [Select(Heartbeat)] + [Ask(0, Heard)];
    RunAppend(first, asked, BuildEnds(Succeeded));
    RunAppend(first, asked + [BuildEnds(Succeeded)], Deliver(Succeeded, map[]));
    RunAppend(first, BEFORE_THE_BEAT, WriteBack(0, map[]));
    hide Run;
  }
}
