/**
 * The poller and a recovery at work on one table. A recovery checks that the table is empty and then pages through
 * the stream on a token of its own, one await per page; the poller may tick, stop and start anywhere in between.
 */
module LogIngestion {
  import opened Sequences
  import opened LogBuffer
  import opened LogPolling
  import opened LogRecovery
  import opened ExecutionStatuses

  datatype Recovery = Idle | Paging(attempts: nat, token: Option<nat>)

  /** `reached` is the furthest stream position up to which rows were ever saved. */
  datatype State = State(world: World, recovery: Recovery, reached: nat) {
    predicate Ok() {
      && world.InStream() && world.poll.Position() <= reached <= |world.stream|
      && (recovery.Paging? ==> recovery.attempts < MAX_ATTEMPTS && PositionOf(recovery.token) <= reached)
    }

    function Rows(): seq<LogEntry> {
      world.poll.stored
    }
  }

  datatype Step =
    | Poll(event: Event)
    | BeginRecovery
    | RecoveryPage(response: Response)

  const INITIAL := State(LogPolling.INITIAL, Idle, 0)

  /** The part of the stream that a step saves. */
  datatype Saved = Saved(from: nat, to: nat)

  function SavedBy(s: State, step: Step): (r: Saved)
    requires s.Ok()
    ensures r.from <= s.reached && r.from <= r.to <= |s.world.stream|
  {
    match step
    case Poll(e) =>
      var p := s.world.poll.Position();
      Saved(p, if TakesRows(s.world, e) && !e.outcome.save.RolledBack?
               then p + PageSize(s.world.stream, s.world.poll, e.outcome.count) else p)
    case BeginRecovery => Saved(0, 0)
    case RecoveryPage(response) =>
      if s.recovery.Idle? then Saved(0, 0)
      else
        var turn := TurnOf(|s.world.stream|, response, s.recovery.token);
        Saved(PositionOf(s.recovery.token), if turn.Done? then turn.end else turn.next)
  }

  function AddRows(w: World, rows: seq<LogEntry>): World {
    w.(poll := w.poll.(stored := w.poll.stored + rows))
  }

  function AfterPage(attempts: nat, turn: Turn): Recovery {
    if turn.Done? || attempts + 1 == MAX_ATTEMPTS then Idle else Paging(attempts + 1, Some(turn.next))
  }

  function Do(s: State, step: Step): State
    requires s.Ok()
  {
    var saved := SavedBy(s, step);
    var reached := Max(s.reached, saved.to);
    match step
    case Poll(e) => State(LogPolling.Step(s.world, e), s.recovery, reached)
    case BeginRecovery => if s.recovery.Idle? && |s.Rows()| == 0 then s.(recovery := Paging(0, None)) else s
    case RecoveryPage(response) =>
      if s.recovery.Idle? then s
      else
        var turn := TurnOf(|s.world.stream|, response, s.recovery.token);
        State(AddRows(s.world, Entries(s.world.stream[saved.from..saved.to])),
              AfterPage(s.recovery.attempts, turn), reached)
  }

  lemma PollKeepsOk(s: State, e: Event)
    requires s.Ok()
    ensures Do(s, Poll(e)).Ok()
  {
    RowsAfterStep(s.world, e);
    hide LogPolling.Step, TickStep;
  }

  lemma StepKeepsOk(s: State, step: Step)
    requires s.Ok()
    ensures Do(s, step).Ok()
  {
    if step.Poll? {
      PollKeepsOk(s, step.event);
    }
  }

  function Run(steps: seq<Step>): (s: State)
    ensures s.Ok()
  {
    if |steps| == 0 then INITIAL
    else
      var s, step := Run(steps[..|steps| - 1]), steps[|steps| - 1];
      StepKeepsOk(s, step);
      Do(s, step)
  }

  // ---------------------------------------------------------------- what a step adds

  lemma RowsAfter(s: State, step: Step)
    requires s.Ok()
    ensures var saved, s' := SavedBy(s, step), Do(s, step);
            && s'.Rows() == s.Rows() + Entries(s.world.stream[saved.from..saved.to])
            && s'.reached == Max(s.reached, saved.to)
            && s.world.stream <= s'.world.stream
  {
    var saved := SavedBy(s, step);
    if step.Poll? {
      RowsAfterStep(s.world, step.event);
      NothingSaved(s.world.stream, saved.from, s.Rows());
    } else if step.BeginRecovery? || s.recovery.Idle? {
      NothingSaved(s.world.stream, 0, s.Rows());
    }
    hide LogPolling.Step, TickStep, TurnOf;
  }

  lemma NothingSaved(stream: seq<LogEvent>, p: nat, rows: seq<LogEntry>)
    requires p <= |stream|
    ensures rows + Entries(stream[p..p]) == rows
  {
  }

  /** The step saves a page that does not begin where the furthest saved one ended. */
  predicate Resaves(s: State, step: Step)
    requires s.Ok()
  {
    var saved := SavedBy(s, step);
    saved.from < saved.to && saved.from < s.reached
  }

  predicate NothingResaved(steps: seq<Step>) {
    |steps| == 0 ||
    (NothingResaved(steps[..|steps| - 1]) && !Resaves(Run(steps[..|steps| - 1]), steps[|steps| - 1]))
  }

  lemma {:induction false} ExcessIsResaved(steps: seq<Step>)
    ensures var s := Run(steps); |s.Rows()| >= s.reached && (|s.Rows()| == s.reached <==> NothingResaved(steps))
  {
    if |steps| > 0 {
      var n := |steps| - 1;
      ExcessIsResaved(steps[..n]);
      RowsAfter(Run(steps[..n]), steps[n]);
      StepKeepsOk(Run(steps[..n]), steps[n]);
      hide Do, SavedBy, Entries;
    }
  }

  lemma {:induction false} PrefixWhenNothingResaved(steps: seq<Step>)
    requires NothingResaved(steps)
    ensures var s := Run(steps); s.Rows() == Entries(s.world.stream[..s.reached])
  {
    if |steps| > 0 {
      var n := |steps| - 1;
      PrefixWhenNothingResaved(steps[..n]);
      RowsAfter(Run(steps[..n]), steps[n]);
      StepKeepsOk(Run(steps[..n]), steps[n]);
      PrefixGrows(Run(steps[..n]), steps[n]);
      hide Do, SavedBy, Entries;
    }
  }

  lemma PrefixGrows(s: State, step: Step)
    requires s.Ok() && s.Rows() == Entries(s.world.stream[..s.reached]) && !Resaves(s, step)
    ensures Do(s, step).Ok()
    ensures Do(s, step).Rows() == Entries(Do(s, step).world.stream[..Do(s, step).reached])
  {
    StepKeepsOk(s, step);
    RowsAfter(s, step);
    var saved, s' := SavedBy(s, step), Do(s, step);
    hide Do, SavedBy, Entries;
    assert s'.world.stream[..s'.reached] == s.world.stream[..s'.reached];
    if saved.from < saved.to {
      EntriesSplit(s.world.stream, saved.from, saved.to - saved.from);
    } else {
      NothingSaved(s.world.stream, saved.from, s.Rows());
    }
  }

  /**
   * Over every interleaving of poller and recovery the rows are a prefix of the stream, each log once, if and only
   * if every page that was saved began where the furthest saved one ended.
   */
  lemma RowsArePrefixExactlyWhenNothingResaved(steps: seq<Step>)
    ensures var s := Run(steps); s.Rows() == Entries(s.world.stream[..s.reached]) <==> NothingResaved(steps)
  {
    ExcessIsResaved(steps);
    if NothingResaved(steps) {
      PrefixWhenNothingResaved(steps);
    }
  }

  /** Even then every log before the furthest position is stored. */
  lemma {:induction false} NothingReachedIsMissing(steps: seq<Step>)
    ensures var s := Run(steps); multiset(Entries(s.world.stream[..s.reached])) <= multiset(s.Rows())
  {
    if |steps| > 0 {
      var n := |steps| - 1;
      NothingReachedIsMissing(steps[..n]);
      var s, saved := Run(steps[..n]), SavedBy(Run(steps[..n]), steps[n]);
      RowsAfter(s, steps[n]);
      StepKeepsOk(s, steps[n]);
      ReachedGrows(s.world.stream, s.reached, saved, s.Rows());
      assert Run(steps).world.stream[..Run(steps).reached] == s.world.stream[..Run(steps).reached];
      hide Do, SavedBy, Entries;
    }
  }

  lemma EntriesConcat(a: seq<LogEvent>, b: seq<LogEvent>)
    ensures Entries(a + b) == Entries(a) + Entries(b)
  {
  }

  lemma TailKept<T>(a: seq<T>, b: seq<T>, again: seq<T>, more: seq<T>)
    requires multiset(a) <= multiset(b)
    ensures multiset(a + more) <= multiset(b + (again + more))
  {
    assert b + (again + more) == b + again + more;
  }

  lemma ReachedGrows(stream: seq<LogEvent>, reached: nat, saved: Saved, rows: seq<LogEntry>)
    requires saved.from <= reached <= |stream| && saved.from <= saved.to <= |stream|
    requires multiset(Entries(stream[..reached])) <= multiset(rows)
    ensures multiset(Entries(stream[..Max(reached, saved.to)])) <= multiset(rows + Entries(stream[saved.from..saved.to]))
  {
    hide Entries;
    if saved.to <= reached {
      SubMultisetExtends(Entries(stream[..reached]), rows, Entries(stream[saved.from..saved.to]));
    } else {
      var again, more := stream[saved.from..reached], stream[reached..saved.to];
      EntriesConcat(again, more);
      EntriesConcat(stream[..reached], more);
      assert stream[saved.from..saved.to] == again + more && stream[..saved.to] == stream[..reached] + more;
      TailKept(Entries(stream[..reached]), rows, Entries(again), Entries(more));
    }
  }

  // ---------------------------------------------------------------- who resaves

  predicate PollSaves(s: State, step: Step)
    requires s.Ok()
  {
    step.Poll? && TakesRows(s.world, step.event) && !step.event.outcome.save.RolledBack?
  }

  predicate PollerSavesNothing(steps: seq<Step>) {
    |steps| == 0 ||
    (PollerSavesNothing(steps[..|steps| - 1]) && !PollSaves(Run(steps[..|steps| - 1]), steps[|steps| - 1]))
  }

  /** Recoveries alone resave nothing, however often they run and however the stream grows between their pages. */
  lemma {:induction false} RecoveriesAloneResaveNothing(steps: seq<Step>)
    requires PollerSavesNothing(steps)
    ensures NothingResaved(steps)
    ensures Run(steps).recovery.Paging? ==> PositionOf(Run(steps).recovery.token) == Run(steps).reached
  {
    if |steps| > 0 {
      var n := |steps| - 1;
      RecoveriesAloneResaveNothing(steps[..n]);
      ExcessIsResaved(steps[..n]);
      StepOfRecovery(Run(steps[..n]), steps[n]);
    }
  }

  lemma StepOfRecovery(s: State, step: Step)
    requires s.Ok() && !PollSaves(s, step) && |s.Rows()| >= s.reached
    requires s.recovery.Paging? ==> PositionOf(s.recovery.token) == s.reached
    ensures !Resaves(s, step)
    ensures var s' := Do(s, step); s'.recovery.Paging? ==> PositionOf(s'.recovery.token) == s'.reached
  {
    hide LogPolling.Step, PageSize, TakesRows;
  }

  /** A poller that has no token when rows were saved before stores them again with its first page. */
  lemma TokenlessPollerResaves(steps: seq<Step>, e: Event)
    requires var s := Run(steps); s.world.poll.nextToken.None? && s.reached > 0 && PollSaves(s, Poll(e))
    ensures Resaves(Run(steps), Poll(e)) && !NothingResaved(steps + [Poll(e)])
    ensures var s := Run(steps + [Poll(e)]); s.Rows() != Entries(s.world.stream[..s.reached])
  {
    assert (steps + [Poll(e)])[..|steps|] == steps;
    RowsArePrefixExactlyWhenNothingResaved(steps + [Poll(e)]);
  }

  lemma RunAppend(steps: seq<Step>, step: Step)
    ensures Run(steps + [step]) == Do(Run(steps), step)
  {
    assert (steps + [step])[..|steps|] == steps;
  }

  lemma AfterTick(log: LogEvent)
    ensures Run([Poll(Grow([log]))] + [BeginRecovery] + [Poll(Tick(Page(1, true, Committed, Found(RUNNING))))]) ==
            State(World([log], PollState([ToEntry(log)], [ToEntry(log)], Some(1), 0, true)), Paging(0, None), 1)
  {
    var grow, begin := [Poll(Grow([log]))], [BeginRecovery];
    assert [] + grow == grow && Run([]) == INITIAL;
    RunAppend([], grow[0]);
    RunAppend(grow, begin[0]);
    RunAppend(grow + begin, Poll(Tick(Page(1, true, Committed, Found(RUNNING)))));
    hide Run, ToEntry;
    var started := State(World([log], PollState([], [], None, 0, true)), Paging(0, None), 0);
    assert Do(Do(INITIAL, grow[0]), begin[0]) == started;
    assert [log][0..1] == [log];
    assert Entries([log]) == [ToEntry(log)];
  }

  /** The check for rows and the pages of a recovery are apart: a tick in between stores one log twice. */
  lemma TickDuringRecoveryStoresTwice(log: LogEvent)
    ensures var s := Run([Poll(Grow([log]))] + [BeginRecovery] + [Poll(Tick(Page(1, true, Committed, Found(RUNNING))))]
                         + [RecoveryPage(Events(1, true, Committed))]);
            s.Rows() == [ToEntry(log), ToEntry(log)] && s.world.stream == [log]
  {
    AfterTick(log);
    var before := [Poll(Grow([log]))] + [BeginRecovery] + [Poll(Tick(Page(1, true, Committed, Found(RUNNING))))];
    RunAppend(before, RecoveryPage(Events(1, true, Committed)));
    hide Run, ToEntry;
    assert [log][0..1] == [log];
    assert Entries([log]) == [ToEntry(log)];
  }

  // ---------------------------------------------------------------- a recovery nothing interrupts

  /** Pages until the recovery is idle again. */
  function PageThrough(s: State, responses: seq<Response>): State
    requires s.Ok() && |responses| >= MAX_ATTEMPTS
    decreases if s.recovery.Paging? then MAX_ATTEMPTS - s.recovery.attempts else 0
  {
    if s.recovery.Idle? then s
    else
      var step := RecoveryPage(responses[s.recovery.attempts]);
      StepKeepsOk(s, step);
      PageThrough(Do(s, step), responses)
  }

  function EndOf(turn: Turn): nat {
    if turn.Done? then turn.end else turn.next
  }

  lemma LoopTurn(size: nat, responses: seq<Response>, attempts: nat, token: Option<nat>)
    requires |responses| >= MAX_ATTEMPTS && attempts < MAX_ATTEMPTS && PositionOf(token) <= size
    ensures var turn := TurnOf(size, responses[attempts], token);
            FetchFrom(size, responses, attempts, token).end ==
            if turn.Done? || attempts + 1 == MAX_ATTEMPTS then EndOf(turn)
            else FetchFrom(size, responses, attempts + 1, Some(turn.next)).end
  {
    hide TurnOf;
  }

  lemma PageStep(s: State, response: Response)
    requires s.Ok() && s.recovery.Paging?
    ensures var turn := TurnOf(|s.world.stream|, response, s.recovery.token);
            var s' := Do(s, RecoveryPage(response));
            && s'.Ok() && s'.recovery == AfterPage(s.recovery.attempts, turn) && s'.world.stream == s.world.stream
            && s'.Rows() == s.Rows() + Entries(s.world.stream[PositionOf(s.recovery.token)..EndOf(turn)])
  {
    StepKeepsOk(s, RecoveryPage(response));
    hide TurnOf;
  }

  /** Its steps come to the loop of fetchAndSaveAllLogs: same rows, and idle at the end. */
  lemma {:induction false} UninterruptedRecoveryIsTheLoop(s: State, responses: seq<Response>)
    requires s.Ok() && s.recovery.Paging? && |responses| >= MAX_ATTEMPTS
    ensures var p := PositionOf(s.recovery.token);
            var r := FetchFrom(|s.world.stream|, responses, s.recovery.attempts, s.recovery.token);
            var s' := PageThrough(s, responses);
            s'.recovery.Idle? && s'.Rows() == s.Rows() + Entries(s.world.stream[p..r.end])
    decreases MAX_ATTEMPTS - s.recovery.attempts
  {
    hide Do, FetchFrom, TurnOf, Entries;
    var stream, p, k := s.world.stream, PositionOf(s.recovery.token), s.recovery.attempts;
    PageStep(s, responses[k]);
    LoopTurn(|stream|, responses, k, s.recovery.token);
    var s1 := Do(s, RecoveryPage(responses[k]));
    if s1.recovery.Paging? {
      UninterruptedRecoveryIsTheLoop(s1, responses);
      var q := PositionOf(s1.recovery.token);
      var r := FetchFrom(|stream|, responses, k + 1, Some(q));
      EntriesConcat(stream[p..q], stream[q..r.end]);
      assert stream[p..r.end] == stream[p..q] + stream[q..r.end];
    }
  }
}
