/**
 * The CloudWatch poller of one execution. The log stream is an append-only sequence and a forward
 * token is a position in it. One poller per execution and non-overlapping ticks are assumed.
 */
module LogPolling {
  import opened Sequences
  import opened LogBuffer
  import opened ExecutionStatuses

  const MAX_RETRIES: nat := 5

  datatype LogEvent = LogEvent(timestamp: int, message: string)

  function DetectLogLevel(message: string): string {
    var lower := ToLower(message);
    if Contains(lower, "error") || Contains(lower, "fail") then "error"
    else if Contains(lower, "warn") || Contains(lower, "warning") then "warning"
    else "info"
  }

  function ToEntry(event: LogEvent): LogEntry {
    LogEntry(event.timestamp, event.message, DetectLogLevel(event.message))
  }

  function Entries(events: seq<LogEvent>): (r: seq<LogEntry>)
    ensures |r| == |events|
  {
    seq(|events|, i requires 0 <= i < |events| => ToEntry(events[i]))
  }

  lemma EntriesSplit(events: seq<LogEvent>, p: nat, n: nat)
    requires p + n <= |events|
    ensures Entries(events[..p + n]) == Entries(events[..p]) + Entries(events[p..p + n])
  {
  }

  // ---------------------------------------------------------------- one tick

  /** How saveLogs ends. Releasing the connection can throw after the commit, so rows may stay although it threw. */
  datatype SaveOutcome = Committed | RolledBack | FailedAfterCommit

  datatype StatusLookup = Found(status: ExecutionStatus) | NoExecution | LookupFailed

  /** What CloudWatch and the database answer during one tick. */
  datatype TickOutcome =
    | LogGroupMissing
    | FetchFailed
    | Page(count: nat, hasForwardToken: bool, save: SaveOutcome, lookup: StatusLookup)

  datatype PollState = PollState(
    stored: seq<LogEntry>,      // rows of the execution in the database, in insertion order
    pushed: seq<LogEntry>,      // history of the execution's ring buffer
    nextToken: Option<nat>,
    retryCount: nat,
    polling: bool)              // whether the pollers map has an entry
  {
    /** The stream position the next fetch starts from: no token means start from the head. */
    function Position(): nat {
      if nextToken.Some? then nextToken.value else 0
    }
  }

  /** The catch branch for anything but a missing log group. */
  function Fail(s: PollState): PollState {
    s.(retryCount := s.retryCount + 1, polling := s.polling && s.retryCount + 1 < MAX_RETRIES)
  }

  /** CloudWatch returns at most what the stream holds past the token. */
  function PageSize(stream: seq<LogEvent>, s: PollState, count: nat): (n: nat)
    ensures s.Position() <= |stream| ==> s.Position() + n <= |stream|
  {
    if s.Position() <= |stream| then Min(count, |stream| - s.Position()) else 0
  }

  function TickStep(stream: seq<LogEvent>, s: PollState, o: TickOutcome): PollState
    requires s.Position() <= |stream|
  {
    match o
    case LogGroupMissing => s
    case FetchFailed => Fail(s)
    case Page(count, hasForwardToken, save, lookup) =>
      var p, n := s.Position(), PageSize(stream, s, count);
      var logs := Entries(stream[p..p + n]);
      var ingested := IngestStep(s, logs, save);
      if n > 0 && !save.Committed? then Fail(ingested)
      else Advance(ingested, if hasForwardToken then Some(p + n) else None, lookup)
  }

  /** What a tick emits: the page, once it is saved. */
  function Announced(executionId: string, stream: seq<LogEvent>, s: PollState, o: TickOutcome): seq<(string, seq<LogEntry>)>
    requires s.Position() <= |stream|
  {
    if o.Page? && PageSize(stream, s, o.count) > 0 && o.save.Committed? then
      [(executionId, Entries(stream[s.Position()..s.Position() + PageSize(stream, s, o.count)]))]
    else []
  }

  /** Save the page, then buffer it; a failed save skips the buffer, and an empty page touches neither. */
  function IngestStep(s: PollState, logs: seq<LogEntry>, save: SaveOutcome): PollState {
    if |logs| == 0 then s
    else match save
      case Committed => s.(stored := s.stored + logs, pushed := s.pushed + logs)
      case RolledBack => s
      case FailedAfterCommit => s.(stored := s.stored + logs)
  }

  lemma EmptyPageIsIngested(s: PollState, logs: seq<LogEntry>, save: SaveOutcome)
    requires |logs| == 0
    ensures IngestStep(s, logs, save) == s
  {
  }

  /** After a page is in: move the token, forget earlier failures, stop when the execution is over. */
  function Advance(s: PollState, next: Option<nat>, lookup: StatusLookup): PollState {
    var fetched := s.(nextToken := next, retryCount := 0);
    match lookup
    case Found(status) => if IsTerminal(status) then fetched.(polling := false) else fetched
    case NoExecution => fetched
    case LookupFailed => Fail(fetched)
  }

  class LogStorage {
    var rows: seq<LogEntry>

    constructor ()
      ensures rows == []
    {
      rows := [];
    }

    /** saveLogs: an empty batch touches nothing, otherwise one transaction for the whole batch. */
    method SaveLogs(logs: seq<LogEntry>, outcome: SaveOutcome) returns (threw: bool)
      modifies this
      ensures threw == (|logs| > 0 && !outcome.Committed?)
      ensures rows == old(rows) + if outcome.RolledBack? then [] else logs
    {
      if |logs| == 0 {
        return false;
      }
      var saved := rows;
      rows := rows + logs;
      if outcome.RolledBack? {
        rows := saved;
        return true;
      }
      return outcome.FailedAfterCommit?;
    }
  }

  /** The variables that startPolling captures, and the entry of the pollers map. */
  class Poller {
    const executionId: string
    const logStorage: LogStorage
    const logBuffer: LogBufferService
    var nextToken: Option<nat>
    var retryCount: nat
    var polling: bool

    ghost predicate Valid()
      reads this, logBuffer, logBuffer.Repr
    {
      logBuffer.Valid() && this !in logBuffer.Repr && logStorage !in logBuffer.Repr
    }

    ghost function State(): PollState
      reads this, logStorage, logBuffer
    {
      PollState(logStorage.rows, HistoryOf(logBuffer.Contents, executionId), nextToken, retryCount, polling)
    }

    constructor (executionId: string, logStorage: LogStorage, logBuffer: LogBufferService)
      requires logBuffer.Valid() && logStorage !in logBuffer.Repr
      ensures Valid() && this.executionId == executionId
      ensures this.logStorage == logStorage && this.logBuffer == logBuffer
      ensures State() == PollState(logStorage.rows, HistoryOf(logBuffer.Contents, executionId), None, 0, true)
    {
      this.executionId, this.logStorage, this.logBuffer := executionId, logStorage, logBuffer;
      nextToken, retryCount, polling := None, 0, true;
    }

    method StopPolling()
      modifies this`polling
      ensures !polling
    {
      polling := false;
    }

    method CountFailure()
      modifies this`retryCount, this`polling
      ensures State() == Fail(old(State()))
    {
      retryCount := retryCount + 1;
      if retryCount >= MAX_RETRIES {
        StopPolling();
      }
    }

    method Ingest(logs: seq<LogEntry>, save: SaveOutcome) returns (threw: bool)
      requires Valid() && |logs| > 0
      modifies logStorage, logBuffer.Repr
      ensures Valid()
      ensures threw == !save.Committed?
      ensures State() == IngestStep(old(State()), logs, save)
      ensures logBuffer.emitted == old(logBuffer.emitted) + if threw then [] else [(executionId, logs)]
      ensures forall id :: id != executionId ==>
                HistoryOf(logBuffer.Contents, id) == HistoryOf(old(logBuffer.Contents), id)
    {
      hide LogBufferService.Valid;
      threw := logStorage.SaveLogs(logs, save);
      if !threw {
        logBuffer.AddLogs(executionId, logs);
      }
    }

    /** One interval callback: a page that was saved is announced, and buffers of other executions are never touched. */
    method Tick(stream: seq<LogEvent>, o: TickOutcome)
      requires Valid() && State().Position() <= |stream|
      modifies this, logStorage, logBuffer.Repr
      ensures Valid()
      ensures State() == TickStep(stream, old(State()), o)
      ensures logBuffer.emitted == old(logBuffer.emitted) + Announced(executionId, stream, old(State()), o)
      ensures forall id :: id != executionId ==>
                HistoryOf(logBuffer.Contents, id) == HistoryOf(old(logBuffer.Contents), id)
    {
      hide LogBufferService.Valid, IngestStep, Advance, Fail;
      if o.LogGroupMissing? {
        return;
      }
      if o.FetchFailed? {
        CountFailure();
        return;
      }
      var p := if nextToken.Some? then nextToken.value else 0;
      var n := Min(o.count, |stream| - p);
      var logs := Entries(stream[p..p + n]);
      if n > 0 {
        var threw := Ingest(logs, o.save);
        if threw {
          CountFailure();
          return;
        }
      } else {
        EmptyPageIsIngested(State(), logs, o.save);
      }
      FinishTick(if o.hasForwardToken then Some(p + n) else None, o.lookup);
    }

    method FinishTick(next: Option<nat>, lookup: StatusLookup)
      modifies this`nextToken, this`retryCount, this`polling
      ensures State() == Advance(old(State()), next, lookup)
    {
      nextToken := next;
      retryCount := 0;
      if lookup.LookupFailed? {
        CountFailure();
      } else if lookup.Found? && IsTerminal(lookup.status) {
        StopPolling();
      }
    }
  }

  // ---------------------------------------------------------------- runs

  datatype World = World(stream: seq<LogEvent>, poll: PollState) {
    predicate InStream() { poll.Position() <= |stream| }

    /** The part of the stream the poller has moved past. */
    function Seen(): seq<LogEvent>
      requires InStream()
    {
      stream[..poll.Position()]
    }
  }

  /** Start is startPolling once no poller is left: it captures fresh variables, so it reads from the head again. */
  datatype Event = Grow(more: seq<LogEvent>) | Tick(outcome: TickOutcome) | Stop | Start

  const INITIAL := World([], PollState([], [], None, 0, true))

  function Step(w: World, e: Event): (r: World)
    requires w.InStream()
    ensures r.InStream()
  {
    match e
    case Grow(more) => w.(stream := w.stream + more)
    case Tick(o) => if w.poll.polling then w.(poll := TickStep(w.stream, w.poll, o)) else w
    case Stop => w.(poll := w.poll.(polling := false))
    case Start =>
      if w.poll.polling then w
      else w.(poll := w.poll.(nextToken := None, retryCount := 0, polling := true))
  }

  function Run(events: seq<Event>): (w: World)
    ensures w.InStream()
  {
    if |events| == 0 then INITIAL else Step(Run(events[..|events| - 1]), events[|events| - 1])
  }

  /** The page tick of e takes a non-empty page off the stream. */
  predicate TakesRows(w: World, e: Event)
    requires w.InStream()
  {
    && e.Tick? && w.poll.polling && e.outcome.Page?
    && PageSize(w.stream, w.poll, e.outcome.count) > 0
  }

  /** The event makes a later fetch return rows that are stored already. */
  predicate Damaging(w: World, e: Event)
    requires w.InStream()
  {
    match e
    case Grow(_) => false
    case Stop => false
    case Start => !w.poll.polling && w.poll.Position() > 0
    case Tick(o) =>
      && w.poll.polling && o.Page?
      && if TakesRows(w, e) && !o.save.Committed? then o.save.FailedAfterCommit?
         else !o.hasForwardToken && w.poll.Position() + PageSize(w.stream, w.poll, o.count) > 0
  }

  predicate Clean(events: seq<Event>) {
    |events| == 0 ||
    (Clean(events[..|events| - 1]) && !Damaging(Run(events[..|events| - 1]), events[|events| - 1]))
  }

  /** How many stored rows lie beyond the part of the stream that was moved past. */
  function Excess(w: World): int {
    |w.poll.stored| - w.poll.Position()
  }

  lemma ExcessStep(w: World, e: Event)
    requires w.InStream()
    ensures Excess(Step(w, e)) >= Excess(w)
    ensures Excess(Step(w, e)) > Excess(w) <==> Damaging(w, e)
  {
  }

  lemma {:induction false} ExcessIsDamage(events: seq<Event>)
    ensures Excess(Run(events)) >= 0
    ensures Excess(Run(events)) == 0 <==> Clean(events)
  {
    if |events| > 0 {
      ExcessIsDamage(events[..|events| - 1]);
      ExcessStep(Run(events[..|events| - 1]), events[|events| - 1]);
    }
  }

  lemma CleanStep(w: World, e: Event)
    requires w.InStream() && w.poll.stored == Entries(w.Seen()) && !Damaging(w, e)
    ensures Step(w, e).poll.stored == Entries(Step(w, e).Seen())
  {
    hide Entries;
    if TakesRows(w, e) {
      EntriesSplit(w.stream, w.poll.Position(), PageSize(w.stream, w.poll, e.outcome.count));
    }
    if e.Grow? {
      assert Step(w, e).Seen() == w.Seen();
    }
  }

  lemma {:induction false} CleanRunStoresPrefix(events: seq<Event>)
    requires Clean(events)
    ensures Run(events).poll.stored == Entries(Run(events).Seen())
  {
    if |events| > 0 {
      CleanRunStoresPrefix(events[..|events| - 1]);
      CleanStep(Run(events[..|events| - 1]), events[|events| - 1]);
    }
  }

  /**
   * In every run, the stored rows are exactly the part of the stream before the token, without gap or
   * duplicate, if and only if no page was committed by a save that then threw, no response lost the
   * forward token after rows were read, and polling was never started again after rows were read.
   */
  lemma StoredIsPrefixExactlyWhenClean(events: seq<Event>)
    ensures Run(events).poll.stored == Entries(Run(events).Seen()) <==> Clean(events)
  {
    ExcessIsDamage(events);
    if Clean(events) {
      CleanRunStoresPrefix(events);
    }
  }

  /** The rows a page tick takes off the stream. */
  function PageOf(w: World, e: Event): seq<LogEntry>
    requires w.InStream() && TakesRows(w, e)
  {
    Entries(w.stream[w.poll.Position()..w.poll.Position() + PageSize(w.stream, w.poll, e.outcome.count)])
  }

  lemma RowsAfterStep(w: World, e: Event)
    requires w.InStream()
    ensures !TakesRows(w, e) || e.outcome.save.RolledBack? ==>
              && Step(w, e).poll.stored == w.poll.stored && Step(w, e).poll.pushed == w.poll.pushed
              && Step(w, e).poll.Position() in {w.poll.Position(), 0}
    ensures TakesRows(w, e) && e.outcome.save.FailedAfterCommit? ==>
              && Step(w, e).poll.stored == w.poll.stored + PageOf(w, e) && Step(w, e).poll.pushed == w.poll.pushed
              && Step(w, e).poll.Position() == w.poll.Position()
    ensures TakesRows(w, e) && e.outcome.save.Committed? ==>
              && Step(w, e).poll.stored == w.poll.stored + PageOf(w, e)
              && Step(w, e).poll.pushed == w.poll.pushed + PageOf(w, e)
              && Step(w, e).poll.Position() in {w.poll.Position() + |PageOf(w, e)|, 0}
    ensures w.stream <= Step(w, e).stream
    ensures e.Tick? ==> Step(w, e).stream == w.stream
  {
    hide Entries, PageSize, IsTerminal;
  }

  lemma NothingSeen(stream: seq<LogEvent>)
    ensures Entries(stream[..0]) == []
  {
  }

  lemma SeenAfterStep(w: World, e: Event)
    requires w.InStream()
    ensures var seen, seen' := Entries(w.Seen()), Entries(Step(w, e).Seen());
            seen' == [] || seen' == seen
            || (TakesRows(w, e) && e.outcome.save.Committed? && seen' == seen + PageOf(w, e))
  {
    RowsAfterStep(w, e);
    NothingSeen(Step(w, e).stream);
    hide Step, Entries, PageSize;
    var p, w' := w.poll.Position(), Step(w, e);
    assert w'.stream[..p] == w.Seen();
    if TakesRows(w, e) {
      EntriesSplit(w.stream, p, PageSize(w.stream, w.poll, e.outcome.count));
    }
  }

  lemma NoGapStep(w: World, e: Event)
    requires w.InStream()
    requires multiset(Entries(w.Seen())) <= multiset(w.poll.stored)
    requires multiset(w.poll.pushed) <= multiset(w.poll.stored)
    ensures multiset(Entries(Step(w, e).Seen())) <= multiset(Step(w, e).poll.stored)
    ensures multiset(Step(w, e).poll.pushed) <= multiset(Step(w, e).poll.stored)
  {
    SeenAfterStep(w, e);
    RowsAfterStep(w, e);
    if TakesRows(w, e) {
      SubMultisetExtends(Entries(w.Seen()), w.poll.stored, PageOf(w, e));
      SubMultisetExtends(w.poll.pushed, w.poll.stored, PageOf(w, e));
    }
  }

  lemma SubMultisetExtends<T>(a: seq<T>, b: seq<T>, more: seq<T>)
    requires multiset(a) <= multiset(b)
    ensures multiset(a + more) <= multiset(b + more) && multiset(a) <= multiset(b + more)
  {
  }

  /** Even in damaged runs nothing before the token is missing, and nothing reaches the buffer without being stored. */
  lemma {:induction false} NothingIsLost(events: seq<Event>)
    ensures multiset(Entries(Run(events).Seen())) <= multiset(Run(events).poll.stored)
    ensures multiset(Run(events).poll.pushed) <= multiset(Run(events).poll.stored)
  {
    if |events| > 0 {
      NothingIsLost(events[..|events| - 1]);
      NoGapStep(Run(events[..|events| - 1]), events[|events| - 1]);
    }
  }

  /** A release failure after the commit stores the page twice. */
  lemma DuplicateAfterReleaseFailure(e: LogEvent)
    ensures Run([Grow([e]),
                 Tick(Page(1, true, FailedAfterCommit, Found(RUNNING))),
                 Tick(Page(1, true, Committed, Found(RUNNING)))]).poll.stored == [ToEntry(e), ToEntry(e)]
  {
    var events := [Grow([e]),
                   Tick(Page(1, true, FailedAfterCommit, Found(RUNNING))),
                   Tick(Page(1, true, Committed, Found(RUNNING)))];
    assert events[..2][..1][..0] == [];
    assert Run(events[..2][..1]).stream == [e];
    assert Run(events[..2]).poll.stored == [ToEntry(e)];
  }

  // ---------------------------------------------------------------- retries and stopping

  predicate Fails(w: World, e: Event)
    requires w.InStream()
  {
    e.Tick? && w.poll.polling &&
    (e.outcome.FetchFailed? || (TakesRows(w, e) && !e.outcome.save.Committed?))
  }

  predicate PageComesIn(w: World, e: Event)
    requires w.InStream()
  {
    e.Tick? && w.poll.polling && e.outcome.Page? && !Fails(w, e)
  }

  /** A page came in, or polling was started again. */
  predicate Resets(w: World, e: Event)
    requires w.InStream()
  {
    PageComesIn(w, e) || (e.Start? && !w.poll.polling)
  }

  /** The position of the last event that resets the count; the run itself starts with a count of zero. */
  function LastReset(events: seq<Event>): (n: nat)
    ensures n <= |events|
  {
    if |events| == 0 then 0
    else
      var n := |events| - 1;
      if Resets(Run(events[..n]), events[n]) then n else LastReset(events[..n])
  }

  /** A failed fetch or save, or a status lookup that fails right after a page came in. */
  predicate CountsAsFailure(w: World, e: Event)
    requires w.InStream()
  {
    Fails(w, e) || (PageComesIn(w, e) && e.outcome.lookup.LookupFailed?)
  }

  /** How many events from a position on count as failures. */
  function FailuresFrom(events: seq<Event>, from: nat): nat {
    if |events| <= from then 0
    else
      var n := |events| - 1;
      FailuresFrom(events[..n], from) + if CountsAsFailure(Run(events[..n]), events[n]) then 1 else 0
  }

  /** The failures since the last page or start; a tick that found no log group is none. */
  function FailureStreak(events: seq<Event>): nat {
    FailuresFrom(events, LastReset(events))
  }

  lemma RetryStep(w: World, e: Event)
    requires w.InStream()
    ensures Step(w, e).poll.retryCount ==
            (if Resets(w, e) then 0 else w.poll.retryCount) + (if CountsAsFailure(w, e) then 1 else 0)
    ensures (w.poll.polling ==> w.poll.retryCount < MAX_RETRIES) ==>
            (Step(w, e).poll.polling ==> Step(w, e).poll.retryCount < MAX_RETRIES)
  {
  }

  lemma {:induction false} RetryCountIsFailureStreak(events: seq<Event>)
    ensures Run(events).poll.retryCount == FailureStreak(events)
    ensures Run(events).poll.polling ==> FailureStreak(events) < MAX_RETRIES
  {
    if |events| > 0 {
      var n := |events| - 1;
      RetryCountIsFailureStreak(events[..n]);
      RetryStep(Run(events[..n]), events[n]);
      assert LastReset(events) == n ==> FailuresFrom(events[..n], n) == 0;
      hide Step, Resets, CountsAsFailure;
    }
  }

  /** Polling ends only on an explicit stop, a finished execution, or the fifth failure in a row. */
  lemma StopsOnlyForAReason(events: seq<Event>, e: Event)
    requires Run(events).poll.polling && !Run(events + [e]).poll.polling
    ensures || e.Stop?
            || (e.Tick? && e.outcome.Page? && e.outcome.lookup.Found? && IsTerminal(e.outcome.lookup.status))
            || (Fails(Run(events), e) && FailureStreak(events + [e]) == MAX_RETRIES)
  {
    assert (events + [e])[..|events|] == events;
    RetryCountIsFailureStreak(events);
    RetryCountIsFailureStreak(events + [e]);
  }

  /** And each of those reasons does end it. */
  lemma ReasonsStop(events: seq<Event>, e: Event)
    requires Run(events).poll.polling
    requires || e.Stop?
             || (e.Tick? && e.outcome.Page? && !Fails(Run(events), e)
                 && e.outcome.lookup.Found? && IsTerminal(e.outcome.lookup.status))
             || (Fails(Run(events), e) && FailureStreak(events) == MAX_RETRIES - 1)
    ensures !Run(events + [e]).poll.polling
  {
    assert (events + [e])[..|events|] == events;
    RetryCountIsFailureStreak(events);
  }
}
