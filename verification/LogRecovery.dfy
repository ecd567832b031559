/**
 * Bulk recovery of an execution's logs: the bounded paging loop, and the automatic recovery that only
 * runs when no row is stored yet.
 */
module LogRecovery {
  import opened Sequences
  import opened LogBuffer
  import opened LogPolling

  const MAX_ATTEMPTS: nat := 10

  /**
   * CloudWatch's answer to one fetch: at most `count` events past the token, and how saving them ends. The stream
   * is the one of the last fetch; a stream that grew in between shows as earlier pages with a smaller count.
   */
  datatype Response =
    | GroupMissing
    | FetchError
    | Events(count: nat, hasToken: bool, save: SaveOutcome)

  datatype Outcome = Returned(count: nat) | Threw

  /** `end` is the stream position up to which rows were added. */
  datatype Recovered = Recovered(end: nat, outcome: Outcome, fetches: nat)

  function PositionOf(token: Option<nat>): nat {
    if token.Some? then token.value else 0
  }

  /** One pass of the loop: it either ends the call or carries a new token into the next fetch. */
  datatype Turn = Done(end: nat, outcome: Outcome) | Continue(next: nat)

  function TurnOf(size: nat, response: Response, token: Option<nat>): (t: Turn)
    requires PositionOf(token) <= size
    ensures PositionOf(token) <= (if t.Done? then t.end else t.next) <= size
  {
    var p := PositionOf(token);
    match response
    case GroupMissing => Done(p, Returned(0))
    case FetchError => Done(p, Threw)
    case Events(count, hasToken, save) =>
      var n := Min(count, size - p);
      if n > 0 && save.RolledBack? then Done(p, Threw)
      else if n > 0 && save.FailedAfterCommit? then Done(p + n, Threw)
      else if !hasToken || token == Some(p + n) then Done(p + n, Returned(p + n))
      else Continue(p + n)
  }

  /** The loop from a given attempt on, over a stream of the given size. */
  function FetchFrom(size: nat, responses: seq<Response>, attempts: nat, token: Option<nat>): (r: Recovered)
    requires |responses| >= MAX_ATTEMPTS && attempts <= MAX_ATTEMPTS && PositionOf(token) <= size
    ensures PositionOf(token) <= r.end <= size && attempts <= r.fetches <= MAX_ATTEMPTS
    decreases MAX_ATTEMPTS - attempts
  {
    if attempts == MAX_ATTEMPTS then Recovered(PositionOf(token), Returned(PositionOf(token)), attempts)
    else match TurnOf(size, responses[attempts], token)
      case Done(end, outcome) => Recovered(end, outcome, attempts + 1)
      case Continue(next) => FetchFrom(size, responses, attempts + 1, Some(next))
  }

  /**
   * fetchAndSaveAllLogs; an execution that does not exist is an error before any fetch. Whatever fails,
   * the rows added are a prefix of the stream.
   */
  method FetchAndSaveAllLogs(storage: LogStorage, executionExists: bool, stream: seq<LogEvent>, responses: seq<Response>)
    returns (r: Outcome, ghost fetches: nat)
    requires |responses| >= MAX_ATTEMPTS
    modifies storage
    ensures !executionExists ==> r == Threw && storage.rows == old(storage.rows) && fetches == 0
    ensures executionExists ==>
              var spec := FetchFrom(|stream|, responses, 0, None);
              && r == spec.outcome && storage.rows == old(storage.rows) + Entries(stream[..spec.end])
              && fetches == spec.fetches && 1 <= fetches <= MAX_ATTEMPTS
  {
    fetches := 0;
    if !executionExists {
      return Threw, 0;
    }
    hide Entries, TurnOf;
    var nextToken: Option<nat> := None;
    var attempts := 0;
    NoRows(stream, storage.rows);
    while attempts < MAX_ATTEMPTS
      invariant attempts <= MAX_ATTEMPTS && PositionOf(nextToken) <= |stream|
      invariant storage.rows == old(storage.rows) + Entries(stream[..PositionOf(nextToken)])
      invariant fetches == attempts
      invariant FetchFrom(|stream|, responses, attempts, nextToken) == FetchFrom(|stream|, responses, 0, None)
    {
      var turn := FetchPage(storage, stream, responses[attempts], nextToken, old(storage.rows));
      attempts := attempts + 1;
      fetches := fetches + 1;
      if turn.Done? {
        return turn.outcome, fetches;
      }
      nextToken := Some(turn.next);
    }
    return Returned(PositionOf(nextToken)), fetches;
  }

  /** The loop body; totalLogsSaved is the token's position, since the first fetch starts from the head. */
  method FetchPage(storage: LogStorage, stream: seq<LogEvent>, response: Response, nextToken: Option<nat>,
                   ghost before: seq<LogEntry>) returns (turn: Turn)
    requires PositionOf(nextToken) <= |stream| && storage.rows == before + Entries(stream[..PositionOf(nextToken)])
    modifies storage
    ensures turn == TurnOf(|stream|, response, nextToken)
    ensures storage.rows == before + Entries(stream[..if turn.Done? then turn.end else turn.next])
  {
    hide Entries;
    var totalLogsSaved := PositionOf(nextToken);
    if response.GroupMissing? {
      return Done(totalLogsSaved, Returned(0));
    }
    if response.FetchError? {
      return Done(totalLogsSaved, Threw);
    }
    var n := Min(response.count, |stream| - totalLogsSaved);
    if n > 0 {
      RowsGrow(stream, totalLogsSaved, n, before);
      var threw := storage.SaveLogs(Entries(stream[totalLogsSaved..totalLogsSaved + n]), response.save);
      if threw {
        return Done(if response.save.RolledBack? then totalLogsSaved else totalLogsSaved + n, Threw);
      }
      totalLogsSaved := totalLogsSaved + n;
    }
    if !response.hasToken || nextToken == Some(totalLogsSaved) {
      return Done(totalLogsSaved, Returned(totalLogsSaved));
    }
    return Continue(totalLogsSaved);
  }

  lemma NoRows(stream: seq<LogEvent>, rows: seq<LogEntry>)
    ensures rows + Entries(stream[..0]) == rows
  {
  }

  lemma RowsGrow(stream: seq<LogEvent>, p: nat, n: nat, rows: seq<LogEntry>)
    requires p + n <= |stream|
    ensures rows + Entries(stream[..p]) + Entries(stream[p..p + n]) == rows + Entries(stream[..p + n])
    ensures rows + Entries(stream[..p]) + [] == rows + Entries(stream[..p])
  {
    hide Entries;
    EntriesSplit(stream, p, n);
    var before, page := Entries(stream[..p]), Entries(stream[p..p + n]);
    assert rows + before + page == rows + (before + page);
  }

  // ---------------------------------------------------------------- what is returned

  /** The answer is a page that the loop reads on from: it is saved, it has a token, and only a first one may be empty. */
  predicate ReadsOn(response: Response, size: nat, attempts: nat, position: nat) {
    && response.Events? && response.hasToken
    && (if position < size && response.count > 0 then response.save.Committed? else attempts == 0)
  }

  /** The fetches read on for a while, with some row among them, and then the log group is gone. */
  predicate GroupVanishes(size: nat, responses: seq<Response>, attempts: nat, position: nat)
    requires |responses| >= MAX_ATTEMPTS && attempts <= MAX_ATTEMPTS && position <= size
    decreases MAX_ATTEMPTS - attempts
  {
    && attempts < MAX_ATTEMPTS
    && (if ReadsOn(responses[attempts], size, attempts, position)
        then GroupVanishes(size, responses, attempts + 1, position + Min(responses[attempts].count, size - position))
        else responses[attempts].GroupMissing? && position > 0)
  }

  /** The answer ends the loop with an exception or an unjust zero although some row is in. */
  predicate EndsBadly(size: nat, response: Response, position: nat) {
    match response
    case GroupMissing => position > 0
    case FetchError => position > 0
    case Events(count, _, save) =>
      position < size && count > 0 && (save.FailedAfterCommit? || (save.RolledBack? && position > 0))
  }

  /** The fetches read on for a while, and then one cuts the loop short. */
  predicate CutShort(size: nat, responses: seq<Response>, attempts: nat, position: nat)
    requires |responses| >= MAX_ATTEMPTS && attempts <= MAX_ATTEMPTS && position <= size
    decreases MAX_ATTEMPTS - attempts
  {
    && attempts < MAX_ATTEMPTS
    && (if ReadsOn(responses[attempts], size, attempts, position)
        then CutShort(size, responses, attempts + 1, position + Min(responses[attempts].count, size - position))
        else EndsBadly(size, responses[attempts], position))
  }

  lemma TurnReadsOn(size: nat, response: Response, attempts: nat, token: Option<nat>)
    requires PositionOf(token) <= size && (token.Some? <==> attempts > 0)
    ensures var turn, p := TurnOf(size, response, token), PositionOf(token);
            && (turn.Continue? <==> ReadsOn(response, size, attempts, p))
            && (turn.Continue? ==> response.Events? && turn.next == p + Min(response.count, size - p))
            && (turn.Done? && turn.outcome.Returned? ==> turn.outcome.count == if response.GroupMissing? then 0 else turn.end)
            && (turn.Done? && response.GroupMissing? ==> turn.outcome == Returned(0) && turn.end == p)
            && (turn.Done? ==> (turn.end > 0 && !(turn.outcome.Returned? && turn.outcome.count > 0) <==> EndsBadly(size, response, p)))
  {
  }

  lemma {:induction false} OutcomeFrom(size: nat, responses: seq<Response>, attempts: nat, token: Option<nat>)
    requires |responses| >= MAX_ATTEMPTS && attempts <= MAX_ATTEMPTS && PositionOf(token) <= size
    requires token.Some? <==> attempts > 0
    ensures var r, p := FetchFrom(size, responses, attempts, token), PositionOf(token);
            && (r.outcome.Returned? ==> r.outcome.count in {r.end, 0})
            && (r.outcome.Returned? && r.outcome.count != r.end <==> GroupVanishes(size, responses, attempts, p))
            && (r.end > 0 && !(r.outcome.Returned? && r.outcome.count > 0) <==> CutShort(size, responses, attempts, p))
    decreases MAX_ATTEMPTS - attempts
  {
    hide TurnOf, ReadsOn;
    if attempts < MAX_ATTEMPTS {
      TurnReadsOn(size, responses[attempts], attempts, token);
      var turn := TurnOf(size, responses[attempts], token);
      if turn.Continue? {
        OutcomeFrom(size, responses, attempts + 1, Some(turn.next));
      }
    }
  }

  /**
   * A returned number is the number of rows added, or zero. It is wrong exactly when the log group vanishes after
   * rows had been saved, which the answers alone tell.
   */
  lemma ReturnedCountIsRowsAdded(size: nat, responses: seq<Response>)
    requires |responses| >= MAX_ATTEMPTS
    ensures var r := FetchFrom(size, responses, 0, None);
            && (r.outcome.Returned? ==> r.outcome.count in {r.end, 0})
            && (r.outcome.Returned? && r.outcome.count != r.end <==> GroupVanishes(size, responses, 0, 0))
  {
    OutcomeFrom(size, responses, 0, None);
  }

  /** The group disappears between two fetches: the first page stays, zero is reported. */
  lemma PartialRecoveryReportsZero(size: nat, responses: seq<Response>)
    requires |responses| >= MAX_ATTEMPTS && size > 0
    requires responses[0] == Events(1, true, Committed) && responses[1] == GroupMissing
    ensures FetchFrom(size, responses, 0, None) == Recovered(1, Returned(0), 2)
  {
  }

  // ---------------------------------------------------------------- completeness

  /** A healthy CloudWatch that returns full pages of at most `page` events. */
  predicate FullPages(responses: seq<Response>, page: nat) {
    |responses| >= MAX_ATTEMPTS && forall k :: 0 <= k < MAX_ATTEMPTS ==> responses[k] == Events(page, true, Committed)
  }

  /** How many events the remaining fetches can bring. */
  function Room(fetches: nat, page: nat): nat {
    if fetches == 0 then 0 else page + Room(fetches - 1, page)
  }

  lemma {:induction false} RoomIsProduct(fetches: nat, page: nat)
    ensures Room(fetches, page) == fetches * page
  {
    if fetches > 0 {
      RoomIsProduct(fetches - 1, page);
    }
  }

  lemma FullTurn(size: nat, page: nat, token: Option<nat>)
    requires PositionOf(token) <= size
    ensures var end := Min(size, PositionOf(token) + page);
            TurnOf(size, Events(page, true, Committed), token) ==
            if token == Some(end) then Done(end, Returned(end)) else Continue(end)
  {
  }

  lemma {:induction false} FullPagesFrom(size: nat, responses: seq<Response>, page: nat, attempts: nat, token: Option<nat>)
    requires FullPages(responses, page) && page > 0
    requires attempts <= MAX_ATTEMPTS && PositionOf(token) <= size
    ensures var end := Min(size, PositionOf(token) + Room(MAX_ATTEMPTS - attempts, page));
            var r := FetchFrom(size, responses, attempts, token);
            r.end == end && r.outcome == Returned(end)
    decreases MAX_ATTEMPTS - attempts
  {
    hide TurnOf;
    if attempts < MAX_ATTEMPTS {
      FullTurn(size, page, token);
      assert responses[attempts] == Events(page, true, Committed);
      var turn := TurnOf(size, responses[attempts], token);
      if turn.Continue? {
        FullPagesFrom(size, responses, page, attempts + 1, Some(turn.next));
      }
    }
  }

  lemma WholeExactlyAtEnd(stream: seq<LogEvent>, end: nat)
    requires end <= |stream|
    ensures Entries(stream[..end]) == Entries(stream) <==> end == |stream|
  {
    assert stream[..|stream|] == stream;
    assert |Entries(stream[..end])| == end && |Entries(stream)| == |stream|;
  }

  /** What ten fetches can bring. */
  function TenPages(page: nat): nat {
    MAX_ATTEMPTS * page
  }

  lemma RoomOfTen(page: nat)
    ensures Room(MAX_ATTEMPTS, page) == TenPages(page)
  {
    RoomIsProduct(MAX_ATTEMPTS, page);
    hide Room;
  }

  /** With full pages the recovery stores the first ten pages, so all of the stream exactly when it fits in ten. */
  lemma RecoversTenPages(stream: seq<LogEvent>, responses: seq<Response>, page: nat)
    requires FullPages(responses, page) && page > 0
    ensures var r := FetchFrom(|stream|, responses, 0, None);
            && r.end == Min(|stream|, TenPages(page)) && r.outcome == Returned(r.end)
            && (Entries(stream[..r.end]) == Entries(stream) <==> |stream| <= TenPages(page))
  {
    FullPagesFrom(|stream|, responses, page, 0, None);
    RoomOfTen(page);
    WholeExactlyAtEnd(stream, FetchFrom(|stream|, responses, 0, None).end);
    hide FetchFrom, FullPages, Entries, TenPages, Room;
  }

  // ---------------------------------------------------------------- automatic recovery

  /** What autoRecoverLogsForExecution reads to find the log group; empty strings are absent values. */
  datatype Project = Project(logGroup: string, nodeEnv: string, userId: string, projectId: string)

  function LogGroupOf(p: Project): Option<string> {
    var environment := if p.nodeEnv == "production" then "production" else "development";
    if p.logGroup != "" then Some(p.logGroup)
    else if p.userId != "" && p.projectId != "" then
      Some("/aws/codebuild/otto/" + environment + "/" + p.userId + "/" + p.projectId)
    else if p.projectId != "" then Some("/aws/codebuild/otto/" + environment + "/" + p.projectId)
    else None
  }

  /** One automatic recovery: what the stream and the services are when it happens. */
  datatype Attempt = Attempt(more: seq<LogEvent>, project: Project, executionExists: bool, responses: seq<Response>)

  function Recover(stream: seq<LogEvent>, stored: seq<LogEntry>, a: Attempt): (r: (seq<LogEntry>, nat))
    requires |a.responses| >= MAX_ATTEMPTS
  {
    if |stored| > 0 then (stored, |stored|)
    else if LogGroupOf(a.project).None? || !a.executionExists then (stored, 0)
    else
      var r := FetchFrom(|stream|, a.responses, 0, None);
      (Entries(stream[..r.end]), if r.outcome.Returned? then r.outcome.count else 0)
  }

  method AutoRecoverLogsForExecution(storage: LogStorage, stream: seq<LogEvent>, a: Attempt) returns (count: nat)
    requires |a.responses| >= MAX_ATTEMPTS
    modifies storage
    ensures (storage.rows, count) == Recover(stream, old(storage.rows), a)
  {
    var existingLogCount := |storage.rows|;
    if existingLogCount > 0 {
      return existingLogCount;
    }
    if LogGroupOf(a.project).None? {
      return 0;
    }
    var r, _ := FetchAndSaveAllLogs(storage, a.executionExists, stream, a.responses);
    assert a.executionExists ==> storage.rows == Entries(stream[..FetchFrom(|stream|, a.responses, 0, None).end]);
    return if r.Returned? then r.count else 0;
  }

  predicate WellFormed(attempts: seq<Attempt>) {
    forall k :: 0 <= k < |attempts| ==> |attempts[k].responses| >= MAX_ATTEMPTS
  }

  /** The stream and the rows after a run of recoveries, the stream growing before each. */
  function RunRecoveries(attempts: seq<Attempt>): (seq<LogEvent>, seq<LogEntry>)
    requires WellFormed(attempts)
  {
    if |attempts| == 0 then ([], [])
    else
      var a := attempts[|attempts| - 1];
      var (stream, stored) := RunRecoveries(attempts[..|attempts| - 1]);
      (stream + a.more, Recover(stream + a.more, stored, a).0)
  }

  /** However often recovery runs and fails, the rows are a prefix of the stream: nothing is stored twice. */
  lemma {:induction false} RepeatedRecoveryStoresPrefix(attempts: seq<Attempt>)
    requires WellFormed(attempts)
    ensures var (stream, stored) := RunRecoveries(attempts);
            |stored| <= |stream| && stored == Entries(stream[..|stored|])
  {
    if |attempts| > 0 {
      var front, a := attempts[..|attempts| - 1], attempts[|attempts| - 1];
      RepeatedRecoveryStoresPrefix(front);
      var (stream, stored) := RunRecoveries(front);
      assert (stream + a.more)[..|stored|] == stream[..|stored|];
    }
  }

  /** Once any row is there, no number of later recoveries changes anything, even when the first was cut short. */
  lemma {:induction false} RecoveryIsOneShot(attempts: seq<Attempt>, later: seq<Attempt>)
    requires WellFormed(attempts) && WellFormed(later)
    requires |RunRecoveries(attempts).1| > 0
    ensures WellFormed(attempts + later) && RunRecoveries(attempts + later).1 == RunRecoveries(attempts).1
  {
    if |later| == 0 {
      assert attempts + later == attempts;
    } else {
      var n := |later| - 1;
      RecoveryIsOneShot(attempts, later[..n]);
      assert (attempts + later)[..|attempts + later| - 1] == attempts + later[..n];
    }
  }

  // ---------------------------------------------------------------- scheduled recovery

  /** An execution as recoverMissingLogs finds it. */
  datatype Job = Job(succeeded: bool, startedWithinADay: bool, countFails: bool, hasStreamName: bool,
                     stream: seq<LogEvent>, attempt: Attempt)

  predicate Due(job: Job, stored: seq<LogEntry>) {
    job.succeeded && job.startedWithinADay && !job.countFails && |stored| == 0 && job.hasStreamName
  }

  function AfterPass(job: Job, stored: seq<LogEntry>): seq<LogEntry>
    requires |job.attempt.responses| >= MAX_ATTEMPTS
  {
    if Due(job, stored) then Recover(job.stream, stored, job.attempt).0 else stored
  }

  predicate Counted(job: Job, stored: seq<LogEntry>)
    requires |job.attempt.responses| >= MAX_ATTEMPTS
  {
    Due(job, stored) && Recover(job.stream, stored, job.attempt).1 > 0
  }

  predicate AllAnswered(jobs: seq<Job>) {
    forall k :: 0 <= k < |jobs| ==> |jobs[k].attempt.responses| >= MAX_ATTEMPTS
  }

  function CountOf(jobs: seq<Job>, tables: seq<seq<LogEntry>>): nat
    requires |jobs| == |tables| && AllAnswered(jobs)
  {
    if |jobs| == 0 then 0
    else
      var n := |jobs| - 1;
      CountOf(jobs[..n], tables[..n]) + if Counted(jobs[n], tables[n]) then 1 else 0
  }

  ghost function RowsOf(storages: seq<LogStorage>): (tables: seq<seq<LogEntry>>)
    reads storages
    ensures |tables| == |storages| && forall i :: 0 <= i < |tables| ==> tables[i] == storages[i].rows
  {
    if |storages| == 0 then [] else RowsOf(storages[..|storages| - 1]) + [storages[|storages| - 1].rows]
  }

  /** recoverMissingLogs: one table per execution, and no execution's recovery touches another's rows. */
  method RecoverMissingLogs(storages: seq<LogStorage>, jobs: seq<Job>) returns (recoveredCount: nat)
    requires |storages| == |jobs| && AllAnswered(jobs)
    requires forall i, j :: 0 <= i < j < |storages| ==> storages[i] != storages[j]
    modifies storages
    ensures forall i :: 0 <= i < |storages| ==> storages[i].rows == AfterPass(jobs[i], old(storages[i].rows))
    ensures recoveredCount == CountOf(jobs, old(RowsOf(storages)))
  {
    hide Recover, RowsOf;
    ghost var tables := RowsOf(storages);
    recoveredCount := 0;
    for i := 0 to |jobs|
      invariant forall j :: 0 <= j < i ==> storages[j].rows == AfterPass(jobs[j], tables[j])
      invariant forall j :: i <= j < |jobs| ==> storages[j].rows == tables[j]
      invariant recoveredCount == CountOf(jobs[..i], tables[..i])
    {
      assert jobs[..i + 1][..i] == jobs[..i] && tables[..i + 1][..i] == tables[..i];
      var job := jobs[i];
      if job.succeeded && job.startedWithinADay && !job.countFails && |storages[i].rows| == 0 && job.hasStreamName {
        var recovered := AutoRecoverLogsForExecution(storages[i], job.stream, job.attempt);
        if recovered > 0 {
          recoveredCount := recoveredCount + 1;
        }
      }
    }
    assert jobs[..|jobs|] == jobs && tables[..|jobs|] == tables;
  }

  /**
   * An execution that a pass gives rows is counted, except exactly when its paging loop is cut short after some
   * page was saved.
   */
  lemma GainedRowsAreCountedExactly(job: Job, stored: seq<LogEntry>)
    requires |job.attempt.responses| >= MAX_ATTEMPTS && Due(job, stored)
    ensures var gained := |AfterPass(job, stored)| > 0;
            && (Counted(job, stored) ==> gained)
            && (gained && !Counted(job, stored) <==>
                LogGroupOf(job.attempt.project).Some? && job.attempt.executionExists
                && CutShort(|job.stream|, job.attempt.responses, 0, 0))
  {
    OutcomeFrom(|job.stream|, job.attempt.responses, 0, None);
  }
}
