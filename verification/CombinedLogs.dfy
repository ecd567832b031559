/**
 * The combined log view of an execution: a page of build logs merged with the deployment logs by a
 * stable sort, then cut to the limit. Only `limit` build rows are read before the merge.
 */
module CombinedLogs {
  import opened Sequences
  import opened LogBuffer

  datatype ExecutionLog = ExecutionLog(timestamp: Option<int>, createdAt: Option<int>, message: string, level: string)

  function Truthy(time: Option<int>): bool {
    time.Some? && time.value != 0
  }

  /** The comparator's key: `timestamp?.getTime() || createdAt?.getTime() || 0`. */
  function Key(log: ExecutionLog): int {
    if Truthy(log.timestamp) then log.timestamp.value
    else if Truthy(log.createdAt) then log.createdAt.value
    else 0
  }

  // ---------------------------------------------------------------- a stable sort

  predicate Sorted(logs: seq<ExecutionLog>) {
    forall i, j :: 0 <= i <= j < |logs| ==> Key(logs[i]) <= Key(logs[j])
  }

  function Insert(log: ExecutionLog, logs: seq<ExecutionLog>): seq<ExecutionLog> {
    if |logs| == 0 then [log]
    else if Key(log) <= Key(logs[0]) then [log] + logs
    else [logs[0]] + Insert(log, logs[1..])
  }

  /** Array.prototype.sort with the comparator: stable, so equal keys keep their order. */
  function StableSort(logs: seq<ExecutionLog>): seq<ExecutionLog> {
    if |logs| == 0 then [] else Insert(logs[0], StableSort(logs[1..]))
  }

  /** Position p is where log belongs in sorted logs: after the smaller keys, before the others. */
  predicate Fits(log: ExecutionLog, logs: seq<ExecutionLog>, p: nat) {
    && p <= |logs|
    && (forall i :: 0 <= i < p ==> Key(logs[i]) < Key(log))
    && (p < |logs| ==> Key(log) <= Key(logs[p]))
  }

  lemma SpliceBehindHead<T>(head: T, rest: seq<T>, p: nat, x: T)
    requires p <= |rest|
    ensures var all := [head] + rest; all[..p + 1] + [x] + all[p + 1..] == [head] + (rest[..p] + [x] + rest[p..])
  {
    var all := [head] + rest;
    assert all[..p + 1] == [head] + rest[..p] && all[p + 1..] == rest[p..];
  }

  lemma {:induction false} InsertAt(log: ExecutionLog, logs: seq<ExecutionLog>, p: nat)
    requires Fits(log, logs, p)
    ensures Insert(log, logs) == logs[..p] + [log] + logs[p..]
  {
    hide Key;
    if p > 0 {
      var head, rest := logs[0], logs[1..];
      assert Fits(log, rest, p - 1) && Insert(log, logs) == [head] + Insert(log, rest);
      assert logs == [head] + rest;
      InsertAt(log, rest, p - 1);
      hide Insert, Fits;
      SpliceBehindHead(head, rest, p - 1, log);
    } else {
      assert logs[..0] == [] && logs[0..] == logs;
    }
  }

  lemma {:induction false} FindFit(log: ExecutionLog, logs: seq<ExecutionLog>) returns (p: nat)
    ensures Fits(log, logs, p)
  {
    if |logs| == 0 || Key(log) <= Key(logs[0]) {
      p := 0;
    } else {
      p := FindFit(log, logs[1..]);
      p := p + 1;
      assert forall i :: 0 < i < |logs| ==> logs[i] == logs[1..][i - 1];
    }
  }

  lemma SpliceSorted(log: ExecutionLog, logs: seq<ExecutionLog>, p: nat)
    requires Fits(log, logs, p) && Sorted(logs)
    ensures Sorted(logs[..p] + [log] + logs[p..])
  {
    var r := logs[..p] + [log] + logs[p..];
    forall i, j | 0 <= i <= j < |r|
      ensures Key(r[i]) <= Key(r[j])
    {
      assert j > p ==> Key(logs[p]) <= Key(logs[j - 1]);
      assert r[i] == if i < p then logs[i] else if i == p then log else logs[i - 1];
      assert r[j] == if j < p then logs[j] else if j == p then log else logs[j - 1];
    }
  }

  lemma {:induction false} InsertSorts(log: ExecutionLog, logs: seq<ExecutionLog>)
    ensures multiset(Insert(log, logs)) == multiset([log]) + multiset(logs)
    ensures Sorted(logs) ==> Sorted(Insert(log, logs))
  {
    hide Sorted, Insert;
    var p := FindFit(log, logs);
    InsertAt(log, logs, p);
    assert logs == logs[..p] + logs[p..];
    if Sorted(logs) {
      SpliceSorted(log, logs, p);
    }
  }

  lemma {:induction false} SortSorts(logs: seq<ExecutionLog>)
    ensures Sorted(StableSort(logs)) && multiset(StableSort(logs)) == multiset(logs)
    ensures |StableSort(logs)| == |logs|
  {
    if |logs| > 0 {
      SortSorts(logs[1..]);
      InsertSorts(logs[0], StableSort(logs[1..]));
      assert logs == [logs[0]] + logs[1..];
      assert |multiset(StableSort(logs))| == |multiset(logs)|;
    }
  }

  function WithKey(logs: seq<ExecutionLog>, key: int): seq<ExecutionLog> {
    if |logs| == 0 then []
    else if Key(logs[0]) == key then [logs[0]] + WithKey(logs[1..], key)
    else WithKey(logs[1..], key)
  }

  lemma {:induction false} InsertIsStable(log: ExecutionLog, logs: seq<ExecutionLog>, key: int)
    requires Sorted(logs)
    ensures WithKey(Insert(log, logs), key) == WithKey([log] + logs, key)
  {
    if |logs| > 0 && Key(log) > Key(logs[0]) {
      var inserted := [logs[0]] + Insert(log, logs[1..]);
      assert inserted[1..] == Insert(log, logs[1..]);
      InsertIsStable(log, logs[1..], key);
      assert ([log] + logs)[1..] == logs;
      assert ([log] + logs[1..])[1..] == logs[1..];
    }
  }

  /** Rows with equal keys keep their order. */
  lemma {:induction false} SortIsStable(logs: seq<ExecutionLog>, key: int)
    ensures WithKey(StableSort(logs), key) == WithKey(logs, key)
  {
    if |logs| > 0 {
      var rest := StableSort(logs[1..]);
      SortIsStable(logs[1..], key);
      SortSorts(logs[1..]);
      InsertIsStable(logs[0], rest, key);
      assert ([logs[0]] + rest)[1..] == rest;
    }
  }

  lemma {:induction false} WithKeyFinds(logs: seq<ExecutionLog>, key: int) returns (i: nat)
    requires |WithKey(logs, key)| > 0
    ensures i < |logs| && Key(logs[i]) == key
  {
    if Key(logs[0]) == key {
      i := 0;
    } else {
      i := WithKeyFinds(logs[1..], key);
      i := i + 1;
    }
  }

  lemma HeadHasItsKey(logs: seq<ExecutionLog>)
    ensures |logs| > 0 ==> |WithKey(logs, Key(logs[0]))| > 0
  {
  }

  /** There is only one sorted order that keeps equal keys in place. */
  lemma {:induction false} StableOrderIsUnique(a: seq<ExecutionLog>, b: seq<ExecutionLog>)
    requires Sorted(a) && Sorted(b)
    requires forall key :: WithKey(a, key) == WithKey(b, key)
    ensures a == b
  {
    if |a| > 0 && |b| > 0 {
      var i := WithKeyFinds(a, Key(b[0]));
      var j := WithKeyFinds(b, Key(a[0]));
      assert WithKey(a, Key(a[0]))[0] == a[0] && WithKey(b, Key(b[0]))[0] == b[0];
      forall key
        ensures WithKey(a[1..], key) == WithKey(b[1..], key)
      {
        assert WithKey(a, key) == WithKey(b, key);
        var skip := if key == Key(a[0]) then 1 else 0;
        assert WithKey(a[1..], key) == WithKey(a, key)[skip..];
        assert WithKey(b[1..], key) == WithKey(b, key)[skip..];
      }
      StableOrderIsUnique(a[1..], b[1..]);
      assert a == [a[0]] + a[1..] && b == [b[0]] + b[1..];
    } else {
      HeadHasItsKey(a);
      HeadHasItsKey(b);
    }
  }

  // ---------------------------------------------------------------- limit pushdown

  lemma SortUnfolds(first: ExecutionLog, rest: seq<ExecutionLog>)
    ensures StableSort([first] + rest) == Insert(first, StableSort(rest))
  {
    assert ([first] + rest)[1..] == rest;
  }

  /** Adding one more row after sorted rows that are no later puts it behind all of them in the merge. */
  lemma {:induction false} LaterRowGoesBehind(front: seq<ExecutionLog>, log: ExecutionLog, ecs: seq<ExecutionLog>) returns (q: nat)
    requires forall i :: 0 <= i < |front| ==> Key(front[i]) <= Key(log)
    ensures |front| <= q <= |front| + |ecs| == |StableSort(front + ecs)|
    ensures var merged := StableSort(front + ecs);
            StableSort(front + [log] + ecs) == merged[..q] + [log] + merged[q..]
  {
    hide StableSort, Insert, Key, Sorted;
    SortSorts(front + ecs);
    if |front| == 0 {
      assert front + ecs == ecs && front + [log] + ecs == [log] + ecs;
      SortUnfolds(log, ecs);
      q := FindFit(log, StableSort(ecs));
      FitsInside(log, StableSort(ecs), q);
      InsertAt(log, StableSort(ecs), q);
    } else {
      var first, rest := front[0], front[1..];
      q := LaterRowGoesBehind(rest, log, ecs);
      var merged := StableSort(rest + ecs);
      assert front + ecs == [first] + (rest + ecs);
      assert front + [log] + ecs == [first] + (rest + [log] + ecs);
      SortUnfolds(first, rest + ecs);
      SortUnfolds(first, rest + [log] + ecs);
      SortSorts(rest + ecs);
      SortSorts(rest + [log] + ecs);
      q := InsertBefore(first, log, merged, q);
    }
  }

  lemma FitsInside(log: ExecutionLog, logs: seq<ExecutionLog>, p: nat)
    requires Fits(log, logs, p)
    ensures p <= |logs|
  {
  }

  /** Inserting an earlier row commutes with having a later one in the list. */
  lemma {:induction false} InsertBefore(first: ExecutionLog, log: ExecutionLog, merged: seq<ExecutionLog>, q: nat) returns (q': nat)
    requires q <= |merged| && Key(first) <= Key(log)
    requires Sorted(merged[..q] + [log] + merged[q..])
    ensures q' == q + 1 <= |Insert(first, merged)|
    ensures |Insert(first, merged)| == |merged| + 1
    ensures Insert(first, merged[..q] + [log] + merged[q..]) ==
            Insert(first, merged)[..q'] + [log] + Insert(first, merged)[q'..]
  {
    var larger := merged[..q] + [log] + merged[q..];
    q' := q + 1;
    var p := FindFit(first, merged);
    assert forall i :: 0 <= i < q ==> larger[i] == merged[i];
    assert larger[q] == log && (q < |merged| ==> larger[q + 1] == merged[q]);
    if p > q {
      assert false;
    }
    InsertAt(first, merged, p);
    InsertAt(first, larger, p);
    SplicesCommute(merged, p, q, first, log);
  }

  lemma SplicesCommute<T>(s: seq<T>, p: nat, q: nat, x: T, y: T)
    requires p <= q <= |s|
    ensures var withY := s[..q] + [y] + s[q..];
            var withX := s[..p] + [x] + s[p..];
            withY[..p] + [x] + withY[p..] == withX[..q + 1] + [y] + withX[q + 1..]
  {
  }

  /** Reading only the first k sorted build rows before the merge gives the same first k rows. */
  lemma {:induction false} LimitPushdown(build: seq<ExecutionLog>, ecs: seq<ExecutionLog>, k: nat)
    requires Sorted(build)
    ensures Take(StableSort(Take(build, k) + ecs), k) == Take(StableSort(build + ecs), k)
    decreases |build|
  {
    hide StableSort, Insert, Key;
    if |build| > k {
      var front, last := build[..|build| - 1], build[|build| - 1];
      LimitPushdown(front, ecs, k);
      assert Take(front, k) == Take(build, k);
      assert build == front + [last];
      var q := LaterRowGoesBehind(front, last, ecs);
      var merged := StableSort(front + ecs);
      assert Take(merged[..q] + [last] + merged[q..], k) == merged[..k];
    }
  }

  /** Out-of-order neighbours break it: the limit that separates them, with no deployment logs. */
  lemma PushdownNeedsOrder(build: seq<ExecutionLog>, i: nat)
    requires i + 1 < |build| && Key(build[i]) > Key(build[i + 1])
    ensures Take(StableSort(Take(build, i + 1) + []), i + 1) != Take(StableSort(build + []), i + 1)
  {
    hide StableSort, Insert, Sorted;
    var k := i + 1;
    assert build[..k] + [] == build[..k] && build + [] == build;
    SortSorts(build);
    SortSorts(build[..k]);
    var all := StableSort(build);
    SplitMultiset(build, k);
    SplitMultiset(all, k);
    assert build[..k][i] == build[i] && build[k..][0] == build[k];
    assert build[i] in multiset(build[..k]) && build[k] in multiset(build[k..]);
    if StableSort(build[..k]) == all[..k] {
      Cancel(multiset(build[..k]), multiset(all[k..]), multiset(build[k..]));
      KeysSeparated(all, k, build[i], build[k]);
      assert false;
    }
  }

  lemma Cancel<T>(a: multiset<T>, b: multiset<T>, c: multiset<T>)
    requires a + b == a + c
    ensures b == c
  {
    forall x
      ensures b[x] == c[x]
    {
      assert (a + b)[x] == (a + c)[x];
    }
  }

  lemma SplitMultiset(logs: seq<ExecutionLog>, k: nat)
    requires k <= |logs|
    ensures multiset(logs) == multiset(logs[..k]) + multiset(logs[k..])
  {
    assert logs == logs[..k] + logs[k..];
  }

  lemma KeysSeparated(logs: seq<ExecutionLog>, k: nat, a: ExecutionLog, b: ExecutionLog)
    requires Sorted(logs) && k <= |logs|
    requires a in multiset(logs[..k]) && b in multiset(logs[k..])
    ensures Key(a) <= Key(b)
  {
    var u :| 0 <= u < k && logs[..k][u] == a;
    var v :| 0 <= v < |logs| - k && logs[k..][v] == b;
    assert Key(logs[u]) <= Key(logs[k + v]);
  }

  lemma {:induction false} FindDescent(build: seq<ExecutionLog>) returns (i: nat)
    requires !Sorted(build)
    ensures i + 1 < |build| && Key(build[i]) > Key(build[i + 1])
  {
    if |build| >= 2 && Key(build[0]) > Key(build[1]) {
      i := 0;
    } else {
      assert forall j :: 0 < j < |build| ==> build[j] == build[1..][j - 1];
      if Sorted(build[1..]) {
        assert false;
      }
      i := FindDescent(build[1..]);
      i := i + 1;
    }
  }

  /** Limit pushdown is right for every limit and every batch of deployment logs exactly when the build rows come in key order. */
  lemma PushdownExactlyWhenSorted(build: seq<ExecutionLog>)
    ensures (forall ecs: seq<ExecutionLog>, k: nat ::
               Take(StableSort(Take(build, k) + ecs), k) == Take(StableSort(build + ecs), k))
            <==> Sorted(build)
  {
    if Sorted(build) {
      forall ecs: seq<ExecutionLog>, k: nat
        ensures Take(StableSort(Take(build, k) + ecs), k) == Take(StableSort(build + ecs), k)
      {
        LimitPushdown(build, ecs, k);
      }
    } else {
      var i := FindDescent(build);
      PushdownNeedsOrder(build, i);
    }
  }

  // ---------------------------------------------------------------- reading the build logs

  /** ORDER BY timestamp ASC over a column that is never null. */
  predicate OrderedByTimestamp(rows: seq<ExecutionLog>) {
    && (forall i :: 0 <= i < |rows| ==> rows[i].timestamp.Some?)
    && (forall i, j :: 0 <= i <= j < |rows| ==> rows[i].timestamp.value <= rows[j].timestamp.value)
  }

  /** Database order is key order as long as no row is stamped with the epoch itself. */
  lemma DatabaseOrderIsKeyOrder(rows: seq<ExecutionLog>)
    requires OrderedByTimestamp(rows)
    requires forall i :: 0 <= i < |rows| ==> rows[i].timestamp != Some(0)
    ensures Sorted(rows)
  {
  }

  /** A row stamped 0 is keyed by its creation time instead, so it sorts last and the page is wrong. */
  lemma EpochRowBreaksPushdown(created: int, message: string)
    requires created > 50
    ensures var rows := [ExecutionLog(Some(0), Some(created), message, "info"),
                         ExecutionLog(Some(50), Some(created), message, "info")];
            && OrderedByTimestamp(rows)
            && Take(StableSort(Take(rows, 1) + []), 1) != Take(StableSort(rows + []), 1)
  {
    PushdownNeedsOrder([ExecutionLog(Some(0), Some(created), message, "info"),
                        ExecutionLog(Some(50), Some(created), message, "info")], 0);
  }

  function LimitOf(limit: Option<nat>, all: nat): nat {
    if limit.Some? && limit.value > 0 then limit.value else all
  }

  /** skip(offset) and take(limit); zero is the same as absent for both. */
  function DatabasePage(rows: seq<ExecutionLog>, limit: Option<nat>, offset: nat): seq<ExecutionLog> {
    var skipped := if offset <= |rows| then rows[offset..] else [];
    Take(skipped, LimitOf(limit, |skipped|))
  }

  function FromBuffer(entries: seq<LogEntry>): (r: seq<ExecutionLog>)
    ensures |r| == |entries|
  {
    seq(|entries|, i requires 0 <= i < |entries| =>
      ExecutionLog(Some(entries[i].timestamp), Some(entries[i].timestamp), entries[i].message, entries[i].level))
  }

  /** The build logs that are read: the database page, or when that is empty the end of what the ring was pushed. */
  function BuildPage(rows: seq<ExecutionLog>, pushed: seq<LogEntry>, limit: Option<nat>, offset: nat): seq<ExecutionLog> {
    var page := DatabasePage(rows, limit, offset);
    if |page| > 0 then page else FromBuffer(LastN(pushed, Min(DEFAULT_BUFFER_SIZE, LimitOf(limit, DEFAULT_BUFFER_SIZE))))
  }

  /** getExecutionLogs: the database page, or the end of the ring buffer when that page is empty. */
  method GetExecutionLogs(rows: seq<ExecutionLog>, logBuffer: LogBufferService, executionId: string,
                          limit: Option<nat>, offset: nat) returns (logs: seq<ExecutionLog>)
    requires logBuffer.Valid()
    ensures var page := DatabasePage(rows, limit, offset);
            logs == if |page| > 0 then page
                    else FromBuffer(LastN(HistoryOf(logBuffer.Contents, executionId),
                                          Min(DEFAULT_BUFFER_SIZE, LimitOf(limit, DEFAULT_BUFFER_SIZE))))
  {
    logs := DatabasePage(rows, limit, offset);
    if |logs| == 0 {
      var recent := logBuffer.GetRecentLogs(executionId, if limit.Some? then Some(limit.value as int) else None);
      logs := FromBuffer(recent);
    }
  }

  /** What reading the deployment logs of the related execution gives. */
  datatype EcsFetch = NotApplicable | FetchFailed | Fetched(logs: seq<ExecutionLog>)

  function EcsLogs(ecs: EcsFetch): seq<ExecutionLog> {
    if ecs.Fetched? then ecs.logs else []
  }

  /** getCombinedExecutionLogs; None is the NotFound error. */
  method GetCombinedExecutionLogs(executionExists: bool, rows: seq<ExecutionLog>, logBuffer: LogBufferService,
                                  executionId: string, ecs: EcsFetch, limit: Option<nat>, offset: nat)
    returns (r: Option<seq<ExecutionLog>>)
    requires logBuffer.Valid()
    ensures r.Some? <==> executionExists
    ensures r.Some? ==>
              var merged := StableSort(BuildPage(rows, HistoryOf(logBuffer.Contents, executionId), limit, offset) + EcsLogs(ecs));
              r.value == Take(merged, LimitOf(limit, |merged|))
    ensures r.Some? && offset < |rows| && Sorted(rows) ==>
              r.value == Take(StableSort(rows[offset..] + EcsLogs(ecs)), LimitOf(limit, |rows| - offset + |EcsLogs(ecs)|))
    ensures r.Some? ==> Sorted(r.value)
  {
    if !executionExists {
      return None;
    }
    hide StableSort, Sorted, LogBufferService.Valid;
    var allLogs := GetExecutionLogs(rows, logBuffer, executionId, limit, offset);
    ghost var page := BuildPage(rows, HistoryOf(logBuffer.Contents, executionId), limit, offset);
    if ecs.Fetched? {
      allLogs := allLogs + ecs.logs;
    }
    assert allLogs == page + EcsLogs(ecs);
    MergedView(rows, HistoryOf(logBuffer.Contents, executionId), EcsLogs(ecs), limit, offset);
    allLogs := StableSort(allLogs);
    if limit.Some? && limit.value > 0 {
      return Some(Take(allLogs, limit.value));
    }
    return Some(allLogs);
  }

  lemma MergedView(rows: seq<ExecutionLog>, pushed: seq<LogEntry>, ecs: seq<ExecutionLog>, limit: Option<nat>, offset: nat)
    ensures var merged := StableSort(BuildPage(rows, pushed, limit, offset) + ecs);
            var view := Take(merged, LimitOf(limit, |merged|));
            && Sorted(view)
            && (offset < |rows| && Sorted(rows) ==>
                  view == Take(StableSort(rows[offset..] + ecs), LimitOf(limit, |rows| - offset + |ecs|)))
  {
    SortSorts(BuildPage(rows, pushed, limit, offset) + ecs);
    hide StableSort, Key;
    if offset < |rows| && Sorted(rows) {
      PageOfRows(rows, pushed, limit, offset);
      MergedPage(rows[offset..], ecs, limit);
    }
    hide BuildPage;
  }

  lemma PageOfRows(rows: seq<ExecutionLog>, pushed: seq<LogEntry>, limit: Option<nat>, offset: nat)
    requires offset < |rows|
    ensures BuildPage(rows, pushed, limit, offset) == Take(rows[offset..], LimitOf(limit, |rows| - offset))
  {
  }

  lemma MergedPage(build: seq<ExecutionLog>, ecs: seq<ExecutionLog>, limit: Option<nat>)
    requires Sorted(build)
    ensures var page := Take(build, LimitOf(limit, |build|));
            Take(StableSort(page + ecs), LimitOf(limit, |page + ecs|)) ==
            Take(StableSort(build + ecs), LimitOf(limit, |build| + |ecs|))
  {
    if limit.Some? && limit.value > 0 {
      LimitPushdown(build, ecs, limit.value);
    }
  }

  // ---------------------------------------------------------------- a page from the ring

  lemma CutTellsEnds(buffered: seq<ExecutionLog>, k: nat)
    requires k > 0 && forall i, j :: 0 <= i < j < |buffered| ==> Key(buffered[i]) < Key(buffered[j])
    ensures LastN(buffered, k) == Take(buffered, k) <==> |buffered| <= k
  {
    if |buffered| > k {
      assert LastN(buffered, k)[0] == buffered[|buffered| - k] && Take(buffered, k)[0] == buffered[0];
    }
  }

  /**
   * When the database page is empty the end of the ring is read before the merge, not its start. Over ordered logs
   * that is right for every batch of deployment logs exactly when the end and the start are the same logs, which
   * for logs of distinct times means that nothing was cut.
   */
  lemma BufferFallbackExactlyWhenUncut(buffered: seq<ExecutionLog>, k: nat)
    requires k > 0 && Sorted(buffered)
    ensures (forall ecs: seq<ExecutionLog> ::
               Take(StableSort(LastN(buffered, k) + ecs), k) == Take(StableSort(buffered + ecs), k))
            <==> LastN(buffered, k) == Take(buffered, k)
    ensures (forall i, j :: 0 <= i < j < |buffered| ==> Key(buffered[i]) < Key(buffered[j])) ==>
              (LastN(buffered, k) == Take(buffered, k) <==> |buffered| <= k)
  {
    hide StableSort, Sorted, Key;
    var tail := LastN(buffered, k);
    if tail == Take(buffered, k) {
      forall ecs: seq<ExecutionLog>
        ensures Take(StableSort(tail + ecs), k) == Take(StableSort(buffered + ecs), k)
      {
        LimitPushdown(buffered, ecs, k);
      }
    }
    TailIsSorted(buffered, k);
    SortedStays(tail);
    SortedStays(buffered);
    if forall ecs: seq<ExecutionLog> :: Take(StableSort(tail + ecs), k) == Take(StableSort(buffered + ecs), k) {
      assert tail + [] == tail && buffered + [] == buffered;
      assert Take(StableSort(tail + []), k) == Take(StableSort(buffered + []), k);
    }
    if forall i, j :: 0 <= i < j < |buffered| ==> Key(buffered[i]) < Key(buffered[j]) {
      CutTellsEnds(buffered, k);
    }
  }

  lemma TailIsSorted(logs: seq<ExecutionLog>, k: nat)
    requires Sorted(logs)
    ensures Sorted(LastN(logs, k))
  {
  }

  lemma SortedStays(logs: seq<ExecutionLog>)
    requires Sorted(logs)
    ensures StableSort(logs) == logs
  {
    assert logs + [] == logs;
    assert forall a, b :: a in logs && b in [] ==> Key(a) <= Key(b);
    EarlierRowsStayAhead(logs, []);
  }

  /** What the ring holds of everything that was pushed. */
  function Ring(pushed: seq<LogEntry>): seq<ExecutionLog> {
    FromBuffer(LastN(pushed, DEFAULT_BUFFER_SIZE))
  }

  /** So the combined view past the last row shows the first k of ring and deployment logs under that condition only. */
  lemma RingViewExactlyWhenUncut(rows: seq<ExecutionLog>, pushed: seq<LogEntry>, k: nat, offset: nat)
    requires offset >= |rows| && k > 0 && Sorted(Ring(pushed))
    ensures (forall ecs: seq<ExecutionLog> ::
               Take(StableSort(BuildPage(rows, pushed, Some(k), offset) + ecs), k) == Take(StableSort(Ring(pushed) + ecs), k))
            <==> LastN(Ring(pushed), k) == Take(Ring(pushed), k)
  {
    PageFromRing(rows, pushed, k, offset);
    hide StableSort, BuildPage, Ring, Sorted;
    BufferFallbackExactlyWhenUncut(Ring(pushed), k);
  }

  lemma PageFromRing(rows: seq<ExecutionLog>, pushed: seq<LogEntry>, k: nat, offset: nat)
    requires offset >= |rows| && k > 0
    ensures BuildPage(rows, pushed, Some(k), offset) == LastN(Ring(pushed), k)
  {
    LastNOfLastN(pushed, DEFAULT_BUFFER_SIZE, k);
  }

  // ---------------------------------------------------------------- page after page

  lemma InSorted(logs: seq<ExecutionLog>, log: ExecutionLog)
    ensures log in StableSort(logs) <==> log in logs
  {
    SortSorts(logs);
    hide StableSort;
    assert log in StableSort(logs) <==> log in multiset(StableSort(logs));
    assert log in logs <==> log in multiset(logs);
  }

  lemma InsertAhead(log: ExecutionLog, logs: seq<ExecutionLog>)
    requires forall l :: l in logs ==> Key(log) <= Key(l)
    ensures Insert(log, logs) == [log] + logs
  {
    assert |logs| > 0 ==> logs[0] in logs;
  }

  /** Rows no later than all the others stay where they are. */
  lemma {:induction false} EarlierRowsStayAhead(front: seq<ExecutionLog>, rest: seq<ExecutionLog>)
    requires Sorted(front) && forall a, b :: a in front && b in rest ==> Key(a) <= Key(b)
    ensures StableSort(front + rest) == front + StableSort(rest)
  {
    hide Insert, Key;
    if |front| == 0 {
      assert front + rest == rest;
    } else {
      var first, more := front[0], front[1..];
      EarlierRowsStayAhead(more, rest);
      assert (front + rest)[1..] == more + rest && (front + rest)[0] == first;
      forall l | l in more + StableSort(rest)
        ensures Key(first) <= Key(l)
      {
        InSorted(rest, l);
      }
      InsertAhead(first, more + StableSort(rest));
      assert front + StableSort(rest) == [first] + (more + StableSort(rest));
    }
  }

  /** What a client is shown at an offset: the first k of the rows from there on, merged with all deployment logs. */
  function PageAt(rows: seq<ExecutionLog>, ecs: seq<ExecutionLog>, k: nat, offset: nat): seq<ExecutionLog>
    requires offset <= |rows|
  {
    Take(StableSort(rows[offset..] + ecs), k)
  }

  /** The pages at the offset, k further, and so on while there are rows. */
  function PagesFrom(rows: seq<ExecutionLog>, ecs: seq<ExecutionLog>, k: nat, offset: nat): seq<ExecutionLog>
    requires k > 0
    decreases |rows| - offset
  {
    if offset >= |rows| then [] else PageAt(rows, ecs, k, offset) + PagesFrom(rows, ecs, k, offset + k)
  }

  /** Every deployment log fits on the last page, behind the rows of all pages before it. */
  predicate FitsLastPage(rows: seq<ExecutionLog>, ecs: seq<ExecutionLog>, k: nat, offset: nat)
    requires k > 0 && offset < |rows|
    decreases |rows| - offset
  {
    if offset + k < |rows| then
      (forall e :: e in ecs ==> Key(rows[offset + k - 1]) <= Key(e)) && FitsLastPage(rows, ecs, k, offset + k)
    else |rows| - offset + |ecs| <= k
  }

  lemma PagesSplit(rows: seq<ExecutionLog>, ecs: seq<ExecutionLog>, k: nat, offset: nat)
    requires k > 0 && offset < |rows|
    ensures PagesFrom(rows, ecs, k, offset) == PageAt(rows, ecs, k, offset) + PagesFrom(rows, ecs, k, offset + k)
    ensures offset + k >= |rows| ==>
              PagesFrom(rows, ecs, k, offset) == PageAt(rows, ecs, k, offset) == Take(StableSort(rows[offset..] + ecs), k)
  {
    hide StableSort;
  }

  lemma {:induction false} PagesWhenFitting(rows: seq<ExecutionLog>, ecs: seq<ExecutionLog>, k: nat, offset: nat)
    requires Sorted(rows) && k > 0 && offset < |rows| && FitsLastPage(rows, ecs, k, offset)
    ensures PagesFrom(rows, ecs, k, offset) == StableSort(rows[offset..] + ecs)
    decreases |rows| - offset
  {
    hide StableSort, PagesFrom, PageAt, Sorted, Key;
    PagesSplit(rows, ecs, k, offset);
    SortSorts(rows[offset..] + ecs);
    if offset + k < |rows| {
      PageIsRows(rows, ecs, k, offset);
      PagesWhenFitting(rows, ecs, k, offset + k);
    }
  }

  /** How many logs have at least a given key. */
  function CountFrom(logs: seq<ExecutionLog>, key: int): nat {
    if |logs| == 0 then 0 else (if Key(logs[0]) >= key then 1 else 0) + CountFrom(logs[1..], key)
  }

  lemma {:induction false} CountConcat(a: seq<ExecutionLog>, b: seq<ExecutionLog>, key: int)
    ensures CountFrom(a + b, key) == CountFrom(a, key) + CountFrom(b, key)
  {
    if |a| == 0 {
      assert a + b == b;
    } else {
      assert (a + b)[1..] == a[1..] + b;
      CountConcat(a[1..], b, key);
    }
  }

  lemma {:induction false} CountInsert(log: ExecutionLog, logs: seq<ExecutionLog>, key: int)
    ensures CountFrom(Insert(log, logs), key) == CountFrom([log], key) + CountFrom(logs, key)
  {
    if |logs| > 0 && Key(log) > Key(logs[0]) {
      CountInsert(log, logs[1..], key);
      CountConcat([logs[0]], Insert(log, logs[1..]), key);
    } else {
      CountConcat([log], logs, key);
      assert [log] + [] == [log];
    }
  }

  lemma {:induction false} CountSort(logs: seq<ExecutionLog>, key: int)
    ensures CountFrom(StableSort(logs), key) == CountFrom(logs, key)
  {
    if |logs| > 0 {
      CountSort(logs[1..], key);
      CountInsert(logs[0], StableSort(logs[1..]), key);
    }
  }

  lemma {:induction false} CountOfEarlier(logs: seq<ExecutionLog>, key: int)
    requires forall l :: l in logs ==> Key(l) < key
    ensures CountFrom(logs, key) == 0
  {
    if |logs| > 0 {
      assert logs[0] in logs;
      CountOfEarlier(logs[1..], key);
    }
  }

  lemma {:induction false} CountAtMostAll(logs: seq<ExecutionLog>, key: int)
    ensures CountFrom(logs, key) <= |logs|
  {
    if |logs| > 0 {
      CountAtMostAll(logs[1..], key);
    }
  }

  lemma {:induction false} CountOfLater(logs: seq<ExecutionLog>, key: int)
    requires forall l :: l in logs ==> Key(l) >= key
    ensures CountFrom(logs, key) == |logs|
  {
    if |logs| > 0 {
      assert logs[0] in logs;
      CountOfLater(logs[1..], key);
    }
  }

  lemma PageLength(rows: seq<ExecutionLog>, ecs: seq<ExecutionLog>, k: nat, offset: nat)
    requires offset <= |rows|
    ensures |PageAt(rows, ecs, k, offset)| == Min(k, |rows| - offset + |ecs|)
  {
    SortSorts(rows[offset..] + ecs);
    hide StableSort;
  }

  /** The last page, when it is as long as its merge, holds all deployment logs. */
  lemma LastPageHoldsAll(rows: seq<ExecutionLog>, ecs: seq<ExecutionLog>, k: nat, offset: nat, e: ExecutionLog, key: int)
    requires offset <= |rows| && e in ecs && |rows| - offset + |ecs| <= k
    ensures var page := PageAt(rows, ecs, k, offset); e in page && CountFrom(page, key) <= |rows| - offset + CountFrom(ecs, key)
  {
    hide StableSort, CountFrom, Key;
    var all := rows[offset..] + ecs;
    SortSorts(all);
    InSorted(all, e);
    CountSort(all, key);
    CountConcat(rows[offset..], ecs, key);
    CountAtMostAll(rows[offset..], key);
  }

  /** Pages that are as long as the full merge end with all deployment logs, so at least their earlier keys occur. */
  lemma {:induction false} FullPagesHoldAll(rows: seq<ExecutionLog>, ecs: seq<ExecutionLog>, k: nat, offset: nat, e: ExecutionLog, key: int)
    requires k > 0 && offset < |rows| && e in ecs
    requires |PagesFrom(rows, ecs, k, offset)| == |rows| - offset + |ecs|
    ensures var pages := PagesFrom(rows, ecs, k, offset);
            e in pages && CountFrom(pages, key) <= |rows| - offset + CountFrom(ecs, key)
    decreases |rows| - offset
  {
    hide StableSort, PagesFrom, PageAt, CountFrom, Key;
    var page := PageAt(rows, ecs, k, offset);
    PagesSplit(rows, ecs, k, offset);
    PageLength(rows, ecs, k, offset);
    if offset + k < |rows| {
      FullPagesHoldAll(rows, ecs, k, offset + k, e, key);
      CountConcat(page, PagesFrom(rows, ecs, k, offset + k), key);
      CountAtMostAll(page, key);
    } else {
      LastPageHoldsAll(rows, ecs, k, offset, e, key);
    }
  }

  /** A deployment log before the end of a page that is not the last makes the pages differ from the merge. */
  lemma EarlyLogSpoilsPages(rows: seq<ExecutionLog>, ecs: seq<ExecutionLog>, k: nat, offset: nat, e: ExecutionLog)
    requires Sorted(rows) && k > 0 && offset + k < |rows| && e in ecs && Key(e) < Key(rows[offset + k - 1])
    ensures PagesFrom(rows, ecs, k, offset) != StableSort(rows[offset..] + ecs)
  {
    var merged, key := StableSort(rows[offset..] + ecs), Key(rows[offset + k - 1]);
    var page, later := PageAt(rows, ecs, k, offset), PagesFrom(rows, ecs, k, offset + k);
    if page + later == merged {
      SortSorts(rows[offset..] + ecs);
      FullPagesHoldAll(rows, ecs, k, offset + k, e, key);
      hide StableSort;
      PageIsEarlier(page, later, e, key);
      CountConcat(page, later, key);
      CountSort(rows[offset..] + ecs, key);
      CountConcat(rows[offset..], ecs, key);
      RowsFromBoundary(rows, k, offset);
      assert false;
    }
  }

  lemma PageIsEarlier(page: seq<ExecutionLog>, later: seq<ExecutionLog>, e: ExecutionLog, key: int)
    requires Sorted(page + later) && e in later && Key(e) < key
    ensures CountFrom(page, key) == 0
  {
    var j :| 0 <= j < |later| && later[j] == e;
    forall l | l in page
      ensures Key(l) < key
    {
      var i :| 0 <= i < |page| && page[i] == l;
      assert (page + later)[i] == l && (page + later)[|page| + j] == e;
    }
    CountOfEarlier(page, key);
  }

  lemma RowsFromBoundary(rows: seq<ExecutionLog>, k: nat, offset: nat)
    requires Sorted(rows) && k > 0 && offset + k < |rows|
    ensures CountFrom(rows[offset..], Key(rows[offset + k - 1])) > |rows| - offset - k
  {
    var key, boundary := Key(rows[offset + k - 1]), offset + k - 1;
    assert rows[offset..] == rows[offset..boundary] + rows[boundary..];
    CountConcat(rows[offset..boundary], rows[boundary..], key);
    CountOfLater(rows[boundary..], key);
  }

  lemma {:induction false} FittingWhenPages(rows: seq<ExecutionLog>, ecs: seq<ExecutionLog>, k: nat, offset: nat)
    requires Sorted(rows) && k > 0 && offset < |rows|
    requires PagesFrom(rows, ecs, k, offset) == StableSort(rows[offset..] + ecs)
    ensures FitsLastPage(rows, ecs, k, offset)
    decreases |rows| - offset
  {
    hide StableSort, PagesFrom, PageAt, Sorted, Key;
    PagesSplit(rows, ecs, k, offset);
    SortSorts(rows[offset..] + ecs);
    if offset + k < |rows| {
      forall e | e in ecs
        ensures Key(rows[offset + k - 1]) <= Key(e)
      {
        if Key(e) < Key(rows[offset + k - 1]) {
          EarlyLogSpoilsPages(rows, ecs, k, offset, e);
        }
      }
      PageIsRows(rows, ecs, k, offset);
      SamePrefix(rows[offset..offset + k], PagesFrom(rows, ecs, k, offset + k), StableSort(rows[offset + k..] + ecs));
      FittingWhenPages(rows, ecs, k, offset + k);
    }
  }

  lemma SamePrefix<T>(front: seq<T>, a: seq<T>, b: seq<T>)
    requires front + a == front + b
    ensures a == b
  {
    assert a == (front + a)[|front|..] && b == (front + b)[|front|..];
  }

  lemma PageIsRows(rows: seq<ExecutionLog>, ecs: seq<ExecutionLog>, k: nat, offset: nat)
    requires Sorted(rows) && k > 0 && offset + k < |rows|
    requires forall e :: e in ecs ==> Key(rows[offset + k - 1]) <= Key(e)
    ensures StableSort(rows[offset..] + ecs) == rows[offset..offset + k] + StableSort(rows[offset + k..] + ecs)
    ensures PageAt(rows, ecs, k, offset) == rows[offset..offset + k]
  {
    var front, rest := rows[offset..offset + k], rows[offset + k..] + ecs;
    assert rows[offset..] + ecs == front + rest;
    forall a, b | a in front && b in rest
      ensures Key(a) <= Key(b)
    {
      assert Key(a) <= Key(rows[offset + k - 1]);
    }
    EarlierRowsStayAhead(front, rest);
  }

  /**
   * Page after page. A larger offset shifts the rows but not the deployment logs, which come again on every page.
   * So the pages at offsets 0, k, 2k and so on make up the full merge, each log once and in order, if and only if
   * all deployment logs fit on the last page and none belongs on an earlier one.
   */
  lemma PagesPartitionExactlyWhenFitting(rows: seq<ExecutionLog>, ecs: seq<ExecutionLog>, k: nat)
    requires Sorted(rows) && k > 0 && |rows| > 0
    ensures PagesFrom(rows, ecs, k, 0) == StableSort(rows + ecs) <==> FitsLastPage(rows, ecs, k, 0)
  {
    assert rows[0..] == rows;
    if FitsLastPage(rows, ecs, k, 0) {
      PagesWhenFitting(rows, ecs, k, 0);
    }
    if PagesFrom(rows, ecs, k, 0) == StableSort(rows + ecs) {
      FittingWhenPages(rows, ecs, k, 0);
    }
  }
}
