/**
 * A client subscribing to an execution's logs while logs keep coming: join the room, send the ring buffer, then
 * send the first page of history from the database. Every interleaving of those steps with saving, announcing and
 * clearing is a run. A log is named by the position of its row in insertion order. Rows are saved by anyone, with
 * any timestamps; only those of the poller are announced.
 */
module LogSubscription {
  import opened Sequences
  import opened LogBuffer

  const HISTORY_LIMIT: nat := 1000

  datatype Phase = Connected | Rejected | Admitted | Joined | SnapshotSent | Subscribed | SubscribeFailed | Left

  datatype State = State(
    times: seq<int>,       // timestamps of the saved rows, in insertion order
    pushed: seq<nat>,      // the rows that went through addLogs, oldest first
    cleared: nat,          // how many pushes the ring no longer has because it was cleared
    phase: Phase,
    received: set<nat>,    // the rows the client was sent
    from: nat)             // while in the room, the client was sent every push from this one on
  {
    predicate InRoom() {
      phase in {Joined, SnapshotSent, Subscribed, SubscribeFailed}
    }
  }

  datatype Access = Granted | Denied | AccessCheckThrows

  datatype Step =
    | Save(more: seq<int>)
    | Announce(rows: seq<nat>)
    | ClearBuffer
    | CheckAccess(hasUser: bool, hasExecutionId: bool, access: Access)
    | Join
    | SendSnapshot
    | SendHistory(page: set<nat>)
    | HistoryThrows
    | Leave

  function Of(rows: seq<nat>): set<nat> {
    set row | row in rows
  }

  /** What getRecentLogs returns without a limit: the last entries pushed since the last clear. */
  function Snapshot(s: State): seq<nat>
    requires s.cleared <= |s.pushed|
  {
    LastN(s.pushed[s.cleared..], DEFAULT_BUFFER_SIZE)
  }

  function SnapshotStart(s: State): nat
    requires s.cleared <= |s.pushed|
  {
    if |s.pushed| - s.cleared <= DEFAULT_BUFFER_SIZE then s.cleared else |s.pushed| - DEFAULT_BUFFER_SIZE
  }

  /** The ring holds the pushes from one point on. */
  lemma SnapshotIsSuffix(s: State)
    requires s.cleared <= |s.pushed|
    ensures SnapshotStart(s) <= |s.pushed| && Snapshot(s) == s.pushed[SnapshotStart(s)..]
  {
  }

  /**
   * A legal answer to ORDER BY timestamp ASC LIMIT 1000. The query says nothing about rows with equal
   * timestamps, so any choice among them is legal.
   */
  ghost predicate IsFirstPage(times: seq<int>, rows: set<nat>) {
    && (forall i :: i in rows ==> i < |times|)
    && |rows| == Min(HISTORY_LIMIT, |times|)
    && (forall i, j :: i in rows && 0 <= j < |times| && j !in rows ==> times[i] <= times[j])
  }

  // ---------------------------------------------------------------- steps and runs

  predicate Distinct(rows: seq<nat>) {
    forall i, j :: 0 <= i < j < |rows| ==> rows[i] != rows[j]
  }

  /** A row is announced after it was saved, and once. */
  ghost predicate Enabled(s: State, step: Step) {
    match step
    case Save(_) => true
    case Announce(rows) => Distinct(s.pushed + rows) && forall row :: row in rows ==> row < |s.times|
    case ClearBuffer => true
    case CheckAccess(_, _, _) => s.phase == Connected
    case Join => s.phase == Admitted
    case SendSnapshot => s.phase == Joined
    case SendHistory(rows) => s.phase == SnapshotSent && IsFirstPage(s.times, rows)
    case HistoryThrows => s.phase == SnapshotSent
    case Leave => s.InRoom()
  }

  function Do(s: State, step: Step): State {
    match step
    case Save(more) => s.(times := s.times + more)
    case Announce(rows) =>
      s.(pushed := s.pushed + rows, received := if s.InRoom() then s.received + Of(rows) else s.received)
    case ClearBuffer => s.(cleared := |s.pushed|)
    case CheckAccess(hasUser, hasExecutionId, access) =>
      s.(phase := if hasUser && hasExecutionId && access == Granted then Admitted else Rejected)
    case Join => s.(phase := Joined, from := |s.pushed|)
    case SendSnapshot =>
      if s.cleared > |s.pushed| then s
      else s.(phase := SnapshotSent, received := s.received + Of(Snapshot(s)), from := Min(s.from, SnapshotStart(s)))
    case SendHistory(rows) => s.(phase := Subscribed, received := s.received + rows)
    case HistoryThrows => s.(phase := SubscribeFailed)
    case Leave => s.(phase := Left)
  }

  const INITIAL := State([], [], 0, Connected, {}, 0)

  /** The state after a run, or None when some step was not possible. */
  ghost function Run(steps: seq<Step>): Option<State> {
    if |steps| == 0 then Some(INITIAL)
    else match Run(steps[..|steps| - 1])
      case None => None
      case Some(s) => if Enabled(s, steps[|steps| - 1]) then Some(Do(s, steps[|steps| - 1])) else None
  }

  lemma RunAppend(steps: seq<Step>, step: Step)
    ensures Run(steps + [step]) ==
            if Run(steps).Some? && Enabled(Run(steps).value, step) then Some(Do(Run(steps).value, step)) else None
  {
    assert (steps + [step])[..|steps|] == steps;
  }

  predicate PushesOk(s: State) {
    s.cleared <= |s.pushed| && Distinct(s.pushed) && forall row :: row in s.pushed ==> row < |s.times|
  }

  /** What a client holds between join and history: every push from one on, and nothing else. */
  predicate HoldsSuffix(s: State) {
    s.from <= |s.pushed| && s.received == Of(s.pushed[s.from..])
  }

  predicate Invariant(s: State) {
    && PushesOk(s)
    && (s.phase in {Connected, Rejected, Admitted} ==> s.received == {})
    && (s.phase in {Joined, SnapshotSent, SubscribeFailed} ==> HoldsSuffix(s))
  }

  lemma SuffixGrows(rows: seq<nat>, more: seq<nat>, from: nat)
    requires from <= |rows|
    ensures Of((rows + more)[from..]) == Of(rows[from..]) + Of(more)
  {
    assert (rows + more)[from..] == rows[from..] + more;
  }

  lemma SuffixesUnite(rows: seq<nat>, a: nat, b: nat)
    requires a <= |rows| && b <= |rows|
    ensures Of(rows[a..]) + Of(rows[b..]) == Of(rows[Min(a, b)..])
  {
    var lo, hi := Min(a, b), if a <= b then b else a;
    assert rows[lo..] == rows[lo..hi] + rows[hi..];
  }

  lemma InvariantStep(s: State, step: Step)
    requires Invariant(s) && Enabled(s, step)
    ensures Invariant(Do(s, step))
  {
    hide Snapshot, SnapshotStart, Of;
    PushesStayOk(s, step);
    hide PushesOk;
    if step.Announce? && s.phase in {Joined, SnapshotSent, SubscribeFailed} {
      SuffixGrows(s.pushed, step.rows, s.from);
    }
    if step.Join? {
      NothingHeld(s.pushed);
    }
    if step.SendSnapshot? {
      CountsInBounds(s);
      SnapshotIsSuffix(s);
      SuffixesUnite(s.pushed, s.from, SnapshotStart(s));
    }
  }

  lemma CountsInBounds(s: State)
    requires PushesOk(s)
    ensures s.cleared <= |s.pushed|
  {
  }

  lemma NothingHeld(pushed: seq<nat>)
    ensures Of(pushed[|pushed|..]) == {}
  {
  }

  lemma PushesStayOk(s: State, step: Step)
    requires PushesOk(s) && Enabled(s, step)
    ensures PushesOk(Do(s, step))
  {
    hide Snapshot, SnapshotStart, Of, IsFirstPage;
  }

  lemma {:induction false} InvariantHolds(steps: seq<Step>)
    requires Run(steps).Some?
    ensures Invariant(Run(steps).value)
  {
    if |steps| > 0 {
      var front := steps[..|steps| - 1];
      InvariantHolds(front);
      InvariantStep(Run(front).value, steps[|steps| - 1]);
      hide Invariant, Do;
    }
  }

  /** A client that was not admitted, or has not joined yet, is never sent a log. */
  lemma NothingBeforeJoin(steps: seq<Step>)
    requires Run(steps).Some? && Run(steps).value.phase in {Connected, Rejected, Admitted}
    ensures Run(steps).value.received == {}
  {
    InvariantHolds(steps);
  }

  // ---------------------------------------------------------------- the gateway

  /** The client has every log that was announced. */
  predicate NoGap(s: State) {
    forall i :: 0 <= i < |s.pushed| ==> s.pushed[i] in s.received
  }

  function Uninterrupted(s: State, hasUser: bool, hasExecutionId: bool, access: Access, history: Option<set<nat>>): State {
    var checked := Do(s, CheckAccess(hasUser, hasExecutionId, access));
    if !checked.phase.Admitted? then checked
    else
      var buffered := Do(Do(checked, Join), SendSnapshot);
      if history.Some? then Do(buffered, SendHistory(history.value)) else Do(buffered, HistoryThrows)
  }

  lemma BufferedAfterJoin(s: State)
    requires Invariant(s) && s.phase == Admitted
    ensures var buffered := Do(Do(s, Join), SendSnapshot);
            && buffered.received == Of(s.pushed[SnapshotStart(s)..])
            && buffered == s.(phase := SnapshotSent, received := buffered.received, from := buffered.from)
  {
    SnapshotIsSuffix(Do(s, Join));
    hide Snapshot;
  }

  /** What a client has after an undisturbed subscription: buffer and history, so a gap exactly between the two. */
  lemma UninterruptedSubscription(s: State, hasUser: bool, hasExecutionId: bool, access: Access, rows: set<nat>)
    requires Invariant(s) && s.phase == Connected
    ensures var s' := Uninterrupted(s, hasUser, hasExecutionId, access, Some(rows));
            && (s'.phase == Subscribed <==> hasUser && hasExecutionId && access == Granted)
            && (s'.phase != Subscribed ==> s'.received == {})
            && (s'.phase == Subscribed ==> s'.received == rows + Of(s.pushed[SnapshotStart(s)..]))
            && (s'.phase == Subscribed ==> (NoGap(s') <==> forall i :: 0 <= i < SnapshotStart(s) ==> s.pushed[i] in rows))
  {
    var checked := Do(s, CheckAccess(hasUser, hasExecutionId, access));
    if checked.phase.Admitted? {
      BufferedAfterJoin(checked);
      GapsOf(s.pushed, rows, SnapshotStart(s));
      hide Of, SnapshotStart, Snapshot;
    }
  }

  /** Distinct rows, of which the later ones are held: what is missing is among the earlier ones. */
  lemma GapsOf(pushed: seq<nat>, rows: set<nat>, start: nat)
    requires Distinct(pushed) && start <= |pushed|
    ensures (forall i :: 0 <= i < |pushed| ==> pushed[i] in rows + Of(pushed[start..]))
            <==> forall i :: 0 <= i < start ==> pushed[i] in rows
  {
    forall i | 0 <= i < |pushed|
      ensures pushed[i] in Of(pushed[start..]) <==> start <= i
    {
      InSuffix(pushed, start, i);
    }
  }

  lemma InSuffix(pushed: seq<nat>, start: nat, i: nat)
    requires Distinct(pushed) && start <= |pushed| && i < |pushed|
    ensures pushed[i] in Of(pushed[start..]) <==> start <= i
  {
    if start <= i {
      assert pushed[start..][i - start] == pushed[i];
    }
  }

  /** The gateway's side of one subscription: each method runs from one await to the next. */
  class LogsGateway {
    var times: seq<int>
    var pushed: seq<nat>
    var cleared: nat
    var phase: Phase
    var received: set<nat>
    ghost var from: nat

    ghost function Now(): State
      reads this
    {
      State(times, pushed, cleared, phase, received, from)
    }

    constructor ()
      ensures Now() == INITIAL
    {
      times, pushed, cleared, phase, received, from := [], [], 0, Connected, {}, 0;
    }

    /** The checks at the top of handleSubscribe; a throwing access check ends in the catch branch. */
    method Admit(hasUser: bool, hasExecutionId: bool, access: Access) returns (admitted: bool)
      modifies this`phase
      ensures Now() == Do(old(Now()), CheckAccess(hasUser, hasExecutionId, access))
      ensures admitted == (phase == Admitted)
    {
      admitted := hasUser && hasExecutionId && access == Granted;
      phase := if admitted then Admitted else Rejected;
    }

    method JoinRoom()
      modifies this`phase, this`from
      ensures Now() == Do(old(Now()), Join)
    {
      phase := Joined;
      from := |pushed|;
    }

    method EmitBuffered()
      requires cleared <= |pushed|
      modifies this`phase, this`received, this`from
      ensures Now() == Do(old(Now()), SendSnapshot)
      ensures received == old(received) + Of(pushed[SnapshotStart(old(Now()))..])
    {
      SnapshotIsSuffix(Now());
      var bufferedLogs := LastN(pushed[cleared..], DEFAULT_BUFFER_SIZE);
      received := received + set row | row in bufferedLogs;
      phase := SnapshotSent;
      from := Min(from, SnapshotStart(Now()));
    }

    method EmitHistorical(rows: set<nat>)
      modifies this`phase, this`received
      ensures Now() == Do(old(Now()), SendHistory(rows))
    {
      received := received + rows;
      phase := Subscribed;
    }

    /** handleSubscribe when nothing else happens at its awaits; None stands for a history read that throws. */
    method HandleSubscribe(hasUser: bool, hasExecutionId: bool, access: Access, history: Option<set<nat>>)
      requires cleared <= |pushed|
      modifies this
      ensures Now() == Uninterrupted(old(Now()), hasUser, hasExecutionId, access, history)
    {
      var admitted := Admit(hasUser, hasExecutionId, access);
      if !admitted {
        return;
      }
      hide Snapshot, Of, SnapshotStart;
      JoinRoom();
      EmitBuffered();
      if history.Some? {
        EmitHistorical(history.value);
      } else {
        phase := SubscribeFailed;
      }
    }

    /** addLogs and handleNewLogs: one emit per log to everyone in the room. */
    method HandleNewLogs(rows: seq<nat>)
      modifies this`pushed, this`received
      ensures Now() == Do(old(Now()), Announce(rows))
    {
      var inRoom := phase in {Joined, SnapshotSent, Subscribed, SubscribeFailed};
      for k := 0 to |rows|
        invariant pushed == old(pushed)
        invariant received == if inRoom then old(received) + Of(rows[..k]) else old(received)
      {
        assert rows[..k + 1] == rows[..k] + [rows[k]];
        if inRoom {
          received := received + {rows[k]};
        }
      }
      assert rows[..|rows|] == rows;
      pushed := pushed + rows;
    }
  }

  /** Every push from one on is held. */
  predicate HoldsFrom(s: State, joined: nat) {
    joined <= |s.pushed| && Of(s.pushed[joined..]) <= s.received
  }

  lemma HeldStays(s: State, step: Step, joined: nat)
    requires Enabled(s, step) && s.InRoom() && Do(s, step).InRoom() && HoldsFrom(s, joined)
    ensures HoldsFrom(Do(s, step), joined)
  {
    if step.Announce? {
      SuffixGrows(s.pushed, step.rows, joined);
    }
    hide Of, Snapshot, IsFirstPage;
  }

  /** From the moment a client joins it is sent everything announced, until it leaves: no stretch is missed. */
  lemma {:induction false} JoinedMissesNoAnnouncement(before: seq<Step>, after: seq<Step>)
    requires Run(before + [Join] + after).Some? && Run(before + [Join] + after).value.InRoom()
    ensures Run(before).Some? && HoldsFrom(Run(before + [Join] + after).value, |Run(before).value.pushed|)
    decreases |after|
  {
    hide Run, HoldsFrom;
    if |after| == 0 {
      assert before + [Join] + after == before + [Join];
      RunAppend(before, Join);
      JoinHolds(Run(before).value);
    } else {
      var n := |after| - 1;
      assert before + [Join] + after == before + [Join] + after[..n] + [after[n]];
      RunAppend(before + [Join] + after[..n], after[n]);
      JoinedStays(before, after[..n]);
      var s := Run(before + [Join] + after[..n]).value;
      if s.InRoom() {
        JoinedMissesNoAnnouncement(before, after[..n]);
        HeldStays(s, after[n], |Run(before).value.pushed|);
      }
    }
  }

  lemma JoinHolds(s: State)
    ensures HoldsFrom(Do(s, Join), |s.pushed|)
  {
    NothingHeld(s.pushed);
  }

  lemma {:induction false} JoinedStays(before: seq<Step>, after: seq<Step>)
    requires Run(before + [Join] + after).Some?
    ensures Run(before).Some?
    ensures Run(before + [Join] + after).value.phase in {Joined, SnapshotSent, Subscribed, SubscribeFailed, Left}
    decreases |after|
  {
    hide Run;
    if |after| == 0 {
      assert before + [Join] + after == before + [Join];
      RunAppend(before, Join);
    } else {
      var n := |after| - 1;
      assert before + [Join] + after == before + [Join] + after[..n] + [after[n]];
      RunAppend(before + [Join] + after[..n], after[n]);
      JoinedStays(before, after[..n]);
    }
  }

  // ---------------------------------------------------------------- which rows are on every first page

  /** The other rows that the query may put before a row. */
  function Earlier(times: seq<int>, row: nat): (r: set<nat>)
    requires row < |times|
    ensures forall j: nat :: j in r <==> j < |times| && j != row && times[j] <= times[row]
  {
    set j: nat | j < |times| && j != row && times[j] <= times[row]
  }

  function Positions(lo: nat, hi: nat): (r: set<nat>)
    ensures forall i: nat :: i in r <==> lo <= i < hi
  {
    if lo >= hi then {} else Positions(lo, hi - 1) + {hi - 1}
  }

  lemma {:induction false} PositionsCount(lo: nat, hi: nat)
    requires lo <= hi
    ensures |Positions(lo, hi)| == hi - lo
  {
    if lo < hi {
      PositionsCount(lo, hi - 1);
      assert Positions(lo, hi) == Positions(lo, hi - 1) + {hi - 1};
    }
  }

  lemma SubsetCount(a: set<nat>, b: set<nat>)
    requires a <= b && |a| == |b|
    ensures a == b
  {
    assert |b - a| == |b| - |a|;
  }

  lemma SubsetIsNoLarger(a: set<nat>, b: set<nat>)
    requires a <= b
    ensures |a| <= |b|
  {
    assert |b - a| == |b| - |a|;
  }

  /** A row that fewer than 1000 others may precede is on every legal first page. */
  lemma SureRowIsOnPage(times: seq<int>, rows: set<nat>, row: nat)
    requires IsFirstPage(times, rows) && row < |times| && |Earlier(times, row)| < HISTORY_LIMIT
    ensures row in rows
  {
    if row !in rows {
      assert rows <= Earlier(times, row);
      SubsetIsNoLarger(rows, Earlier(times, row));
      PositionsCount(0, |times|);
      SubsetCount(rows, Positions(0, |times|));
      assert false;
    }
  }

  lemma {:induction false} LatestOf(times: seq<int>, rows: set<nat>) returns (latest: nat)
    requires rows != {} && forall i :: i in rows ==> i < |times|
    ensures latest in rows && forall i :: i in rows ==> times[i] <= times[latest]
    decreases |rows|
  {
    latest :| latest in rows;
    var rest := rows - {latest};
    if rest != {} {
      var other := LatestOf(times, rest);
      if times[latest] < times[other] {
        latest := other;
      }
    }
  }

  /** The n earliest of some rows. */
  lemma {:induction false} EarliestOf(times: seq<int>, rows: set<nat>, n: nat) returns (chosen: set<nat>)
    requires n <= |rows| && forall i :: i in rows ==> i < |times|
    ensures chosen <= rows && |chosen| == n
    ensures forall i, j :: i in chosen && j in rows && j !in chosen ==> times[i] <= times[j]
    decreases |rows|
  {
    if |rows| == n {
      chosen := rows;
    } else {
      var latest := LatestOf(times, rows);
      chosen := EarliestOf(times, rows - {latest}, n);
    }
  }

  /** A row that 1000 others may precede is left out of some legal first page. */
  lemma UnsureRowMayBeMissing(times: seq<int>, row: nat) returns (rows: set<nat>)
    requires row < |times| && |Earlier(times, row)| >= HISTORY_LIMIT
    ensures IsFirstPage(times, rows) && row !in rows
  {
    var earlier, others := Earlier(times, row), Positions(0, |times|) - {row};
    SubsetIsNoLarger(earlier, others);
    SubsetIsNoLarger(others, Positions(0, |times|));
    PositionsCount(0, |times|);
    rows := EarliestOf(times, others, HISTORY_LIMIT);
    hide Earlier;
    forall i | i in rows
      ensures times[i] <= times[row]
    {
      if times[i] > times[row] {
        var j := OneLeftOut(earlier, rows, i);
        assert false;
      }
    }
  }

  /** A set at least as large as another, that lacks one of the other's members, has a member the other lacks. */
  lemma OneLeftOut(larger: set<nat>, smaller: set<nat>, i: nat) returns (j: nat)
    requires |larger| >= |smaller| && i in smaller && i !in larger
    ensures j in larger && j !in smaller
  {
    if larger <= smaller {
      SubsetIsNoLarger(larger, smaller - {i});
      assert false;
    }
    j :| j in larger && j !in smaller;
  }

  // ---------------------------------------------------------------- no gap

  /** Every announced log from before the first the client has is sure to be on the first page. */
  predicate HistoryReaches(s: State)
    requires Invariant(s)
  {
    forall i :: 0 <= i < s.from && i < |s.pushed| ==> IsSure(s, s.pushed[i])
  }

  predicate IsSure(s: State, row: nat) {
    row < |s.times| && |Earlier(s.times, row)| < HISTORY_LIMIT
  }

  lemma HistoryClosesGap(s: State, rows: set<nat>)
    requires Invariant(s) && s.phase == SnapshotSent && IsFirstPage(s.times, rows) && HistoryReaches(s)
    ensures NoGap(Do(s, SendHistory(rows)))
  {
    hide Earlier, IsFirstPage;
    forall i | 0 <= i < |s.pushed|
      ensures s.pushed[i] in s.received + rows
    {
      if i < s.from {
        assert IsSure(s, s.pushed[i]);
        SureRowIsOnPage(s.times, rows, s.pushed[i]);
      } else {
        InSuffix(s.pushed, s.from, i);
      }
    }
  }

  lemma UnsureRowLeavesGap(s: State, i: nat) returns (rows: set<nat>)
    requires Invariant(s) && s.phase == SnapshotSent && i < s.from && !IsSure(s, s.pushed[i])
    ensures IsFirstPage(s.times, rows) && !NoGap(Do(s, SendHistory(rows)))
  {
    assert s.pushed[i] in s.pushed;
    rows := UnsureRowMayBeMissing(s.times, s.pushed[i]);
    InSuffix(s.pushed, s.from, i);
    hide IsFirstPage, Earlier, Of;
    assert Do(s, SendHistory(rows)).pushed[i] == s.pushed[i];
  }

  /**
   * Whatever happened before, reading the history leaves the client without a gap for every legal page if and only
   * if fewer than 1000 other rows may precede each announced log it does not have yet.
   */
  lemma NoGapExactlyWhenHistoryReaches(steps: seq<Step>)
    requires Run(steps).Some? && Run(steps).value.phase == SnapshotSent
    ensures Invariant(Run(steps).value)
    ensures var s := Run(steps).value;
            (forall rows :: IsFirstPage(s.times, rows) ==> NoGap(Do(s, SendHistory(rows)))) <==> HistoryReaches(s)
  {
    InvariantHolds(steps);
    var s := Run(steps).value;
    hide Run, IsFirstPage, NoGap, IsSure, Do;
    if HistoryReaches(s) {
      forall rows | IsFirstPage(s.times, rows)
        ensures NoGap(Do(s, SendHistory(rows)))
      {
        HistoryClosesGap(s, rows);
      }
    } else {
      var i :| 0 <= i < s.from && i < |s.pushed| && !IsSure(s, s.pushed[i]);
      var rows := UnsureRowLeavesGap(s, i);
    }
  }

  lemma NoGapStep(s: State, step: Step)
    requires Enabled(s, step) && s.phase == Subscribed && NoGap(s)
    ensures NoGap(Do(s, step))
  {
    if step.Announce? {
      forall i | 0 <= i < |Do(s, step).pushed|
        ensures Do(s, step).pushed[i] in Do(s, step).received
      {
        if i >= |s.pushed| {
          assert Do(s, step).pushed[i] == step.rows[i - |s.pushed|];
        }
      }
    }
  }

  /** From then on the client stays complete for as long as it is subscribed, in every run. */
  lemma {:induction false} SubscriberMissesNothing(before: seq<Step>, rows: set<nat>, after: seq<Step>)
    requires Run(before).Some? && Invariant(Run(before).value) && HistoryReaches(Run(before).value)
    requires Run(before + [SendHistory(rows)] + after).Some?
    requires Run(before + [SendHistory(rows)] + after).value.phase == Subscribed
    ensures NoGap(Run(before + [SendHistory(rows)] + after).value)
    decreases |after|
  {
    hide Run, HistoryReaches, Invariant;
    var read := before + [SendHistory(rows)];
    if |after| == 0 {
      assert read + after == read;
      RunAppend(before, SendHistory(rows));
      HistoryClosesGap(Run(before).value, rows);
    } else {
      var n := |after| - 1;
      assert read + after == read + after[..n] + [after[n]];
      RunAppend(read + after[..n], after[n]);
      StaysPastHistory(before, rows, after[..n]);
      hide NoGap;
      SubscriberMissesNothing(before, rows, after[..n]);
      NoGapStep(Run(read + after[..n]).value, after[n]);
    }
  }

  lemma {:induction false} StaysPastHistory(before: seq<Step>, rows: set<nat>, after: seq<Step>)
    requires Run(before + [SendHistory(rows)] + after).Some?
    ensures Run(before).Some? && Run(before + [SendHistory(rows)] + after).value.phase in {Subscribed, Left}
    decreases |after|
  {
    hide Run;
    var read := before + [SendHistory(rows)];
    if |after| == 0 {
      assert read + after == read;
      RunAppend(before, SendHistory(rows));
    } else {
      var n := |after| - 1;
      assert read + after == read + after[..n] + [after[n]];
      RunAppend(read + after[..n], after[n]);
      StaysPastHistory(before, rows, after[..n]);
    }
  }

  /** A row that is never announced, such as one that a recovery saved, reaches a client through its history page or not at all. */
  lemma {:induction false} UnannouncedOnlyThroughHistory(before: seq<Step>, rows: set<nat>, after: seq<Step>, row: nat)
    requires Run(before + [SendHistory(rows)] + after).Some?
    requires row !in Run(before + [SendHistory(rows)] + after).value.pushed
    ensures row in Run(before + [SendHistory(rows)] + after).value.received <==> row in rows
    decreases |after|
  {
    hide Run;
    var read := before + [SendHistory(rows)];
    if |after| == 0 {
      assert read + after == read;
      RunAppend(before, SendHistory(rows));
      InvariantHolds(before);
    } else {
      var n := |after| - 1;
      assert read + after == read + after[..n] + [after[n]];
      RunAppend(read + after[..n], after[n]);
      StaysPastHistory(before, rows, after[..n]);
      UnannouncedOnlyThroughHistory(before, rows, after[..n], row);
    }
  }

  // ---------------------------------------------------------------- when history reaches

  lemma {:induction false} AfterSnapshot(before: seq<Step>, between: seq<Step>)
    requires Run(before + [SendSnapshot] + between).Some?
    ensures Run(before).Some?
    ensures var s := Run(before + [SendSnapshot] + between).value;
            && s.phase in {SnapshotSent, Subscribed, SubscribeFailed, Left}
            && s.from == Do(Run(before).value, SendSnapshot).from
    decreases |between|
  {
    hide Run;
    var sent := before + [SendSnapshot];
    if |between| == 0 {
      assert sent + between == sent;
      RunAppend(before, SendSnapshot);
      InvariantHolds(before);
    } else {
      var n := |between| - 1;
      assert sent + between == sent + between[..n] + [between[n]];
      RunAppend(sent + between[..n], between[n]);
      AfterSnapshot(before, between[..n]);
    }
  }

  /**
   * When at most 2000 logs had been pushed at the moment the buffer was sent, nothing had been cleared, every row is
   * announced in order and later than the one before, the history reaches, whatever happens in between.
   */
  lemma TwoThousandDistinctTimesSuffice(before: seq<Step>, between: seq<Step>)
    requires Run(before + [SendSnapshot] + between).Some?
    requires Run(before).Some? ==>
               Run(before).value.cleared == 0 && |Run(before).value.pushed| <= DEFAULT_BUFFER_SIZE + HISTORY_LIMIT
    requires var s := Run(before + [SendSnapshot] + between).value;
             && (forall i, j :: 0 <= i < j < |s.times| ==> s.times[i] < s.times[j])
             && (forall i :: 0 <= i < |s.pushed| ==> s.pushed[i] == i)
    ensures Invariant(Run(before + [SendSnapshot] + between).value)
    ensures HistoryReaches(Run(before + [SendSnapshot] + between).value)
  {
    AfterSnapshot(before, between);
    InvariantHolds(before + [SendSnapshot] + between);
    var s := Run(before + [SendSnapshot] + between).value;
    assert s.from <= HISTORY_LIMIT;
    hide Run, Invariant, Do;
    forall i | 0 <= i < s.from && i < |s.pushed|
      ensures IsSure(s, s.pushed[i])
    {
      assert PushesOk(s) && s.pushed[i] in s.pushed;
      assert Earlier(s.times, i) <= Positions(0, i);
      SubsetIsNoLarger(Earlier(s.times, i), Positions(0, i));
      PositionsCount(0, i);
    }
  }

  /**
   * If the database happened to answer with the first 1000 rows by insertion, there would be no gap exactly when
   * those include every announced log the client does not have.
   */
  lemma InsertionOrderTies(s: State)
    requires Invariant(s) && s.phase == SnapshotSent
    ensures NoGap(Do(s, SendHistory(Positions(0, Min(HISTORY_LIMIT, |s.times|)))))
            <==> forall i :: 0 <= i < s.from ==> s.pushed[i] < HISTORY_LIMIT
  {
    var page := Positions(0, Min(HISTORY_LIMIT, |s.times|));
    assert forall i :: 0 <= i < |s.pushed| ==> s.pushed[i] in s.pushed;
    GapsOf(s.pushed, page, s.from);
    assert s.received + page == page + Of(s.pushed[s.from..]);
    hide Of, Positions;
  }

  /** 1001 logs of one millisecond are saved and announced, and then a client subscribes. */
  function TiedSteps(): seq<Step> {
    [Save(seq(HISTORY_LIMIT + 1, _ => 0))] + [Announce(seq(HISTORY_LIMIT + 1, i => i))] + [CheckAccess(true, true, Granted)]
    + [Join] + [SendSnapshot]
  }

  lemma CountingIsDistinct(rows: seq<nat>)
    requires forall i :: 0 <= i < |rows| ==> rows[i] == i
    ensures Distinct([] + rows) && forall row :: row in rows ==> row < |rows|
  {
    assert [] + rows == rows;
  }

  lemma AfterAdmission(times: seq<int>, rows: seq<nat>)
    requires |times| == |rows| && forall i :: 0 <= i < |rows| ==> rows[i] == i
    ensures Run([Save(times)] + [Announce(rows)] + [CheckAccess(true, true, Granted)]) == Some(State(times, rows, 0, Admitted, {}, 0))
  {
    var save, announce := [Save(times)], [Announce(rows)];
    assert [] + save == save && [] + times == times && [] + rows == rows && Run([]) == Some(INITIAL);
    RunAppend([], save[0]);
    RunAppend(save, announce[0]);
    RunAppend(save + announce, CheckAccess(true, true, Granted));
    hide Run, Of, Snapshot, Distinct;
    CountingIsDistinct(rows);
  }

  lemma AfterTiedSteps()
    ensures Run(TiedSteps()).Some?
    ensures var s := Run(TiedSteps()).value;
            && s.phase == SnapshotSent && s.from == 1 && s.pushed == seq(HISTORY_LIMIT + 1, i => i)
            && s.times == seq(HISTORY_LIMIT + 1, _ => 0)
  {
    var times, rows := seq(HISTORY_LIMIT + 1, _ => 0), seq(HISTORY_LIMIT + 1, i => i);
    var admitted := [Save(times)] + [Announce(rows)] + [CheckAccess(true, true, Granted)];
    AfterAdmission(times, rows);
    RunAppend(admitted, Join);
    RunAppend(admitted + [Join], SendSnapshot);
    hide Run, Of, Snapshot;
  }

  lemma AllButTheFirst(times: seq<int>, rows: set<nat>)
    requires |times| == HISTORY_LIMIT + 1 && forall i :: 0 <= i < |times| ==> times[i] == 0
    requires forall i: nat :: i in rows <==> 1 <= i <= HISTORY_LIMIT
    ensures IsFirstPage(times, rows)
  {
    hide Positions;
    PositionsCount(1, HISTORY_LIMIT + 1);
    assert rows == Positions(1, HISTORY_LIMIT + 1);
  }

  /** In that run a page the query allows leaves out the oldest log, the one log the ring no longer holds. */
  lemma TieHidesALog(rows: set<nat>)
    requires forall i: nat :: i in rows <==> 1 <= i <= HISTORY_LIMIT
    ensures Run(TiedSteps() + [SendHistory(rows)]).Some?
    ensures var s := Run(TiedSteps() + [SendHistory(rows)]).value;
            s.phase == Subscribed && |s.pushed| == HISTORY_LIMIT + 1 && s.pushed[0] == 0 && 0 !in s.received
  {
    hide TiedSteps, IsFirstPage, Run, Of;
    AfterTiedSteps();
    InvariantHolds(TiedSteps());
    var s := Run(TiedSteps()).value;
    InSuffix(s.pushed, 1, 0);
    AllButTheFirst(s.times, rows);
    RunAppend(TiedSteps(), SendHistory(rows));
  }
}
