/**
 * De-duplication of EventBridge events: SETNX claims a key for the event id, a second command gives the key a
 * lifetime. The two commands of concurrent calls interleave, replies get lost, and a failing SETNX counts the
 * event as new.
 */
module Dedup {
  import opened Sequences

  const EVENT_TTL: nat := 3600 * 1000   // milliseconds

  /** How a Redis command went: executed and answered, not executed, or executed with the answer lost. */
  datatype Reply = Answered | Refused | Lost

  datatype Phase = Expiring | New | Duplicate | Handled

  /** The endpoint that asked: /events/check only reports, /events/process goes on to the event's handler. */
  datatype Endpoint = Check | Process

  datatype Call = Call(event: string, endpoint: Endpoint, at: nat, setnx: Reply,
                       placed: bool,              // this call's SETNX created the key
                       expiredAt: Option<nat>,    // when its EXPIRE took effect
                       phase: Phase,
                       ranAt: Option<nat>)        // when the body of the event's handler ran for this call

  datatype State = State(keys: map<string, Option<nat>>, now: nat, calls: seq<Call>)   // a key and its end, if any

  const INITIAL := State(map[], 0, [])

  datatype Step =
    | Tick(ms: nat)
    | Arrive(event: string, endpoint: Endpoint, reply: Reply)   // the call's SETNX
    | Expire(call: nat, reply: Reply)                           // the EXPIRE of a call whose SETNX returned 1
    | Handle(call: nat)                                         // the body of the event's handler

  predicate Visible(keys: map<string, Option<nat>>, event: string, now: nat) {
    event in keys && (keys[event].None? || now < keys[event].value)
  }

  function Do(s: State, step: Step): State {
    match step
    case Tick(ms) => s.(now := s.now + ms)
    case Arrive(event, endpoint, reply) =>
      var placed := !reply.Refused? && !Visible(s.keys, event, s.now);
      var phase := if !reply.Answered? then New else if placed then Expiring else Duplicate;
      s.(keys := if placed then s.keys[event := None] else s.keys,
         calls := s.calls + [Call(event, endpoint, s.now, reply, placed, None, phase, None)])
    case Expire(k, reply) =>
      if k >= |s.calls| || !s.calls[k].phase.Expiring? then s
      else
        var c := s.calls[k];
        var applied := !reply.Refused? && Visible(s.keys, c.event, s.now);
        s.(keys := if applied then s.keys[c.event := Some(s.now + EVENT_TTL)] else s.keys,
           calls := s.calls[k := c.(phase := New, expiredAt := if applied then Some(s.now) else None)])
    case Handle(k) =>
      if k >= |s.calls| || !s.calls[k].phase.New? || s.calls[k].endpoint.Check? then s
      else s.(calls := s.calls[k := s.calls[k].(phase := Handled, ranAt := Some(s.now))])
  }

  function Run(steps: seq<Step>): State {
    if |steps| == 0 then INITIAL else Do(Run(steps[..|steps| - 1]), steps[|steps| - 1])
  }

  /** The key store and the calls in flight; every Redis command is atomic, whatever happens between two of them. */
  class RedisService {
    var keys: map<string, Option<nat>>
    var now: nat
    var calls: seq<Call>

    ghost function Snapshot(): State
      reads this
    {
      State(keys, now, calls)
    }

    constructor ()
      ensures Snapshot() == INITIAL
    {
      keys, now, calls := map[], 0, [];
    }

    /** SETNX: whether the key was created, whatever the caller hears of it. */
    method Setnx(key: string, reply: Reply) returns (created: bool)
      modifies this`keys
      ensures created == (!reply.Refused? && !Visible(old(keys), key, now))
      ensures keys == if created then old(keys)[key := None] else old(keys)
    {
      created := !reply.Refused? && (key !in keys || (keys[key].Some? && keys[key].value <= now));
      if created {
        keys := keys[key := None];
      }
    }

    method SetExpiry(key: string, reply: Reply) returns (applied: bool)
      modifies this`keys
      ensures applied == (!reply.Refused? && Visible(old(keys), key, now))
      ensures keys == if applied then old(keys)[key := Some(now + EVENT_TTL)] else old(keys)
    {
      applied := !reply.Refused? && key in keys && (keys[key].None? || now < keys[key].value);
      if applied {
        keys := keys[key := Some(now + EVENT_TTL)];
      }
    }

    /** checkDuplicate up to its first await; a thrown error makes EventBridgeService report the event as new. */
    method BeginCheck(event: string, endpoint: Endpoint, reply: Reply) returns (call: nat)
      modifies this`keys, this`calls
      ensures Snapshot() == Do(old(Snapshot()), Arrive(event, endpoint, reply)) && call == |old(calls)|
    {
      var created := Setnx(event, reply);
      var phase := Duplicate;
      if !reply.Answered? {
        phase := New;
      } else if created {
        phase := Expiring;
      }
      call := |calls|;
      calls := calls + [Call(event, endpoint, now, reply, created, None, phase, None)];
    }

    method FinishCheck(call: nat, reply: Reply)
      modifies this`keys, this`calls
      ensures Snapshot() == Do(old(Snapshot()), Expire(call, reply))
    {
      if call < |calls| && calls[call].phase == Expiring {
        var applied := SetExpiry(calls[call].event, reply);
        calls := calls[call := calls[call].(phase := New, expiredAt := if applied then Some(now) else None)];
      }
    }

    /** processEvent after the verdict. */
    method RunHandler(call: nat)
      modifies this`calls
      ensures Snapshot() == Do(old(Snapshot()), Handle(call))
    {
      if call < |calls| && calls[call].phase == New && calls[call].endpoint == Process {
        calls := calls[call := calls[call].(phase := Handled, ranAt := Some(now))];
      }
    }
  }

  // ---------------------------------------------------------------- the history behind the key store

  /** The end of the lifetime the call gave its key, if it gave it one. */
  function End(c: Call): Option<nat> {
    if c.expiredAt.Some? then Some(c.expiredAt.value + EVENT_TTL) else None
  }

  /** The call created the key, and the key has not run out since. */
  predicate Holds(c: Call, event: string, now: nat) {
    c.placed && c.event == event && (End(c).None? || now < End(c).value)
  }

  predicate CallOk(c: Call, now: nat) {
    && c.at <= now
    && (c.expiredAt.Some? ==> c.at <= c.expiredAt.value <= now)
    && (c.phase.Expiring? ==> c.placed && c.setnx.Answered? && c.expiredAt.None?)
    && (c.phase.Duplicate? ==> !c.placed)
    && (c.phase.Duplicate? ==> c.setnx.Answered?)
    && (!c.placed ==> c.expiredAt.None? && !(c.setnx.Answered? && !c.phase.Duplicate?))
    && (c.phase.Handled? <==> c.ranAt.Some?)
    && (c.ranAt.Some? ==> c.endpoint.Process? && c.at <= c.ranAt.value <= now)
    && (c.ranAt.Some? && c.expiredAt.Some? ==> c.expiredAt.value <= c.ranAt.value)
  }

  /** A key is created only after the lifetime that the call before gave it. */
  predicate TakesTurns(calls: seq<Call>) {
    forall i, j :: 0 <= i < j < |calls| && calls[i].placed && calls[j].placed && calls[i].event == calls[j].event ==>
      End(calls[i]).Some? && End(calls[i]).value <= calls[j].at
  }

  predicate KeyFollows(s: State, c: Call) {
    c.placed ==> c.event in s.keys && (s.keys[c.event] == End(c) || (End(c).Some? && End(c).value <= s.now))
  }

  predicate HasCreator(s: State, event: string)
    requires event in s.keys
  {
    exists c :: c in s.calls && c.placed && c.event == event && End(c) == s.keys[event]
  }

  predicate Invariant(s: State) {
    && (forall c :: c in s.calls ==> CallOk(c, s.now) && KeyFollows(s, c))
    && TakesTurns(s.calls)
    && (forall e :: e in s.keys ==> HasCreator(s, e))
  }

  lemma ArriveKeepsInvariant(s: State, event: string, endpoint: Endpoint, reply: Reply)
    requires Invariant(s)
    ensures Invariant(Do(s, Arrive(event, endpoint, reply)))
  {
    var s' := Do(s, Arrive(event, endpoint, reply));
    var c := s'.calls[|s.calls|];
    assert s'.calls == s.calls + [c];
    forall d | d in s'.calls
      ensures CallOk(d, s'.now) && KeyFollows(s', d)
    {
      if d != c {
        assert d in s.calls;
      }
    }
    forall e | e in s'.keys
      ensures HasCreator(s', e)
    {
      if c.placed && e == event {
        assert c in s'.calls && End(c) == s'.keys[e];
      } else {
        var d :| d in s.calls && d.placed && d.event == e && End(d) == s.keys[e];
        assert d in s'.calls;
      }
    }
    assert TakesTurns(s'.calls) by {
      forall i | 0 <= i < |s.calls| && s.calls[i].placed && c.placed && s.calls[i].event == event
        ensures End(s.calls[i]).Some? && End(s.calls[i]).value <= c.at
      {
        assert s.calls[i] in s.calls;
      }
    }
  }

  /** A call may learn when its key expires, once; the turns stay as they were. */
  lemma TurnsKept(calls: seq<Call>, k: nat, c: Call)
    requires TakesTurns(calls) && k < |calls|
    requires c.event == calls[k].event && c.placed == calls[k].placed && c.at == calls[k].at
    requires c.expiredAt == calls[k].expiredAt || calls[k].expiredAt.None?
    ensures TakesTurns(calls[k := c])
  {
  }

  lemma {:induction false} CreatorsKept(s: State, s': State, k: nat, event: string)
    requires k < |s.calls| && event in s.keys && HasCreator(s, event) && event in s'.keys
    requires |s'.calls| == |s.calls| && s'.calls == s.calls[k := s'.calls[k]] && s'.keys[event] == s.keys[event]
    requires s'.calls[k].event == s.calls[k].event && s'.calls[k].placed == s.calls[k].placed
    requires s'.calls[k].expiredAt == s.calls[k].expiredAt || s.calls[k].event != event
    ensures HasCreator(s', event)
  {
    var d :| d in s.calls && d.placed && d.event == event && End(d) == s.keys[event];
    var i :| 0 <= i < |s.calls| && s.calls[i] == d;
    assert s'.calls[i] in s'.calls;
  }

  lemma ExpireKeepsInvariant(s: State, k: nat, reply: Reply)
    requires Invariant(s) && k < |s.calls| && s.calls[k].phase.Expiring?
    ensures Invariant(Do(s, Expire(k, reply)))
  {
    var s' := Do(s, Expire(k, reply));
    var c, c' := s.calls[k], s'.calls[k];
    assert c in s.calls && CallOk(c, s.now) && KeyFollows(s, c);
    assert s.keys[c.event].None?;
    TurnsKept(s.calls, k, c');
    hide TakesTurns, HasCreator;
    forall i | 0 <= i < |s'.calls|
      ensures CallOk(s'.calls[i], s'.now) && KeyFollows(s', s'.calls[i])
    {
      assert s.calls[i] in s.calls;
      if i != k && s.calls[i].placed && s.calls[i].event == c.event {
        OnlyOneUnended(s, i, k);
      }
    }
    forall e | e in s'.keys
      ensures HasCreator(s', e)
    {
      if reply.Refused? || e != c.event {
        CreatorsKept(s, s', k, e);
      } else {
        CreatedBy(s', e, c');
      }
    }
  }

  lemma CreatedBy(s: State, event: string, c: Call)
    requires event in s.keys && c in s.calls && c.placed && c.event == event && End(c) == s.keys[event]
    ensures HasCreator(s, event)
  {
  }

  lemma OnlyOneUnended(s: State, i: nat, k: nat)
    requires TakesTurns(s.calls) && i < |s.calls| && k < |s.calls| && i != k
    requires s.calls[i].placed && s.calls[k].placed && s.calls[i].event == s.calls[k].event && s.calls[k].expiredAt.None?
    requires s.calls[k].at <= s.now
    ensures End(s.calls[i]).Some? && End(s.calls[i]).value <= s.now
  {
  }

  lemma HandleKeepsInvariant(s: State, k: nat)
    requires Invariant(s) && k < |s.calls| && s.calls[k].phase.New? && s.calls[k].endpoint.Process?
    ensures Invariant(Do(s, Handle(k)))
  {
    var s' := Do(s, Handle(k));
    TurnsKept(s.calls, k, s'.calls[k]);
    hide TakesTurns, HasCreator;
    forall i | 0 <= i < |s'.calls|
      ensures CallOk(s'.calls[i], s'.now) && KeyFollows(s', s'.calls[i])
    {
      assert s.calls[i] in s.calls;
    }
    forall e | e in s'.keys
      ensures HasCreator(s', e)
    {
      CreatorsKept(s, s', k, e);
    }
  }

  lemma {:induction false} InvariantHolds(steps: seq<Step>)
    ensures Invariant(Run(steps))
  {
    if |steps| > 0 {
      var s := Run(steps[..|steps| - 1]);
      InvariantHolds(steps[..|steps| - 1]);
      match steps[|steps| - 1]
      case Tick(ms) =>
        assert forall e :: e in s.keys ==> HasCreator(s, e) ==> HasCreator(Do(s, Tick(ms)), e);
      case Arrive(event, endpoint, reply) => ArriveKeepsInvariant(s, event, endpoint, reply);
      case Expire(k, reply) =>
        if k < |s.calls| && s.calls[k].phase.Expiring? {
          ExpireKeepsInvariant(s, k, reply);
        }
      case Handle(k) =>
        if k < |s.calls| && s.calls[k].phase.New? && s.calls[k].endpoint.Process? {
          HandleKeepsInvariant(s, k);
        }
    }
  }

  // ---------------------------------------------------------------- main results

  predicate Held(s: State, event: string) {
    exists i :: 0 <= i < |s.calls| && Holds(s.calls[i], event, s.now)
  }

  /** Redis is an index of the call history: a key is visible exactly when a call holds it. */
  lemma KeyVisibleExactlyWhenHeld(steps: seq<Step>, event: string)
    ensures var s := Run(steps); Visible(s.keys, event, s.now) <==> Held(s, event)
  {
    var s := Run(steps);
    InvariantHolds(steps);
    hide TakesTurns, CallOk;
    if Visible(s.keys, event, s.now) {
      assert HasCreator(s, event);
      var c :| c in s.calls && c.placed && c.event == event && End(c) == s.keys[event];
      var i :| 0 <= i < |s.calls| && s.calls[i] == c;
      assert Holds(s.calls[i], event, s.now);
    }
    if Held(s, event) {
      var i :| 0 <= i < |s.calls| && Holds(s.calls[i], event, s.now);
      assert s.calls[i] in s.calls && KeyFollows(s, s.calls[i]);
    }
  }

  /** Mutual exclusion: at any moment at most one call holds the key of an event. */
  lemma OneHolder(steps: seq<Step>, event: string, i: nat, j: nat)
    requires var s := Run(steps);
             i < |s.calls| && j < |s.calls| && Holds(s.calls[i], event, s.now) && Holds(s.calls[j], event, s.now)
    ensures i == j
  {
    InvariantHolds(steps);
    var c := Run(steps).calls;
    assert c[i] in c && c[j] in c;
  }

  /**
   * The verdict on the next call, from the history alone. It is called a duplicate exactly when its SETNX was
   * answered and an earlier call still holds the key; no event is dropped unless another call owns it.
   */
  lemma DuplicateExactlyWhenHeld(steps: seq<Step>, event: string, endpoint: Endpoint, reply: Reply)
    ensures var s, all := Run(steps), steps + [Arrive(event, endpoint, reply)];
            && |Run(all).calls| == |s.calls| + 1
            && (Run(all).calls[|s.calls|].phase.Duplicate? <==>
                reply.Answered? && Held(s, event))
  {
    KeyVisibleExactlyWhenHeld(steps, event);
    assert (steps + [Arrive(event, endpoint, reply)])[..|steps|] == steps;
  }

  /** Told, or about to be told, that the event is new. */
  predicate CountsAsNew(c: Call) {
    !c.phase.Duplicate?
  }

  predicate SetnxFailed(c: Call) {
    !c.setnx.Answered?
  }

  /**
   * The window. However SETNX and EXPIRE commands interleave, and whatever happens to the EXPIREs, two calls
   * for one event that both count as new lie at least an hour apart, unless the SETNX of one of them failed.
   */
  lemma NewVerdictsAreAnHourApart(steps: seq<Step>, i: nat, j: nat)
    requires i < j < |Run(steps).calls|
    requires var c := Run(steps).calls; c[i].event == c[j].event && CountsAsNew(c[i]) && CountsAsNew(c[j])
    requires var c := Run(steps).calls; !SetnxFailed(c[i]) && !SetnxFailed(c[j])
    ensures var c := Run(steps).calls; c[j].at >= c[i].at + EVENT_TTL
  {
    InvariantHolds(steps);
    var c := Run(steps).calls;
    assert c[i] in c && c[j] in c;
  }

  /** How long after its EXPIRE the body of a call ran: nothing bounds the stretch in which the history is saved. */
  function Delay(c: Call): int
    requires c.ranAt.Some? && c.expiredAt.Some?
  {
    c.ranAt.value - c.expiredAt.value
  }

  /**
   * The bodies. The second body runs at least an hour after the EXPIRE of the first call, so the two bodies are
   * apart by an hour less the delay of the first one. Unless a SETNX failed, bodies less than an hour apart mean
   * that the first was delayed.
   */
  lemma BodiesAreAnHourLessDelayApart(steps: seq<Step>, i: nat, j: nat)
    requires i < j < |Run(steps).calls|
    requires var c := Run(steps).calls; c[i].event == c[j].event && c[i].ranAt.Some? && c[j].ranAt.Some?
    requires var c := Run(steps).calls; !SetnxFailed(c[i]) && !SetnxFailed(c[j])
    ensures var c := Run(steps).calls;
            && c[i].expiredAt.Some? && c[j].ranAt.value >= c[i].expiredAt.value + EVENT_TTL
            && c[j].ranAt.value - c[i].ranAt.value >= EVENT_TTL - Delay(c[i])
  {
    InvariantHolds(steps);
    var c := Run(steps).calls;
    assert c[i] in c && c[j] in c;
  }

  lemma RunAppend(steps: seq<Step>, step: Step)
    ensures Run(steps + [step]) == Do(Run(steps), step)
  {
    assert (steps + [step])[..|steps|] == steps;
  }

  /** Two calls an hour apart with every command answered; both bodies are still to run. */
  function TwoTurns(event: string): seq<Step> {
    [Arrive(event, Process, Answered)] + [Expire(0, Answered)] + [Tick(EVENT_TTL)] + [Arrive(event, Process, Answered)]
    + [Expire(1, Answered)]
  }

  lemma AfterTwoTurns(event: string)
    ensures var s := Run(TwoTurns(event));
            && s.now == EVENT_TTL
            && s.calls == [Call(event, Process, 0, Answered, true, Some(0), New, None),
                           Call(event, Process, EVENT_TTL, Answered, true, Some(EVENT_TTL), New, None)]
  {
    var arrive, expire, tick := [Arrive(event, Process, Answered)], [Expire(0, Answered)], [Tick(EVENT_TTL)];
    assert [] + arrive == arrive;
    RunAppend([], arrive[0]);
    RunAppend(arrive, expire[0]);
    RunAppend(arrive + expire, tick[0]);
    RunAppend(arrive + expire + tick, arrive[0]);
    RunAppend(arrive + expire + tick + arrive, Expire(1, Answered));
    assert Run(arrive).calls == [Call(event, Process, 0, Answered, true, None, Expiring, None)];
    assert Run(arrive + expire).calls == [Call(event, Process, 0, Answered, true, Some(0), New, None)];
  }

  /**
   * That bound is exact for every delay: here the bodies are an hour less the delay apart. A delay of an hour
   * makes them run at one instant, a longer one turns their order around.
   */
  lemma DelayIsTheExactLoss(event: string, delay: nat)
    ensures var steps := if delay < EVENT_TTL then
                           [Arrive(event, Process, Answered)] + [Expire(0, Answered)] + [Tick(delay)] + [Handle(0)]
                           + [Tick(EVENT_TTL - delay)] + [Arrive(event, Process, Answered)] + [Expire(1, Answered)] + [Handle(1)]
                         else TwoTurns(event) + [Handle(1)] + [Tick(delay - EVENT_TTL)] + [Handle(0)];
            var c := Run(steps).calls;
            && |c| == 2 && c[0].event == c[1].event && !SetnxFailed(c[0]) && !SetnxFailed(c[1])
            && c[0].ranAt.Some? && c[0].expiredAt.Some? && c[1].ranAt.Some? && Delay(c[0]) == delay
            && c[1].ranAt.value - c[0].ranAt.value == EVENT_TTL - delay
  {
    if delay < EVENT_TTL {
      PromptBody(event, delay);
    } else {
      AfterTwoTurns(event);
      hide TwoTurns;
      var turns, second, tick := TwoTurns(event), [Handle(1)], [Tick(delay - EVENT_TTL)];
      RunAppend(turns, second[0]);
      RunAppend(turns + second, tick[0]);
      RunAppend(turns + second + tick, Handle(0));
    }
  }

  lemma PromptBody(event: string, delay: nat)
    requires delay < EVENT_TTL
    ensures Run([Arrive(event, Process, Answered)] + [Expire(0, Answered)] + [Tick(delay)] + [Handle(0)]
                + [Tick(EVENT_TTL - delay)] + [Arrive(event, Process, Answered)] + [Expire(1, Answered)] + [Handle(1)]).calls
            == [Call(event, Process, 0, Answered, true, Some(0), Handled, Some(delay)),
                Call(event, Process, EVENT_TTL, Answered, true, Some(EVENT_TTL), Handled, Some(EVENT_TTL))]
  {
    var arrive, expire, wait, handle := [Arrive(event, Process, Answered)], [Expire(0, Answered)], [Tick(delay)], [Handle(0)];
    var rest := [Tick(EVENT_TTL - delay)];
    assert [] + arrive == arrive;
    RunAppend([], arrive[0]);
    RunAppend(arrive, expire[0]);
    RunAppend(arrive + expire, wait[0]);
    RunAppend(arrive + expire + wait, handle[0]);
    var first := arrive + expire + wait + handle;
    assert Run(arrive).calls == [Call(event, Process, 0, Answered, true, None, Expiring, None)];
    assert Run(first).calls == [Call(event, Process, 0, Answered, true, Some(0), Handled, Some(delay))];
    RunAppend(first, rest[0]);
    RunAppend(first + rest, arrive[0]);
    RunAppend(first + rest + arrive, Expire(1, Answered));
    RunAppend(first + rest + arrive + [Expire(1, Answered)], Handle(1));
  }

  /** How often the body runs for a call over a run. */
  function Bodies(steps: seq<Step>, call: nat): nat {
    if |steps| == 0 then 0
    else
      var n := |steps| - 1;
      var s := Run(steps[..n]);
      Bodies(steps[..n], call) + if steps[n] == Handle(call) && Do(s, steps[n]) != s then 1 else 0
  }

  /** The body runs at most once for a call, and never for one that was told "duplicate" or that only checks. */
  lemma {:induction false} BodyRunsOncePerCall(steps: seq<Step>, call: nat)
    ensures var c := Run(steps).calls;
            && Bodies(steps, call) == (if call < |c| && c[call].ranAt.Some? then 1 else 0)
            && (Bodies(steps, call) > 0 ==> CountsAsNew(c[call]) && c[call].endpoint.Process?)
  {
    InvariantHolds(steps);
    var c := Run(steps).calls;
    assert call < |c| ==> c[call] in c;
    if |steps| > 0 {
      var n := |steps| - 1;
      BodyRunsOncePerCall(steps[..n], call);
      InvariantHolds(steps[..n]);
      RanOnce(Run(steps[..n]), steps[n], call);
    }
  }

  lemma RanOnce(s: State, step: Step, call: nat)
    requires Invariant(s)
    ensures var c, c' := s.calls, Do(s, step).calls;
            var ran, ran' := call < |c| && c[call].ranAt.Some?, call < |c'| && c'[call].ranAt.Some?;
            && (ran ==> ran') && (ran' && !ran <==> step == Handle(call) && Do(s, step) != s)
            && (step == Handle(call) && Do(s, step) != s ==> !ran)
  {
    assert forall i :: 0 <= i < |s.calls| ==> s.calls[i] in s.calls;
    hide TakesTurns, KeyFollows, HasCreator, Visible;
  }

  /** A failing SETNX lets a second body through at once. */
  lemma FailingSetnxRunsTwice(event: string)
    ensures var c := Run([Arrive(event, Process, Refused), Handle(0), Arrive(event, Process, Answered), Expire(1, Answered), Handle(1)]).calls;
            |c| == 2 && c[0].phase.Handled? && c[1].phase.Handled? && c[0].at == c[1].at && c[0].event == c[1].event
  {
    var steps := [Arrive(event, Process, Refused), Handle(0), Arrive(event, Process, Answered), Expire(1, Answered), Handle(1)];
    assert steps[..4][..3] == steps[..3] && steps[..3][..2] == steps[..2] && steps[..2][..1] == steps[..1] && steps[..1][..0] == [];
    var first := Do(INITIAL, steps[0]);
    assert Run(steps[..1]) == first;
    var second := Do(first, steps[1]);
    assert Run(steps[..2]) == second;
    var third := Do(second, steps[2]);
    assert Run(steps[..3]) == third;
    assert Run(steps[..4]) == Do(third, steps[3]);
  }

  /** For an hour after a call created the key, a call counts as new exactly when its own SETNX fails. */
  lemma OwnerShutsOutOthers(steps: seq<Step>, i: nat, j: nat)
    requires i < j < |Run(steps).calls|
    requires var c := Run(steps).calls; c[i].event == c[j].event && c[i].placed && c[j].at < c[i].at + EVENT_TTL
    ensures var c := Run(steps).calls; CountsAsNew(c[j]) <==> SetnxFailed(c[j])
  {
    InvariantHolds(steps);
    var c := Run(steps).calls;
    assert c[i] in c && c[j] in c;
  }

  /**
   * A call that dies, or whose EXPIRE fails, after it created the key leaves a key without end: from then on
   * a call counts as new only when its SETNX fails, however late it comes.
   */
  lemma UnfinishedCallOwnsForever(steps: seq<Step>, i: nat, j: nat)
    requires i < j < |Run(steps).calls|
    requires var c := Run(steps).calls; c[i].event == c[j].event && c[i].placed && c[i].expiredAt.None?
    ensures var c := Run(steps).calls; CountsAsNew(c[j]) <==> SetnxFailed(c[j])
  {
    InvariantHolds(steps);
    var c := Run(steps).calls;
    assert c[i] in c && c[j] in c;
  }

  /**
   * The forwarding function asks /events/check first, and that claims the very key /events/process then tests.
   * A check that reported "new" without an error is followed, for an hour, by a body only if SETNX then fails.
   */
  lemma CheckSwallowsProcess(steps: seq<Step>, check: nat, process: nat)
    requires check < process < |Run(steps).calls|
    requires var c := Run(steps).calls;
             && c[check].event == c[process].event && c[check].endpoint.Check? && CountsAsNew(c[check]) && !SetnxFailed(c[check])
             && c[process].at < c[check].at + EVENT_TTL && !SetnxFailed(c[process])
    ensures !Run(steps).calls[process].phase.Handled?
  {
    InvariantHolds(steps);
    assert Run(steps).calls[check] in Run(steps).calls;
    OwnerShutsOutOthers(steps, check, process);
  }
}
