/**
 * The in-memory log buffers: one ring buffer of 1000 entries per execution, kept in a map that
 * methods change in place, and the event each addition emits.
 */
module LogBuffer {
  import opened Sequences

  const DEFAULT_BUFFER_SIZE: nat := 1000

  datatype LogEntry = LogEntry(timestamp: int, message: string, level: string)

  lemma WrapAround(pointer: nat, capacity: nat)
    requires pointer < capacity
    ensures (pointer + 1) % capacity == if pointer + 1 == capacity then 0 else pointer + 1
  {
    if pointer + 1 < capacity {
      assert (pointer + 1) / capacity == 0;
    }
  }

  /** The cells, write position and size of a ring that has been pushed the given history. */
  ghost predicate IsRing<T>(cells: seq<T>, pointer: nat, size: nat, pushed: seq<T>) {
    && pointer < |cells|
    && size == Min(|pushed|, |cells|)
    && (size < |cells| ==> pointer == size && cells[..size] == pushed)
    && (size == |cells| ==> cells[pointer..] + cells[..pointer] == LastN(pushed, |cells|))
  }

  lemma RingAfterPush<T>(cells: seq<T>, pointer: nat, size: nat, pushed: seq<T>, item: T)
    requires IsRing(cells, pointer, size, pushed)
    ensures IsRing(cells[pointer := item], if pointer + 1 == |cells| then 0 else pointer + 1,
                   Min(size + 1, |cells|), pushed + [item])
  {
    var n, after := |cells|, cells[pointer := item];
    LastNAppend(pushed, item, n);
    if pointer + 1 == n {
      assert after[..n] == cells[..pointer] + [item];
    } else {
      assert after[pointer + 1..] == cells[pointer + 1..];
      assert after[..pointer + 1] == cells[..pointer] + [item];
    }
  }

  /** Pushed is the history since the last clear; the array only ever holds its last `capacity` entries. */
  class CircularBuffer<T(0)> {
    const capacity: nat
    var buffer: array<T>
    var pointer: nat
    var size: nat
    ghost var Pushed: seq<T>

    ghost predicate Valid()
      reads this, buffer
    {
      0 < capacity == buffer.Length && IsRing(buffer[..], pointer, size, Pushed)
    }

    constructor (capacity: nat)
      requires 0 < capacity
      ensures Valid() && this.capacity == capacity && Pushed == []
      ensures fresh(buffer)
    {
      this.capacity := capacity;
      buffer := new T[capacity];
      pointer, size := 0, 0;
      Pushed := [];
    }

    method Push(item: T)
      requires Valid()
      modifies this, buffer
      ensures Valid() && buffer == old(buffer)
      ensures Pushed == old(Pushed) + [item]
    {
      RingAfterPush(buffer[..], pointer, size, Pushed, item);
      WrapAround(pointer, capacity);
      buffer[pointer] := item;
      pointer := (pointer + 1) % capacity;
      size := Min(size + 1, capacity);
      Pushed := Pushed + [item];
    }

    method ToArray() returns (r: seq<T>)
      requires Valid()
      ensures r == LastN(Pushed, capacity)
    {
      if size < capacity {
        return buffer[..size];
      }
      return buffer[pointer..] + buffer[..pointer];
    }

    method Clear()
      requires Valid()
      modifies this
      ensures Valid() && Pushed == [] && fresh(buffer)
    {
      buffer := new T[capacity];
      pointer, size := 0, 0;
      Pushed := [];
    }
  }

  type Histories = map<string, seq<LogEntry>>

  function HistoryOf(h: Histories, id: string): seq<LogEntry> {
    if id in h then h[id] else []
  }

  /** `limit && limit > 0`: an absent, zero or negative limit means no limit. */
  function LimitOr(limit: Option<int>, default: nat): nat {
    if limit.Some? && limit.value > 0 && limit.value < default then limit.value else default
  }

  /** The number of entries held for a set of executions. */
  ghost function TotalHeld(h: Histories, ids: set<string>): nat
    requires ids <= h.Keys
  {
    if ids == {} then 0
    else
      var id :| id in ids;
      Min(|h[id]|, DEFAULT_BUFFER_SIZE) + TotalHeld(h, ids - {id})
  }

  /** The total does not depend on the order in which executions are visited. */
  lemma {:induction false} TotalHeldTake(h: Histories, ids: set<string>, id: string)
    requires ids <= h.Keys && id in ids
    ensures TotalHeld(h, ids) == Min(|h[id]|, DEFAULT_BUFFER_SIZE) + TotalHeld(h, ids - {id})
  {
    var first :| first in ids && TotalHeld(h, ids) == Min(|h[first]|, DEFAULT_BUFFER_SIZE) + TotalHeld(h, ids - {first});
    if first != id {
      TotalHeldTake(h, ids - {first}, id);
      TotalHeldTake(h, ids - {id}, first);
      assert ids - {first} - {id} == ids - {id} - {first};
    }
  }

  class LogBufferService {
    var buffers: map<string, CircularBuffer<LogEntry>>
    var emitted: seq<(string, seq<LogEntry>)>
    ghost var Contents: Histories
    ghost var Owner: map<object, string>
    ghost var Repr: set<object>

    /** Every buffer is intact, holds 1000 entries, and shares no storage with another (each object has one owner). */
    ghost predicate Valid()
      reads this, Repr
      ensures Valid() ==> this in Repr
    {
      && this in Repr && this !in Owner && Owner.Keys <= Repr
      && Contents.Keys == buffers.Keys
      && forall id :: id in buffers ==>
            buffers[id] in Repr && buffers[id].buffer in Repr && Intact(buffers[id], id, Contents[id], Owner, Repr)
    }

    static ghost predicate Intact(ring: CircularBuffer<LogEntry>, id: string, history: seq<LogEntry>,
                                  owner: map<object, string>, repr: set<object>)
      reads ring, ring.buffer
    {
      && ring in repr && ring.buffer in repr
      && ring in owner && owner[ring] == id && ring.buffer in owner && owner[ring.buffer] == id
      && ring.Valid() && ring.capacity == DEFAULT_BUFFER_SIZE && ring.Pushed == history
    }

    constructor ()
      ensures Valid() && fresh(Repr) && Contents == map[] && emitted == []
    {
      buffers, Contents, Owner := map[], map[], map[];
      emitted := [];
      Repr := {this};
    }

    /** The `buffers.has` test of addLogs: create the buffer on first use. */
    method EnsureBuffer(executionId: string)
      requires Valid()
      modifies this
      ensures Valid() && fresh(Repr - old(Repr)) && executionId in buffers
      ensures forall id :: id in old(buffers) ==> id in buffers && buffers[id] == old(buffers[id])
      ensures Contents == old(Contents)[executionId := HistoryOf(old(Contents), executionId)]
      ensures emitted == old(emitted)
    {
      if executionId !in buffers {
        var b := new CircularBuffer<LogEntry>(DEFAULT_BUFFER_SIZE);
        Install(executionId, b);
      }
    }

    method Install(executionId: string, b: CircularBuffer<LogEntry>)
      requires Valid() && executionId !in buffers
      requires b.Valid() && b.capacity == DEFAULT_BUFFER_SIZE && b.Pushed == []
      requires b !in Repr && b.buffer !in Repr
      modifies this
      ensures Valid() && Repr == old(Repr) + {b, b.buffer} && buffers == old(buffers)[executionId := b]
      ensures Contents == old(Contents)[executionId := []]
      ensures emitted == old(emitted)
    {
      Adopt(executionId, b);
      assert Intact(b, executionId, [], Owner, Repr);
      hide Intact, CircularBuffer.Valid;
      buffers := buffers[executionId := b];
      Contents := Contents[executionId := []];
    }

    /** A new ring and its array get their owner before the map knows of them. */
    ghost method Adopt(executionId: string, b: CircularBuffer<LogEntry>)
      requires Valid() && b !in Repr && b.buffer !in Repr
      modifies this`Owner, this`Repr
      ensures Valid() && Repr == old(Repr) + {b, b.buffer}
      ensures b in Owner && Owner[b] == executionId && b.buffer in Owner && Owner[b.buffer] == executionId
    {
      hide CircularBuffer.Valid;
      Owner := Owner[b := executionId];
      Owner := Owner[b.buffer := executionId];
      Repr := Repr + {b, b.buffer};
    }

    /** eventEmitter.emit('logs.new', ...) */
    method Emit(executionId: string, logs: seq<LogEntry>)
      requires Valid()
      modifies this`emitted
      ensures Valid()
      ensures emitted == old(emitted) + [(executionId, logs)]
    {
      emitted := emitted + [(executionId, logs)];
    }

    /** One turn of the forEach in addLogs: only this execution's ring is written. */
    method PushTo(executionId: string, log: LogEntry)
      requires Valid() && executionId in buffers
      modifies Repr
      ensures Valid() && Repr == old(Repr) && buffers == old(buffers) && emitted == old(emitted)
      ensures forall id :: id in buffers && id != executionId ==> unchanged(buffers[id]) && unchanged(buffers[id].buffer)
      ensures Contents == old(Contents)[executionId := old(Contents)[executionId] + [log]]
    {
      hide CircularBuffer.Valid;
      buffers[executionId].Push(log);
      Contents := Contents[executionId := Contents[executionId] + [log]];
    }

    method PushAll(executionId: string, logs: seq<LogEntry>)
      requires Valid() && executionId in buffers && executionId in Contents
      modifies Repr
      ensures Valid() && Repr == old(Repr) && buffers == old(buffers) && emitted == old(emitted)
      ensures forall id :: id in buffers && id != executionId ==> unchanged(buffers[id]) && unchanged(buffers[id].buffer)
      ensures Contents == old(Contents)[executionId := old(Contents)[executionId] + logs]
    {
      hide *;
      ghost var history := Contents[executionId];
      assert history + logs[..0] == history;
      for k := 0 to |logs|
        invariant Valid() && executionId in buffers && executionId in Contents && Repr == old(Repr) && emitted == old(emitted)
        invariant buffers == old(buffers)
        invariant forall id :: id in buffers && id != executionId ==> unchanged(buffers[id]) && unchanged(buffers[id].buffer)
        invariant Contents == old(Contents)[executionId := history + logs[..k]]
      {
        PushTo(executionId, logs[k]);
        assert history + logs[..k + 1] == history + logs[..k] + [logs[k]];
      }
      assert logs[..|logs|] == logs;
    }

    method AddLogs(executionId: string, logs: seq<LogEntry>)
      requires Valid()
      modifies Repr
      ensures Valid() && fresh(Repr - old(Repr))
      ensures Contents == old(Contents)[executionId := HistoryOf(old(Contents), executionId) + logs]
      ensures emitted == old(emitted) + [(executionId, logs)]
      ensures forall id :: id in old(buffers) && id != executionId ==>
                id in buffers && buffers[id] == old(buffers[id]) && unchanged(buffers[id]) && unchanged(buffers[id].buffer)
    {
      hide *;
      EnsureBuffer(executionId);
      PushAll(executionId, logs);
      Emit(executionId, logs);
    }

    method GetRecentLogs(executionId: string, limit: Option<int>) returns (r: seq<LogEntry>)
      requires Valid()
      ensures r == LastN(HistoryOf(Contents, executionId), LimitOr(limit, DEFAULT_BUFFER_SIZE))
    {
      if executionId !in buffers {
        return [];
      }
      var logs := buffers[executionId].ToArray();
      if limit.Some? && limit.value > 0 {
        LastNOfLastN(Contents[executionId], DEFAULT_BUFFER_SIZE, limit.value);
        return LastN(logs, limit.value);
      }
      return logs;
    }

    method ClearBuffer(executionId: string)
      requires Valid()
      modifies Repr
      ensures Valid() && fresh(Repr - old(Repr))
      ensures Contents == old(Contents) - {executionId}
      ensures buffers == old(buffers) - {executionId} && emitted == old(emitted)
    {
      if executionId in buffers {
        buffers[executionId].Clear();
        Contents := Contents - {executionId};
        buffers := buffers - {executionId};
      }
    }

    method ClearAllBuffers()
      requires Valid()
      modifies Repr
      ensures Valid() && fresh(Repr - old(Repr))
      ensures Contents == map[] && emitted == old(emitted)
    {
      var executionIds := buffers.Keys;
      while executionIds != {}
        invariant Valid() && fresh(Repr - old(Repr)) && emitted == old(emitted)
        invariant buffers.Keys == executionIds
        decreases executionIds
      {
        var id :| id in executionIds;
        ClearBuffer(id);
        executionIds := executionIds - {id};
      }
    }

    method GetTotalBufferedLogs() returns (total: nat)
      requires Valid()
      ensures total == TotalHeld(Contents, Contents.Keys)
    {
      total := 0;
      var rest := buffers.Keys;
      while rest != {}
        invariant rest <= buffers.Keys
        invariant total + TotalHeld(Contents, rest) == TotalHeld(Contents, Contents.Keys)
        decreases rest
      {
        var id :| id in rest;
        TotalHeldTake(Contents, rest, id);
        total := total + buffers[id].size;
        rest := rest - {id};
      }
    }
  }

  // ---------------------------------------------------------------- runs of operations

  datatype BufferOp = AddLogs(id: string, logs: seq<LogEntry>) | ClearBuffer(id: string) | ClearAllBuffers

  /** What one operation does to the contents: the postconditions of the methods above. */
  function Apply(h: Histories, op: BufferOp): Histories {
    match op
    case AddLogs(id, logs) => h[id := HistoryOf(h, id) + logs]
    case ClearBuffer(id) => h - {id}
    case ClearAllBuffers => map[]
  }

  function Run(ops: seq<BufferOp>): Histories {
    if |ops| == 0 then map[] else Apply(Run(ops[..|ops| - 1]), ops[|ops| - 1])
  }

  predicate Touches(op: BufferOp, id: string) {
    op.ClearAllBuffers? || op.id == id
  }

  function Touching(ops: seq<BufferOp>, id: string): seq<BufferOp> {
    if |ops| == 0 then []
    else if Touches(ops[0], id) then [ops[0]] + Touching(ops[1..], id)
    else Touching(ops[1..], id)
  }

  /** The position just after the last operation that clears id. */
  function LastClear(ops: seq<BufferOp>, id: string): (n: nat)
    ensures n <= |ops|
  {
    if |ops| == 0 then 0
    else
      var last := ops[|ops| - 1];
      if !last.AddLogs? && Touches(last, id) then |ops| else LastClear(ops[..|ops| - 1], id)
  }

  /** Everything the operations push for id, in order. */
  function Pushes(ops: seq<BufferOp>, id: string): seq<LogEntry> {
    if |ops| == 0 then []
    else (if ops[0].AddLogs? && ops[0].id == id then ops[0].logs else []) + Pushes(ops[1..], id)
  }

  lemma {:induction false} PushesAppend(ops: seq<BufferOp>, op: BufferOp, id: string)
    ensures Pushes(ops + [op], id) == Pushes(ops, id) + Pushes([op], id)
  {
    if |ops| == 0 {
      assert ops + [op] == [op];
    } else {
      assert (ops + [op])[1..] == ops[1..] + [op];
      PushesAppend(ops[1..], op, id);
    }
  }

  lemma RunAppend(ops: seq<BufferOp>, op: BufferOp)
    ensures Run(ops + [op]) == Apply(Run(ops), op)
  {
    assert (ops + [op])[..|ops|] == ops;
  }

  predicate Clears(op: BufferOp, id: string) {
    !op.AddLogs? && Touches(op, id)
  }

  lemma LastClearAppend(ops: seq<BufferOp>, op: BufferOp, id: string)
    ensures LastClear(ops + [op], id) == if Clears(op, id) then |ops| + 1 else LastClear(ops, id)
  {
    assert (ops + [op])[..|ops|] == ops;
  }

  /** One operation clears the history of id or appends what it pushes for id. */
  lemma HistoryAfter(h: Histories, op: BufferOp, id: string)
    ensures HistoryOf(Apply(h, op), id) == if Clears(op, id) then [] else HistoryOf(h, id) + Pushes([op], id)
    ensures Pushes([], id) == []
  {
    assert Pushes([op], id) == if op.AddLogs? && op.id == id then op.logs else [];
  }

  lemma NothingPushed(ops: seq<BufferOp>, id: string)
    requires |ops| == 0
    ensures HistoryOf(Run(ops), id) == [] == Pushes([], id)
  {
  }

  /** After any run, an execution's history is exactly what was pushed for it since it was last cleared. */
  lemma {:induction false} HistoryIsPushesSinceLastClear(ops: seq<BufferOp>, id: string)
    ensures HistoryOf(Run(ops), id) == Pushes(ops[LastClear(ops, id)..], id)
  {
    hide *;
    if |ops| == 0 {
      NothingPushed(ops, id);
      assert ops[LastClear(ops, id)..] == [];
    } else {
      var front, last := ops[..|ops| - 1], ops[|ops| - 1];
      assert ops == front + [last];
      HistoryIsPushesSinceLastClear(front, id);
      HistoryAfter(Run(front), last, id);
      RunAppend(front, last);
      LastClearAppend(front, last, id);
      if Clears(last, id) {
        assert ops[|ops|..] == [];
      } else {
        var n := LastClear(front, id);
        assert ops[n..] == front[n..] + [last];
        PushesAppend(front[n..], last, id);
      }
    }
  }

  lemma {:induction false} TouchingAppend(ops: seq<BufferOp>, op: BufferOp, id: string)
    ensures Touching(ops + [op], id) == Touching(ops, id) + if Touches(op, id) then [op] else []
  {
    if |ops| == 0 {
      assert ops + [op] == [op];
    } else {
      assert (ops + [op])[1..] == ops[1..] + [op];
      TouchingAppend(ops[1..], op, id);
    }
  }

  lemma ApplyIsLocal(g: Histories, h: Histories, op: BufferOp, id: string)
    requires HistoryOf(g, id) == HistoryOf(h, id)
    ensures HistoryOf(Apply(g, op), id) == HistoryOf(Apply(h, op), id)
    ensures !Touches(op, id) ==> HistoryOf(Apply(g, op), id) == HistoryOf(g, id)
  {
  }

  /** Operations on other executions never show: dropping them all leaves the same history. */
  lemma {:induction false} OthersDoNotInterfere(ops: seq<BufferOp>, id: string)
    ensures HistoryOf(Run(ops), id) == HistoryOf(Run(Touching(ops, id)), id)
  {
    if |ops| > 0 {
      var front, last := ops[..|ops| - 1], ops[|ops| - 1];
      OthersDoNotInterfere(front, id);
      assert ops == front + [last];
      TouchingAppend(front, last, id);
      assert HistoryOf(Apply(Run(front), last), id) == HistoryOf(Run(Touching(ops, id)), id) by {
        if Touches(last, id) {
          RunAppend(Touching(front, id), last);
          ApplyIsLocal(Run(front), Run(Touching(front, id)), last, id);
        } else {
          assert Touching(ops, id) == Touching(front, id);
        }
      }
    }
  }
}
