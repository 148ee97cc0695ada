/** The trace of state changes, events and actions: a ring of ten entries in which the oldest is overwritten. */
module TraceRings {
  import opened Buffers
  import opened NetworkModel

  class TraceRing {
    const buffer: array<TraceEntry>
    var head: nat
    var count: nat
    ghost var trace: Trace

    /** The i-th entry held. */
    ghost function At(i: nat): TraceEntry
      requires head < TRACE_CAPACITY == buffer.Length && i <= TRACE_CAPACITY
      reads this, buffer
    {
      buffer[RingSlot(head, i, TRACE_CAPACITY)]
    }

    /** The ring holds the newest `count` of all entries ever pushed. */
    ghost predicate Valid()
      reads this, buffer
    {
      && buffer.Length == TRACE_CAPACITY && head < TRACE_CAPACITY
      && count == trace.kept <= TRACE_CAPACITY && count <= |trace.pushed|
      && (forall i :: 0 <= i < count ==> At(i) == trace.pushed[|trace.pushed| - count + i])
    }

    /** What the ring holds, oldest first. */
    ghost function Contents(): (es: seq<TraceEntry>)
      requires Valid()
      reads this, buffer
      ensures es == trace.pushed[|trace.pushed| - trace.kept..]
    {
      seq(count, i requires 0 <= i < count && Valid() reads this, buffer => At(i))
    }

    constructor ()
      ensures Valid() && fresh(buffer) && trace == Trace([], 0)
    {
      buffer := new TraceEntry[TRACE_CAPACITY](_ => TraceEntry(StateChange, NoState, NoState, NoEvent, NoAction));
      head, count := 0, 0;
      trace := Trace([], 0);
    }

    method Push(e: TraceEntry)
      requires Valid()
      modifies this, buffer
      ensures Valid() && trace == PushTrace(old(trace), e)
    {
      var writeIndex;
      if count < TRACE_CAPACITY {
        writeIndex := (head + count) % TRACE_CAPACITY;
        assert writeIndex == RingSlot(head, count, TRACE_CAPACITY);
        count := count + 1;
      } else {
        writeIndex := head;
        assert (head + 1) % TRACE_CAPACITY == RingSlot(head, 1, TRACE_CAPACITY);
        head := (head + 1) % TRACE_CAPACITY;
      }
      buffer[writeIndex] := e;
      trace := PushTrace(trace, e);
      ghost var drop := if old(count) < TRACE_CAPACITY then 0 else 1;
      forall i | 0 <= i < count ensures At(i) == trace.pushed[|trace.pushed| - count + i] {
        assert RingSlot(head, i, TRACE_CAPACITY) == RingSlot(old(head), i + drop, TRACE_CAPACITY)
            || i + drop == TRACE_CAPACITY;
        if i < count - 1 {
          assert old(At(i + drop))
              == old(trace).pushed[|old(trace).pushed| - old(count) + i + drop];
        }
      }
    }

    /** Takes the oldest entry still held. */
    method Pop() returns (ok: bool, e: TraceEntry)
      requires Valid()
      modifies this
      ensures Valid() && ok == (old(trace).kept > 0)
      ensures ok ==> e == old(trace).pushed[|old(trace).pushed| - old(trace).kept]
                     && trace == old(trace).(kept := old(trace).kept - 1)
      ensures !ok ==> trace == old(trace)
    {
      if count == 0 {
        return false, TraceEntry(StateChange, NoState, NoState, NoEvent, NoAction);
      }
      e := buffer[head];
      assert e == At(0);
      assert (head + 1) % TRACE_CAPACITY == RingSlot(head, 1, TRACE_CAPACITY);
      head := (head + 1) % TRACE_CAPACITY;
      count := count - 1;
      trace := trace.(kept := trace.kept - 1);
      forall i | 0 <= i < count ensures At(i) == trace.pushed[|trace.pushed| - count + i] {
        assert At(i) == old(At(i + 1));
      }
      ok := true;
    }
  }
}
