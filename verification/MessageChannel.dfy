/** The request/response channel: a ring of 16 frame slots used up to a smaller logical capacity. */
module MessageChannels {
  import opened Buffers

  const MAX_CAPACITY: nat := 16
  const MESSAGE_CHANNEL_MAX_DATA: nat := 512

  type Frame = seq<byte>

  datatype ChannelError = Ok | Full | Empty | Timeout | InvalidSize

  class Channel {
    const capacity: nat
    const buffer: array<Frame>
    var head: nat
    var tail: nat
    var count: nat
    ghost var contents: seq<Frame>

    ghost predicate Valid()
      reads this, buffer
    {
      && 0 < capacity <= MAX_CAPACITY == buffer.Length
      && head < MAX_CAPACITY && count <= capacity
      && tail == RingSlot(head, count, MAX_CAPACITY)
      && |contents| == count
      && (forall i :: 0 <= i < count ==> contents[i] == buffer[RingSlot(head, i, MAX_CAPACITY)])
      && (forall i :: 0 <= i < count ==> |contents[i]| <= MESSAGE_CHANNEL_MAX_DATA)
    }

    constructor (cap: nat)
      ensures Valid() && fresh(buffer) && contents == []
      ensures capacity == if cap == 0 || cap > 16 then 16 else cap
    {
      capacity := if cap == 0 || cap > MAX_CAPACITY then MAX_CAPACITY else cap;
      buffer := new Frame[MAX_CAPACITY](_ => []);
      head, tail, count := 0, 0, 0;
      contents := [];
    }

    /** Appends to the FIFO exactly when the frame fits and there is room; otherwise nothing changes. */
    method Send(data: Frame, timeoutMs: nat) returns (e: ChannelError)
      requires Valid()
      modifies this, buffer
      ensures Valid()
      ensures e == (if |data| > 512 then InvalidSize
                    else if |old(contents)| >= capacity then (if timeoutMs == 0 then Full else Timeout)
                    else Ok)
      ensures contents == old(contents) + (if e == Ok then [data] else [])
    {
      if |data| > MESSAGE_CHANNEL_MAX_DATA { return InvalidSize; }
      if count >= capacity {
        return if timeoutMs == 0 then Full else Timeout;
      }
      buffer[tail] := data;
      assert (tail + 1) % MAX_CAPACITY == RingSlot(tail, 1, MAX_CAPACITY);
      tail := (tail + 1) % MAX_CAPACITY;
      count := count + 1;
      contents := contents + [data];
      return Ok;
    }

    /** Takes the oldest frame, or reports that there is none. */
    method Receive(timeoutMs: nat) returns (e: ChannelError, msg: Frame)
      requires Valid()
      modifies this
      ensures Valid()
      ensures e == (if old(contents) != [] then Ok else if timeoutMs == 0 then Empty else Timeout)
      ensures if e == Ok then [msg] + contents == old(contents) else contents == old(contents)
    {
      if count == 0 {
        return if timeoutMs == 0 then Empty else Timeout, [];
      }
      msg := buffer[head];
      assert (head + 1) % MAX_CAPACITY == RingSlot(head, 1, MAX_CAPACITY);
      head := (head + 1) % MAX_CAPACITY;
      count := count - 1;
      contents := contents[1..];
      return Ok, msg;
    }
  }
}
