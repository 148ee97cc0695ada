/**
 The socket payload queue of one direction (TX or RX).

 `Fifo` is the specification: one bounded global queue of messages with a selective pop.
 `PosixQueue` keeps five per-connection deques plus a deque of connection ids;
 `ZephyrQueue` keeps five kernel queues of slots plus a kernel queue of connection ids and
 removes an order entry by draining and refilling.  Both are proved to be that one queue.
 */
module MessageQueues {
  import opened Buffers

  const MAX_CONNECTIONS: nat := 5
  const DEFAULT_CAPACITY: nat := 5
  const MAX_MSG_DATA: nat := 256

  datatype QueueError = Ok | Full | Empty | Timeout | InvalidId

  datatype Message = Message(cid: nat, data: seq<byte>)

  datatype Op =
    | Push(cid: nat, data: seq<byte>)
    | Pop(cid: nat, timeoutMs: nat)
    | PopNext(timeoutMs: nat)

  datatype Outcome = Outcome(error: QueueError, messages: seq<Message>)

  /** What a platform does with a payload that is longer than one message. */
  datatype LongPayload = Truncate | Reject

  // ---------------------------------------------------------------------------
  // The global FIFO
  // ---------------------------------------------------------------------------

  predicate ValidId(c: nat) { 1 <= c <= MAX_CONNECTIONS }

  function PosixCapacity(cap: nat): nat { if cap == 0 then DEFAULT_CAPACITY else cap }

  function ZephyrCapacity(cap: nat): nat { if cap == 0 || cap > DEFAULT_CAPACITY then DEFAULT_CAPACITY else cap }

  /** The messages of connection c, oldest first. */
  function OfConn(f: seq<Message>, c: nat): seq<Message> {
    if f == [] then []
    else if f[0].cid == c then [f[0]] + OfConn(f[1..], c)
    else OfConn(f[1..], c)
  }

  /** The connection ids of the queued messages, oldest first. */
  function Cids(f: seq<Message>): (r: seq<nat>)
    ensures |r| == |f|
  {
    if f == [] then [] else [f[0].cid] + Cids(f[1..])
  }

  /** The queue without its oldest message of connection c. */
  function RemoveOldest(f: seq<Message>, c: nat): seq<Message> {
    if f == [] then []
    else if f[0].cid == c then f[1..]
    else [f[0]] + RemoveOldest(f[1..], c)
  }

  /** The sequence without its first occurrence of x. */
  function EraseFirst(s: seq<nat>, x: nat): seq<nat> {
    if s == [] then []
    else if s[0] == x then s[1..]
    else [s[0]] + EraseFirst(s[1..], x)
  }

  /** One operation on the single global queue: the outcome and the queue that remains. */
  function Apply(f: seq<Message>, capacity: nat, long: LongPayload, op: Op): (Outcome, seq<Message>) {
    match op
    case Push(c, data) =>
      if !ValidId(c) then (Outcome(InvalidId, []), f)
      else if long == Reject && |data| > MAX_MSG_DATA then (Outcome(Full, []), f)
      else if |f| >= capacity then (Outcome(Full, []), f)
      else (Outcome(Ok, []), f + [Message(c, Clip(data, MAX_MSG_DATA))])
    case Pop(c, t) =>
      if !ValidId(c) then (Outcome(InvalidId, []), f)
      else if OfConn(f, c) == [] then (Outcome(if t == 0 then Empty else Timeout, []), f)
      else (Outcome(Ok, [OfConn(f, c)[0]]), RemoveOldest(f, c))
    case PopNext(t) =>
      if f == [] then (Outcome(if t == 0 then Empty else Timeout, []), f)
      else (Outcome(Ok, [f[0]]), f[1..])
  }

  /** The outcomes of a whole list of operations, starting from queue f. */
  function Run(f: seq<Message>, capacity: nat, long: LongPayload, ops: seq<Op>): (outs: seq<Outcome>)
    ensures |outs| == |ops|
    decreases |ops|
  {
    if ops == [] then []
    else
      var (o, f') := Apply(f, capacity, long, ops[0]);
      [o] + Run(f', capacity, long, ops[1..])
  }

  /** The queue left behind by a list of operations. */
  function Final(f: seq<Message>, capacity: nat, long: LongPayload, ops: seq<Op>): seq<Message>
    decreases |ops|
  {
    if ops == [] then f else Final(Apply(f, capacity, long, ops[0]).1, capacity, long, ops[1..])
  }

  /** The message that operation op added to the queue, if any. */
  function Admitted(op: Op, o: Outcome): seq<Message> {
    if op.Push? && o.error == Ok then [Message(op.cid, Clip(op.data, MAX_MSG_DATA))] else []
  }

  /** The messages that the pushes of a list of operations got accepted, in push order. */
  function Accepted(f: seq<Message>, capacity: nat, long: LongPayload, ops: seq<Op>): seq<Message>
    decreases |ops|
  {
    if ops == [] then []
    else
      var (o, f') := Apply(f, capacity, long, ops[0]);
      Admitted(ops[0], o) + Accepted(f', capacity, long, ops[1..])
  }

  /** The messages handed out by a list of outcomes, in order. */
  function Taken(outs: seq<Outcome>): seq<Message> {
    if outs == [] then [] else outs[0].messages + Taken(outs[1..])
  }

  ghost predicate WellFormed(f: seq<Message>) {
    forall i :: 0 <= i < |f| ==> ValidId(f[i].cid) && |f[i].data| <= MAX_MSG_DATA
  }

  // ---------------------------------------------------------------------------
  // Laws of the global FIFO
  // ---------------------------------------------------------------------------

  lemma {:induction false} AppendLaws(f: seq<Message>, m: Message, c: nat)
    ensures OfConn(f + [m], c) == if m.cid == c then OfConn(f, c) + [m] else OfConn(f, c)
    ensures Cids(f + [m]) == Cids(f) + [m.cid]
  {
    if f == [] {
      assert f + [m] == [m];
    } else {
      assert (f + [m])[1..] == f[1..] + [m];
      AppendLaws(f[1..], m, c);
    }
  }

  lemma {:induction false} OfConnBounds(f: seq<Message>, c: nat)
    ensures |OfConn(f, c)| <= |f|
    ensures OfConn(f, c) == [] <==> c !in Cids(f)
    ensures forall m :: m in OfConn(f, c) ==> m in f && m.cid == c
  {
    if f != [] {
      OfConnBounds(f[1..], c);
    }
  }

  /** A selective pop takes one message of c off c's own queue and off the order, and nothing else. */
  lemma {:induction false} RemoveOldestProjects(f: seq<Message>, c: nat, d: nat)
    requires OfConn(f, c) != []
    ensures OfConn(RemoveOldest(f, c), d) == if d == c then OfConn(f, c)[1..] else OfConn(f, d)
    ensures Cids(RemoveOldest(f, c)) == EraseFirst(Cids(f), c)
  {
    if f[0].cid != c {
      RemoveOldestProjects(f[1..], c, d);
    }
  }

  /** The message taken is the oldest of its connection; all the others keep their relative order. */
  lemma {:induction false} RemoveOldestSplits(f: seq<Message>, c: nat) returns (k: nat)
    requires OfConn(f, c) != []
    ensures k < |f| && f[k] == OfConn(f, c)[0]
    ensures RemoveOldest(f, c) == f[..k] + f[k + 1..]
    ensures forall i :: 0 <= i < k ==> f[i].cid != c
  {
    if f[0].cid == c {
      k := 0;
    } else {
      var j := RemoveOldestSplits(f[1..], c);
      k := j + 1;
      assert f == [f[0]] + f[1..];
    }
  }

  lemma {:induction false} OfConnConcat(f: seq<Message>, g: seq<Message>, c: nat)
    ensures OfConn(f + g, c) == OfConn(f, c) + OfConn(g, c)
  {
    if f == [] {
      assert f + g == g;
    } else {
      assert (f + g)[1..] == f[1..] + g;
      OfConnConcat(f[1..], g, c);
    }
  }

  lemma {:induction false} Chain<T>(taken: seq<T>, taken': seq<T>, rest: seq<T>, mid: seq<T>, more: seq<T>,
                                    start: seq<T>, added: seq<T>)
    requires taken' + rest == mid + more
    requires taken + mid == start + added
    ensures (taken + taken') + rest == start + (added + more)
  {
    assert (taken + taken') + rest == taken + (taken' + rest);
    assert taken + (mid + more) == (taken + mid) + more;
    assert (start + added) + more == start + (added + more);
  }

  lemma {:induction false} PopConserves(f: seq<Message>, d: nat, c: nat)
    requires OfConn(f, d) != []
    ensures OfConn([OfConn(f, d)[0]], c) + OfConn(RemoveOldest(f, d), c) == OfConn(f, c)
  {
    var m := OfConn(f, d)[0];
    OfConnBounds(f, d);
    assert m in OfConn(f, d);
    RemoveOldestProjects(f, d, c);
    assert OfConn([m], c) == if d == c then [m] else [];
  }

  lemma {:induction false} ApplyConserves(f: seq<Message>, capacity: nat, long: LongPayload, op: Op, c: nat)
    ensures var (o, f') := Apply(f, capacity, long, op);
            OfConn(o.messages, c) + OfConn(f', c) == OfConn(f, c) + OfConn(Admitted(op, o), c)
  {
    var (o, f') := Apply(f, capacity, long, op);
    assert OfConn([], c) == [];
    if o.error != Ok {
      assert o.messages == [] && f' == f && Admitted(op, o) == [];
    } else if op.Push? {
      OfConnConcat(f, Admitted(op, o), c);
    } else if op.Pop? {
      PopConserves(f, op.cid, c);
    } else {
      assert f == [f[0]] + f[1..];
      OfConnConcat([f[0]], f[1..], c);
    }
  }

  lemma {:induction false} TakenStep(f: seq<Message>, capacity: nat, long: LongPayload, ops: seq<Op>)
    requires ops != []
    ensures var (o, f') := Apply(f, capacity, long, ops[0]);
            Taken(Run(f, capacity, long, ops)) == o.messages + Taken(Run(f', capacity, long, ops[1..]))
  {
    var (o, f') := Apply(f, capacity, long, ops[0]);
    assert ([o] + Run(f', capacity, long, ops[1..]))[1..] == Run(f', capacity, long, ops[1..]);
  }

  lemma {:induction false} RunStep(f: seq<Message>, capacity: nat, long: LongPayload, ops: seq<Op>, i: nat,
                                   outs: seq<Outcome>)
    requires i < |ops|
    ensures var (o, f') := Apply(f, capacity, long, ops[i]);
            outs + Run(f, capacity, long, ops[i..]) == (outs + [o]) + Run(f', capacity, long, ops[i + 1..])
  {
    var (o, f') := Apply(f, capacity, long, ops[i]);
    assert ops[i..][1..] == ops[i + 1..];
    var rest := Run(f', capacity, long, ops[i + 1..]);
    assert Run(f, capacity, long, ops[i..]) == [o] + rest;
  }

  /**
   Nothing is lost, duplicated or reordered within a connection: on every list of operations, the messages of c
   taken so far followed by those still queued are the ones queued at the start followed by the accepted pushes.
   */
  lemma {:induction false} RunConserves(f: seq<Message>, capacity: nat, long: LongPayload, ops: seq<Op>, c: nat)
    ensures OfConn(Taken(Run(f, capacity, long, ops)), c) + OfConn(Final(f, capacity, long, ops), c)
         == OfConn(f, c) + OfConn(Accepted(f, capacity, long, ops), c)
    decreases |ops|
  {
    if ops != [] {
      var (o, f') := Apply(f, capacity, long, ops[0]);
      TakenStep(f, capacity, long, ops);
      ApplyConserves(f, capacity, long, ops[0], c);
      RunConserves(f', capacity, long, ops[1..], c);
      OfConnConcat(o.messages, Taken(Run(f', capacity, long, ops[1..])), c);
      OfConnConcat(Admitted(ops[0], o), Accepted(f', capacity, long, ops[1..]), c);
      Chain(OfConn(o.messages, c), OfConn(Taken(Run(f', capacity, long, ops[1..])), c),
            OfConn(Final(f, capacity, long, ops), c), OfConn(f', c),
            OfConn(Accepted(f', capacity, long, ops[1..]), c), OfConn(f, c), OfConn(Admitted(ops[0], o), c));
    }
  }

  /** With pop_next alone, the whole queue is first-in first-out across connections, and never exceeds capacity. */
  lemma {:induction false} PopNextIsGlobalFifo(f: seq<Message>, capacity: nat, long: LongPayload, ops: seq<Op>)
    requires forall op :: op in ops ==> !op.Pop?
    ensures Taken(Run(f, capacity, long, ops)) + Final(f, capacity, long, ops) == f + Accepted(f, capacity, long, ops)
    ensures |f| <= capacity ==> |Final(f, capacity, long, ops)| <= capacity
    decreases |ops|
  {
    if ops != [] {
      assert ops[0] in ops;
      var (o, f') := Apply(f, capacity, long, ops[0]);
      TakenStep(f, capacity, long, ops);
      PopNextIsGlobalFifo(f', capacity, long, ops[1..]);
      assert o.messages + f' == f + Admitted(ops[0], o) by {
        if ops[0].PopNext? && f != [] { assert f == [f[0]] + f[1..]; }
      }
      Chain(o.messages, Taken(Run(f', capacity, long, ops[1..])), Final(f, capacity, long, ops), f',
            Accepted(f', capacity, long, ops[1..]), f, Admitted(ops[0], o));
    }
  }

  lemma {:induction false} EraseFirstAt(s: seq<nat>, k: nat, x: nat)
    requires k < |s| && s[k] == x && forall i :: 0 <= i < k ==> s[i] != x
    ensures EraseFirst(s, x) == s[..k] + s[k + 1..]
  {
    if k > 0 {
      EraseFirstAt(s[1..], k - 1, x);
      assert s == [s[0]] + s[1..];
    }
  }

  lemma {:induction false} EraseFirstAbsent(s: seq<nat>, x: nat)
    requires x !in s
    ensures EraseFirst(s, x) == s
  {
    if s != [] { EraseFirstAbsent(s[1..], x); }
  }

  /** Erasing from one more entry: the first c is skipped, everything else is kept. */
  lemma {:induction false} EraseFirstNext(s: seq<nat>, i: nat, x: nat)
    requires i < |s|
    ensures x in s[..i + 1] <==> x in s[..i] || s[i] == x
    ensures EraseFirst(s[..i + 1], x)
         == if x !in s[..i] && s[i] == x then EraseFirst(s[..i], x) else EraseFirst(s[..i], x) + [s[i]]
  {
    EraseFirstConcat(s[..i], x, s[i]);
    assert s[..i + 1] == s[..i] + [s[i]];
    if x !in s[..i] { EraseFirstAbsent(s[..i], x); }
  }

  lemma {:induction false} EraseFirstConcat(s: seq<nat>, x: nat, y: nat)
    ensures EraseFirst(s + [y], x) == if x in s then EraseFirst(s, x) + [y]
                                      else if y == x then s else s + [y]
  {
    if s != [] {
      assert (s + [y])[1..] == s[1..] + [y];
      EraseFirstConcat(s[1..], x, y);
    }
  }

  // ---------------------------------------------------------------------------
  // POSIX: five deques and an order deque
  // ---------------------------------------------------------------------------

  ghost predicate Projects(queues: seq<seq<Message>>, order: seq<nat>, f: seq<Message>) {
    && |queues| == MAX_CONNECTIONS
    && order == Cids(f)
    && (forall c :: 0 <= c < MAX_CONNECTIONS ==> queues[c] == OfConn(f, c + 1))
  }

  lemma {:induction false} ProjectsPush(queues: seq<seq<Message>>, order: seq<nat>, f: seq<Message>, m: Message)
    requires Projects(queues, order, f) && ValidId(m.cid)
    ensures Projects(queues[m.cid - 1 := queues[m.cid - 1] + [m]], order + [m.cid], f + [m])
  {
    var queues' := queues[m.cid - 1 := queues[m.cid - 1] + [m]];
    AppendLaws(f, m, m.cid);
    forall c | 0 <= c < MAX_CONNECTIONS ensures queues'[c] == OfConn(f + [m], c + 1) {
      AppendLaws(f, m, c + 1);
    }
  }

  lemma {:induction false} ProjectsPop(queues: seq<seq<Message>>, order: seq<nat>, f: seq<Message>, c: nat)
    requires Projects(queues, order, f) && ValidId(c) && OfConn(f, c) != []
    ensures Projects(queues[c - 1 := queues[c - 1][1..]], EraseFirst(order, c), RemoveOldest(f, c))
  {
    var queues' := queues[c - 1 := queues[c - 1][1..]];
    RemoveOldestProjects(f, c, c);
    forall d | 0 <= d < MAX_CONNECTIONS ensures queues'[d] == OfConn(RemoveOldest(f, c), d + 1) {
      RemoveOldestProjects(f, c, d + 1);
    }
  }

  lemma {:induction false} RemoveOldestWellFormed(f: seq<Message>, c: nat)
    requires WellFormed(f) && OfConn(f, c) != []
    ensures WellFormed(RemoveOldest(f, c)) && |RemoveOldest(f, c)| + 1 == |f|
  {
    var k := RemoveOldestSplits(f, c);
  }

  class PosixQueue {
    const capacity: nat
    var queues: seq<seq<Message>>
    var order: seq<nat>
    ghost var fifo: seq<Message>

    ghost predicate Valid()
      reads this
    {
      WellFormed(fifo) && Projects(queues, order, fifo)
    }

    constructor (cap: nat)
      ensures Valid() && fifo == [] && capacity == PosixCapacity(cap)
    {
      capacity := PosixCapacity(cap);
      queues := [[], [], [], [], []];
      order := [];
      fifo := [];
    }

    /** Any one of the three operations. */
    method Do(op: Op) returns (o: Outcome)
      requires Valid()
      modifies this
      ensures Valid() && (o, fifo) == Apply(old(fifo), capacity, Truncate, op)
    {
      var e: QueueError, out: seq<Message> := Ok, [];
      match op {
        case Push(c, data) => e := PushTo(c, data);
        case Pop(c, t) => e, out := PopFrom(c, t);
        case PopNext(t) => e, out := PopNextFrom(t);
      }
      o := Outcome(e, out);
    }

    method PushTo(c: nat, data: seq<byte>) returns (e: QueueError)
      requires Valid()
      modifies this
      ensures Valid()
      ensures (Outcome(e, []), fifo) == Apply(old(fifo), capacity, Truncate, Push(c, data))
    {
      if c < 1 || c > MAX_CONNECTIONS { return InvalidId; }
      OfConnBounds(fifo, c);
      var q := queues[c - 1];
      if |q| >= capacity || |order| >= capacity { return Full; }
      var m := Message(c, Clip(data, MAX_MSG_DATA));
      ProjectsPush(queues, order, fifo, m);
      queues := queues[c - 1 := q + [m]];
      order := order + [c];
      fifo := fifo + [m];
      return Ok;
    }

    method PopFrom(c: nat, timeoutMs: nat) returns (e: QueueError, out: seq<Message>)
      requires Valid()
      modifies this
      ensures Valid()
      ensures (Outcome(e, out), fifo) == Apply(old(fifo), capacity, Truncate, Pop(c, timeoutMs))
    {
      if c < 1 || c > MAX_CONNECTIONS { return InvalidId, []; }
      var q := queues[c - 1];
      if q == [] {
        return if timeoutMs == 0 then Empty else Timeout, [];
      }
      out := [q[0]];
      ProjectsPop(queues, order, fifo, c);
      RemoveOldestWellFormed(fifo, c);
      queues := queues[c - 1 := q[1..]];
      order := RemoveOrderEntry(order, c);
      fifo := RemoveOldest(fifo, c);
      return Ok, out;
    }

    /** The branch "an order entry whose queue is empty" (the source's second `empty`) is dead. */
    method PopNextFrom(timeoutMs: nat) returns (e: QueueError, out: seq<Message>)
      requires Valid()
      modifies this
      ensures Valid()
      ensures (Outcome(e, out), fifo) == Apply(old(fifo), capacity, Truncate, PopNext(timeoutMs))
    {
      if order == [] {
        return if timeoutMs == 0 then Empty else Timeout, [];
      }
      var c := order[0];
      var q := queues[c - 1];
      ProjectsPop(queues, order, fifo, c);
      out := [q[0]];
      queues := queues[c - 1 := q[1..]];
      order := order[1..];
      fifo := fifo[1..];
      return Ok, out;
    }
  }

  /** std::find followed by erase. */
  method RemoveOrderEntry(order: seq<nat>, c: nat) returns (r: seq<nat>)
    ensures r == EraseFirst(order, c)
  {
    var i := 0;
    while i < |order| && order[i] != c
      invariant 0 <= i <= |order|
      invariant c !in order[..i]
    {
      i := i + 1;
    }
    if i < |order| {
      assert forall j :: 0 <= j < i ==> order[j] != c by {
        forall j | 0 <= j < i ensures order[j] != c { assert order[..i][j] == order[j]; }
      }
      EraseFirstAt(order, i, c);
      r := order[..i] + order[i + 1..];
    } else {
      assert order[..i] == order;
      EraseFirstAbsent(order, c);
      r := order;
    }
  }

  /** Any list of operations on a fresh POSIX queue behaves as the single global queue does. */
  method RunPosix(cap: nat, ops: seq<Op>) returns (outs: seq<Outcome>)
    ensures outs == Run([], PosixCapacity(cap), Truncate, ops)
  {
    var q := new PosixQueue(cap);
    ghost var capacity := q.capacity;
    outs := [];
    assert ops[0..] == ops;
    for i := 0 to |ops|
      invariant q.Valid() && fresh(q) && q.capacity == capacity
      invariant Run([], capacity, Truncate, ops) == outs + Run(q.fifo, capacity, Truncate, ops[i..])
    {
      RunStep(q.fifo, capacity, Truncate, ops, i, outs);
      var o := q.Do(ops[i]);
      outs := outs + [o];
    }
  }

  // ---------------------------------------------------------------------------
  // Zephyr: kernel queues of slots, order entry removed by draining and refilling
  // ---------------------------------------------------------------------------

  /** A kernel queue slot: 16-bit length header and payload bytes. */
  datatype Slot = Slot(header: nat, payload: seq<byte>)

  function EncodeSlot(data: seq<byte>): Slot { Slot(|data| % 0x1_0000, data) }

  function DecodeSlot(c: nat, s: Slot): Message
    requires s.header <= |s.payload|
  {
    Message(c, s.payload[..if s.header < MAX_MSG_DATA then s.header else MAX_MSG_DATA])
  }

  ghost predicate Stores(slots: seq<Slot>, c: nat, ms: seq<Message>) {
    && |slots| == |ms|
    && (forall i :: 0 <= i < |slots| ==> slots[i].header <= |slots[i].payload| && DecodeSlot(c, slots[i]) == ms[i])
  }

  ghost predicate SlotsProject(queues: seq<seq<Slot>>, order: seq<nat>, f: seq<Message>) {
    && |queues| == MAX_CONNECTIONS
    && order == Cids(f)
    && (forall c :: 0 <= c < MAX_CONNECTIONS ==> Stores(queues[c], c + 1, OfConn(f, c + 1)))
  }

  lemma {:induction false} SlotsProjectPush(queues: seq<seq<Slot>>, order: seq<nat>, f: seq<Message>, c: nat,
                                            data: seq<byte>)
    requires SlotsProject(queues, order, f) && ValidId(c) && |data| <= MAX_MSG_DATA
    ensures SlotsProject(queues[c - 1 := queues[c - 1] + [EncodeSlot(data)]], order + [c], f + [Message(c, data)])
  {
    var m := Message(c, data);
    assert DecodeSlot(c, EncodeSlot(data)) == m;
    var queues' := queues[c - 1 := queues[c - 1] + [EncodeSlot(data)]];
    AppendLaws(f, m, c);
    forall d | 0 <= d < MAX_CONNECTIONS ensures Stores(queues'[d], d + 1, OfConn(f + [m], d + 1)) {
      assert Stores(queues[d], d + 1, OfConn(f, d + 1));
      AppendLaws(f, m, d + 1);
    }
  }

  lemma {:induction false} SlotsProjectPop(queues: seq<seq<Slot>>, order: seq<nat>, f: seq<Message>, c: nat)
    requires SlotsProject(queues, order, f) && ValidId(c) && OfConn(f, c) != []
    ensures queues[c - 1] != []
    ensures SlotsProject(queues[c - 1 := queues[c - 1][1..]], EraseFirst(order, c), RemoveOldest(f, c))
  {
    assert Stores(queues[c - 1], c, OfConn(f, c));
    var queues' := queues[c - 1 := queues[c - 1][1..]];
    RemoveOldestProjects(f, c, c);
    forall d | 0 <= d < MAX_CONNECTIONS ensures Stores(queues'[d], d + 1, OfConn(RemoveOldest(f, c), d + 1)) {
      assert Stores(queues[d], d + 1, OfConn(f, d + 1));
      RemoveOldestProjects(f, c, d + 1);
    }
  }

  class ZephyrQueue {
    const capacity: nat
    var queues: seq<seq<Slot>>
    var order: seq<nat>
    ghost var fifo: seq<Message>

    ghost predicate Valid()
      reads this
    {
      && 0 < capacity <= DEFAULT_CAPACITY
      && WellFormed(fifo) && |fifo| <= capacity
      && SlotsProject(queues, order, fifo)
    }

    constructor (cap: nat)
      ensures Valid() && fifo == []
      ensures capacity == ZephyrCapacity(cap)
    {
      capacity := ZephyrCapacity(cap);
      queues := [[], [], [], [], []];
      order := [];
      fifo := [];
    }

    /** Any one of the three operations. */
    method Do(op: Op) returns (o: Outcome)
      requires Valid()
      modifies this
      ensures Valid() && (o, fifo) == Apply(old(fifo), capacity, Reject, op)
    {
      var e: QueueError, out: seq<Message> := Ok, [];
      match op {
        case Push(c, data) => e := PushTo(c, data);
        case Pop(c, t) => e, out := PopFrom(c, t);
        case PopNext(t) => e, out := PopNextFrom(t);
      }
      o := Outcome(e, out);
    }

    method PushTo(c: nat, data: seq<byte>) returns (e: QueueError)
      requires Valid()
      modifies this
      ensures Valid()
      ensures (Outcome(e, []), fifo) == Apply(old(fifo), capacity, Reject, Push(c, data))
    {
      if c < 1 || c > MAX_CONNECTIONS { return InvalidId; }
      if |data| > MAX_MSG_DATA { return Full; }
      OfConnBounds(fifo, c);
      assert Stores(queues[c - 1], c, OfConn(fifo, c));
      if |queues[c - 1]| >= capacity || |order| >= capacity { return Full; }
      SlotsProjectPush(queues, order, fifo, c, data);
      queues := queues[c - 1 := queues[c - 1] + [EncodeSlot(data)]];
      order := order + [c];
      fifo := fifo + [Message(c, data)];
      return Ok;
    }

    method PopFrom(c: nat, timeoutMs: nat) returns (e: QueueError, out: seq<Message>)
      requires Valid()
      modifies this
      ensures Valid()
      ensures (Outcome(e, out), fifo) == Apply(old(fifo), capacity, Reject, Pop(c, timeoutMs))
    {
      if c < 1 || c > MAX_CONNECTIONS { return InvalidId, []; }
      var q := queues[c - 1];
      assert Stores(q, c, OfConn(fifo, c));
      if q == [] {
        return if timeoutMs == 0 then Empty else Timeout, [];
      }
      out := [DecodeSlot(c, q[0])];
      SlotsProjectPop(queues, order, fifo, c);
      RemoveOldestWellFormed(fifo, c);
      DrainAndRefill(c);
      queues := queues[c - 1 := q[1..]];
      fifo := RemoveOldest(fifo, c);
      return Ok, out;
    }

    method PopNextFrom(timeoutMs: nat) returns (e: QueueError, out: seq<Message>)
      requires Valid()
      modifies this
      ensures Valid()
      ensures (Outcome(e, out), fifo) == Apply(old(fifo), capacity, Reject, PopNext(timeoutMs))
    {
      if order == [] {
        return if timeoutMs == 0 then Empty else Timeout, [];
      }
      var c := order[0];
      SlotsProjectPop(queues, order, fifo, c);
      order := order[1..];
      var q := queues[c - 1];
      assert Stores(q, c, OfConn(fifo, c));
      out := [DecodeSlot(c, q[0])];
      queues := queues[c - 1 := q[1..]];
      fifo := fifo[1..];
      return Ok, out;
    }

    /** Drains the order queue into `deferred`, skipping the first entry equal to c. */
    method Drain(c: nat) returns (deferred: array<nat>, count: nat)
      requires |order| <= DEFAULT_CAPACITY
      modifies this`order
      ensures order == [] && fresh(deferred) && count <= deferred.Length == DEFAULT_CAPACITY
      ensures deferred[..count] == EraseFirst(old(order), c)
    {
      deferred := new nat[DEFAULT_CAPACITY];
      count := 0;
      var removed := false;
      ghost var was := order;
      ghost var i := 0;
      while order != []
        invariant 0 <= i <= |was| && order == was[i..]
        invariant count == (if removed then i - 1 else i)
        invariant 0 <= count <= DEFAULT_CAPACITY
        invariant removed == (c in was[..i])
        invariant deferred[..count] == EraseFirst(was[..i], c)
        decreases |order|
      {
        var queued := order[0];
        order := order[1..];
        EraseFirstNext(was, i, c);
        i := i + 1;
        if !removed && queued == c {
          removed := true;
          continue;
        }
        deferred[count] := queued;
        count := count + 1;
      }
      assert was[..i] == was;
    }

    /** Drains the order queue without its first entry equal to c, and puts the rest back. */
    method DrainAndRefill(c: nat)
      requires |order| <= DEFAULT_CAPACITY
      modifies this`order
      ensures order == EraseFirst(old(order), c)
    {
      var deferred, count := Drain(c);
      for j := 0 to count
        invariant order == deferred[..j] && deferred[..count] == EraseFirst(old(order), c)
      {
        order := order + [deferred[j]];
      }
    }
  }

  /** Any list of operations on a fresh Zephyr queue behaves as the single global queue does. */
  method RunZephyr(cap: nat, ops: seq<Op>) returns (outs: seq<Outcome>)
    ensures outs == Run([], ZephyrCapacity(cap), Reject, ops)
  {
    var q := new ZephyrQueue(cap);
    ghost var capacity := q.capacity;
    outs := [];
    assert ops[0..] == ops;
    for i := 0 to |ops|
      invariant q.Valid() && fresh(q) && q.capacity == capacity
      invariant Run([], capacity, Reject, ops) == outs + Run(q.fifo, capacity, Reject, ops[i..])
    {
      RunStep(q.fifo, capacity, Reject, ops, i, outs);
      var o := q.Do(ops[i]);
      outs := outs + [o];
    }
  }

  ghost predicate Fits(ops: seq<Op>) { forall op :: op in ops && op.Push? ==> |op.data| <= MAX_MSG_DATA }

  lemma {:induction false} PoliciesAgree(f: seq<Message>, capacity: nat, ops: seq<Op>)
    requires Fits(ops)
    ensures Run(f, capacity, Truncate, ops) == Run(f, capacity, Reject, ops)
    decreases |ops|
  {
    if ops != [] {
      assert ops[0] in ops;
      assert Apply(f, capacity, Truncate, ops[0]) == Apply(f, capacity, Reject, ops[0]);
      PoliciesAgree(Apply(f, capacity, Truncate, ops[0]).1, capacity, ops[1..]);
    }
  }

  /** n pushes of nothing to connection 1. */
  function Pushes(n: nat): (ops: seq<Op>)
    ensures |ops| == n
  {
    if n == 0 then [] else [Push(1, [])] + Pushes(n - 1)
  }

  lemma {:induction false} PushesFit(n: nat)
    ensures Fits(Pushes(n))
  {
    if n > 0 { PushesFit(n - 1); }
  }

  /** The last of n pushes is accepted exactly when there is room for all of them. */
  lemma {:induction false} LastPush(f: seq<Message>, capacity: nat, long: LongPayload, n: nat)
    requires n > 0
    ensures Run(f, capacity, long, Pushes(n))[n - 1].error == if |f| + n <= capacity then Ok else Full
    decreases n
  {
    var (o, f') := Apply(f, capacity, long, Push(1, []));
    assert Pushes(n)[0] == Push(1, []) && Pushes(n)[1..] == Pushes(n - 1);
    assert Run(f, capacity, long, Pushes(n)) == [o] + Run(f', capacity, long, Pushes(n - 1));
    if n > 1 { LastPush(f', capacity, long, n - 1); }
  }

  /** Fresh queues of the two platforms, created with the same capacity, answer these operations alike. */
  ghost predicate SameOutcomes(cap: nat, ops: seq<Op>) {
    Run([], PosixCapacity(cap), Truncate, ops) == Run([], ZephyrCapacity(cap), Reject, ops)
  }

  /**
   Created with the same capacity, the two platforms give the same outcomes on every list of operations whose payloads
   fit one message if and only if that capacity is at most five.
   */
  lemma {:induction false} PlatformsAgreeIff(cap: nat)
    ensures (forall ops :: Fits(ops) ==> SameOutcomes(cap, ops)) <==> cap <= 5
    ensures PosixCapacity(0) == ZephyrCapacity(0) == 5
  {
    if cap <= DEFAULT_CAPACITY {
      forall ops | Fits(ops) ensures SameOutcomes(cap, ops) {
        PoliciesAgree([], cap, ops);
        PoliciesAgree([], PosixCapacity(cap), ops);
      }
    } else {
      var n := DEFAULT_CAPACITY + 1;
      PushesFit(n);
      LastPush([], PosixCapacity(cap), Truncate, n);
      LastPush([], ZephyrCapacity(cap), Reject, n);
      assert !SameOutcomes(cap, Pushes(n));
    }
  }

  /** At any capacity, a payload that is too long tells the platforms apart whenever there is room for it. */
  lemma {:induction false} LongPayloadTellsApart(f: seq<Message>, capacity: nat, c: nat, data: seq<byte>)
    requires ValidId(c)
    ensures Apply(f, capacity, Truncate, Push(c, data)) == Apply(f, capacity, Reject, Push(c, data))
            <==> |data| <= MAX_MSG_DATA || |f| >= capacity
  {
    if |data| > MAX_MSG_DATA && |f| < capacity {
      assert Apply(f, capacity, Truncate, Push(c, data)).0.error == Ok;
    }
  }

  /** When each operation succeeds, and what it reports otherwise. */
  lemma {:induction false} Outcomes(f: seq<Message>, capacity: nat, long: LongPayload, c: nat, data: seq<byte>, t: nat)
    requires |data| <= MAX_MSG_DATA
    ensures var push := Apply(f, capacity, long, Push(c, data)).0.error;
            && (push == InvalidId <==> c < 1 || c > 5)
            && (push == Full <==> 1 <= c <= 5 && |f| >= capacity)
            && (push == Ok <==> 1 <= c <= 5 && |f| < capacity)
    ensures var pop := Apply(f, capacity, long, Pop(c, t)).0.error;
            && (pop == InvalidId <==> c < 1 || c > 5)
            && (pop == Ok <==> 1 <= c <= 5 && c in Cids(f))
            && (pop == Empty <==> 1 <= c <= 5 && c !in Cids(f) && t == 0)
            && (pop == Timeout <==> 1 <= c <= 5 && c !in Cids(f) && t > 0)
    ensures var next := Apply(f, capacity, long, PopNext(t)).0.error;
            && (next == Ok <==> f != [])
            && (next == Empty <==> f == [] && t == 0) && (next == Timeout <==> f == [] && t > 0)
  {
    OfConnBounds(f, c);
  }

  /** A payload that is too long is cut to 256 bytes on POSIX and reported as full on Zephyr. */
  lemma {:induction false} LongPayloads(f: seq<Message>, capacity: nat, c: nat, data: seq<byte>)
    requires ValidId(c) && |data| > 256 && |f| < capacity
    ensures Apply(f, capacity, Truncate, Push(c, data)) == (Outcome(Ok, []), f + [Message(c, data[..256])])
    ensures Apply(f, capacity, Reject, Push(c, data)) == (Outcome(Full, []), f)
  {
  }
}
