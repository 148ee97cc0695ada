/** What goes out over the sockets. */
module NetworkTraffic {
  import opened Buffers
  import opened MessageQueues
  import opened NetworkModel
  import opened NetworkInvariants
  import opened NetworkReach

  lemma {:induction false} PerformTraffic(n: Net, a: Action, i: Inputs)
    ensures Perform(n, a, i).traffic == if a == SendData then DoSendData(n).traffic else n.traffic
    ensures a == SendData ==> Perform(n, a, i) == DoSendData(n)
  {
  }

  lemma {:induction false} EventTraffic(n: Net, e: Event, i: Inputs)
    ensures HandleEvent(n, e, i).traffic == n.traffic
  {
  }

  lemma {:induction false} UrcsTraffic(n: Net, us: seq<Urc>)
    ensures HandleUrcs(n, us).traffic == n.traffic
    decreases |us|
  {
    if us != [] { UrcsTraffic(HandleUrc(n, us[0]), us[1..]); }
  }

  /** A loop step sends nothing, or it is in data_ready, empties the queue and sends what is deliverable of it. */
  lemma {:induction false} LoopTraffic(n: Net, target: State, i: Inputs)
    ensures var r := Loop(n, target, i);
            || r.traffic == n.traffic
            || (r.state == DataReady && r.traffic.tx == []
                && r.traffic.sent == n.traffic.sent + Outgoing(r.links.servers, n.traffic.tx))
  {
    UrcsTraffic(n, i.urcs);
    var n1 := Listen(n, i);
    EventTraffic(n1.(event := NoEvent), n1.event, i);
    var n2 := React(n, i);
    PerformTraffic(n2.(action := NoAction), n2.action, i);
  }

  /** Every element of a appears in b, in the same order. */
  ghost predicate Subsequence(a: seq<Message>, b: seq<Message>) {
    if a == [] then true
    else if b == [] then false
    else
      || (a[|a| - 1] == b[|b| - 1] && Subsequence(a[..|a| - 1], b[..|b| - 1]))
      || Subsequence(a, b[..|b| - 1])
  }

  lemma {:induction false} SubsequenceGrows(a: seq<Message>, b: seq<Message>, m: Message)
    requires Subsequence(a, b)
    ensures Subsequence(a, b + [m]) && Subsequence(a + [m], b + [m])
  {
    assert (b + [m])[..|b|] == b && (a + [m])[..|a|] == a;
  }

  lemma {:induction false} OutgoingPush(servers: seq<Server>, q: seq<Message>, m: Message)
    ensures Outgoing(servers, q + [m]) == if Deliverable(servers, m) then Outgoing(servers, q) + [m]
            else Outgoing(servers, q)
  {
    if q == [] {
      assert q + [m] == [m] && [m][1..] == [];
    } else {
      assert (q + [m])[1..] == q[1..] + [m];
      OutgoingPush(servers, q[1..], m);
    }
  }

  lemma {:induction false} OutgoingIsSubsequence(a: seq<Message>, b: seq<Message>, servers: seq<Server>,
                                                 q: seq<Message>)
    requires Subsequence(a, b)
    ensures Subsequence(a + Outgoing(servers, q), b + q)
    decreases |q|
  {
    if q == [] {
      assert a + [] == a && b + [] == b;
    } else {
      var q', m := q[..|q| - 1], q[|q| - 1];
      assert q == q' + [m];
      var x, y := a + Outgoing(servers, q'), b + q';
      assert b + q == y + [m];
      assert a + Outgoing(servers, q) == if Deliverable(servers, m) then x + [m] else x by {
        OutgoingPush(servers, q', m);
        assert a + (Outgoing(servers, q') + [m]) == x + [m];
      }
      assert Subsequence(x, y) by { OutgoingIsSubsequence(a, b, servers, q'); }
      SubsequenceGrows(x, y, m);
    }
  }

  /** What a step adds to the TX queue. */
  function Accepts(n: Net, s: Step): seq<Message> {
    if !s.WriteTx? then []
    else
      var op := Push(s.cid, s.data);
      Admitted(op, Apply(n.traffic.tx, DEFAULT_CAPACITY, Truncate, op).0)
  }

  /** Accepted writes of a run, in order. */
  function Written(n: Net, run: seq<Step>): seq<Message>
    decreases |run|
  {
    if run == [] then []
    else Accepts(n, run[0]) + Written(Next(n, run[0]), run[1..])
  }

  /** In data_ready, the whole queue was taken and what is deliverable of it was sent. */
  ghost predicate Drained(n: Net, r: Net) {
    && r.state == DataReady && r.traffic.tx == []
    && r.traffic.sent == n.traffic.sent + Outgoing(r.links.servers, n.traffic.tx)
  }

  /** All that any step can do to the traffic; in particular nothing is sent outside data_ready. */
  lemma {:induction false} StepTraffic(n: Net, s: Step)
    requires Core(n)
    ensures Next(n, s).traffic == Traffic(n.traffic.tx + Accepts(n, s), n.traffic.sent)
            || (Accepts(n, s) == [] && Drained(n, Next(n, s)))
  {
    if s.LoopStep? || s.GoToStep? {
      LoopTraffic(if s.GoToStep? then Kick(n, s.target) else n, s.target, s.i);
    } else if s.QuitTransparent? {
      PerformTraffic(CallAction(n, LeaveTransparent).(action := NoAction), LeaveTransparent, s.i);
    }
    assert n.traffic.tx + [] == n.traffic.tx;
  }

  /** One step takes all of the queue or nothing of it; what it sends is in queue order. */
  lemma {:induction false} StepTakes(n: Net, s: Step, done: seq<Message>) returns (taken: seq<Message>)
    requires Core(n) && Subsequence(n.traffic.sent, done)
    ensures Core(Next(n, s)) && taken + Next(n, s).traffic.tx == n.traffic.tx + Accepts(n, s)
    ensures Subsequence(Next(n, s).traffic.sent, done + taken)
  {
    NextKeepsCore(n, s);
    StepTraffic(n, s);
    var r := Next(n, s);
    if Drained(n, r) && Accepts(n, s) == [] {
      taken := n.traffic.tx;
      OutgoingIsSubsequence(n.traffic.sent, done, r.links.servers, n.traffic.tx);
    } else {
      taken := [];
      assert done + [] == done;
    }
  }

  lemma {:induction false} Glue(first: seq<Message>, rest: seq<Message>, end: Traffic, mid: seq<Message>,
                                more: seq<Message>, start: seq<Message>, added: seq<Message>, done: seq<Message>)
    requires rest + end.tx == mid + more && first + mid == start + added
    requires Subsequence(end.sent, done + first + rest)
    ensures (first + rest) + end.tx == start + (added + more)
    ensures Subsequence(end.sent, done + (first + rest))
  {
    Chain(first, rest, end.tx, mid, more, start, added);
    assert done + (first + rest) == done + first + rest;
  }

  /**
   On every run: accepted writes are taken from the queue in the order they were written, and what is handed to the
   modem is a part of what was taken, in that order, without repetition.
   */
  lemma {:induction false} SentInOrder(n: Net, run: seq<Step>, done: seq<Message>) returns (taken: seq<Message>)
    requires Core(n) && Subsequence(n.traffic.sent, done)
    ensures taken + After(n, run).traffic.tx == n.traffic.tx + Written(n, run)
    ensures Subsequence(After(n, run).traffic.sent, done + taken)
    decreases |run|
  {
    if run == [] {
      taken := [];
      assert done + [] == done && n.traffic.tx + [] == n.traffic.tx;
    } else {
      var r := Next(n, run[0]);
      var first := StepTakes(n, run[0], done);
      var rest := SentInOrder(r, run[1..], done + first);
      taken := first + rest;
      Glue(first, rest, After(n, run).traffic, r.traffic.tx, Written(r, run[1..]), n.traffic.tx,
           Accepts(n, run[0]), done);
    }
  }

  // ---------------------------------------------------------------------------
  // Nothing is sent without a request
  // ---------------------------------------------------------------------------

  /** No send request is pending. */
  predicate Unrequested(n: Net) { n.action != SendData }

  lemma {:induction false} PerformQueuesNoSend(n: Net, a: Action, i: Inputs)
    requires Unrequested(n)
    ensures Unrequested(Perform(n, a, i))
  {
  }

  lemma {:induction false} EventQueuesNoSend(n: Net, e: Event, i: Inputs)
    requires Unrequested(n)
    ensures Unrequested(HandleEvent(n, e, i))
  {
  }

  lemma {:induction false} UrcsQueueNoSend(n: Net, us: seq<Urc>)
    requires Unrequested(n)
    ensures Unrequested(HandleUrcs(n, us))
    decreases |us|
  {
    if us != [] { UrcsQueueNoSend(HandleUrc(n, us[0]), us[1..]); }
  }

  lemma {:induction false} TurnSendsNothing(n: Net, target: State, i: Inputs)
    requires Unrequested(n)
    ensures Unrequested(Loop(n, target, i)) && Loop(n, target, i).traffic == n.traffic
  {
    UrcsQueueNoSend(n, i.urcs);
    UrcsTraffic(n, i.urcs);
    var n1 := Listen(n, i);
    EventQueuesNoSend(n1.(event := NoEvent), n1.event, i);
    EventTraffic(n1.(event := NoEvent), n1.event, i);
    var n2 := React(n, i);
    PerformQueuesNoSend(n2.(action := NoAction), n2.action, i);
    PerformTraffic(n2.(action := NoAction), n2.action, i);
  }

  lemma {:induction false} StepSendsNothing(n: Net, s: Step)
    requires Unrequested(n) && !s.RequestSend?
    ensures Unrequested(Next(n, s)) && Next(n, s).traffic.sent == n.traffic.sent
  {
    if s.LoopStep? || s.GoToStep? {
      TurnSendsNothing(if s.GoToStep? then Kick(n, s.target) else n, s.target, s.i);
    } else if s.QuitTransparent? {
      var n1 := CallAction(n, LeaveTransparent).(action := NoAction);
      PerformQueuesNoSend(n1, LeaveTransparent, s.i);
      PerformTraffic(n1, LeaveTransparent, s.i);
    }
  }

  /** Whatever is queued and whatever states are reached: a run without a send request sends nothing. */
  lemma {:induction false} NothingSentUnrequested(n: Net, run: seq<Step>)
    requires Unrequested(n) && forall k :: 0 <= k < |run| ==> !run[k].RequestSend?
    ensures After(n, run).traffic.sent == n.traffic.sent
    decreases |run|
  {
    if run != [] {
      StepSendsNothing(n, run[0]);
      NothingSentUnrequested(Next(n, run[0]), run[1..]);
    }
  }

  /** A request that is executed outside data_ready is used up. */
  lemma {:induction false} RequestUsedUp(n: Net, i: Inputs) returns (r: Net)
    requires n.state != DataReady && n.event == NoEvent && |n.links.servers| == MAX_CONNECTIONS && Quiet(i)
    ensures After(n, [RequestSend, LoopStep(NoState, i)]) == r
    ensures Unrequested(r) && r.traffic == n.traffic && r.state == n.state && r.event == NoEvent
    ensures |r.links.servers| == MAX_CONNECTIONS
  {
    After2(n, RequestSend, LoopStep(NoState, i));
    var n1 := CallAction(n, SendData);
    assert HandleUrcs(n1, i.urcs) == n1;
    assert Listen(n1, i) == n1 && React(n1, i) == n1;
    r := n1.(action := NoAction);
    assert Loop(n1, NoState, i) == r;
  }

  /**
   So it is lost for good: no later run without a new request sends what was queued, also when it gets to data_ready.
   */
  lemma {:induction false} RequestOutsideDataReadyIsLost(n: Net, i: Inputs, run: seq<Step>)
    requires n.state != DataReady && n.event == NoEvent && |n.links.servers| == MAX_CONNECTIONS && Quiet(i)
    requires forall k :: 0 <= k < |run| ==> !run[k].RequestSend?
    ensures After(n, [RequestSend, LoopStep(NoState, i)] + run).traffic.sent == n.traffic.sent
  {
    var r := RequestUsedUp(n, i);
    AfterConcat(n, [RequestSend, LoopStep(NoState, i)], run);
    NothingSentUnrequested(r, run);
  }

  /** A run that gets to data_ready with the message written and requested at the start still in the queue. */
  lemma {:induction false} BufferedIsNotSent(config: Config, cid: nat, data: seq<byte>, quiet: Inputs, online: Inputs)
    requires ValidConn(cid) && Quiet(quiet) && Online(online)
    ensures var n := After(Initial(config), [WriteTx(cid, data)]
                                            + ([RequestSend, LoopStep(NoState, quiet)] + [LoopStep(NoState, online)]));
            n.state == DataReady && n.traffic == Traffic([Message(cid, Clip(data, MAX_MSG_DATA))], [])
  {
    var n := Initial(config);
    var m := Message(cid, Clip(data, MAX_MSG_DATA));
    var a, b, c := [WriteTx(cid, data)], [RequestSend, LoopStep(NoState, quiet)], [LoopStep(NoState, online)];
    var n1 := AcceptWrite(n, cid, data, m);
    var n2 := RequestUsedUp(n1, quiet);
    AfterConcat(n, a, b + c);
    AfterConcat(n1, b, c);
    After1(n2, LoopStep(NoState, online));
    OnlineIsDataReady(n2, online);
  }

  lemma {:induction false} AcceptWrite(n: Net, cid: nat, data: seq<byte>, m: Message) returns (r: Net)
    requires ValidConn(cid) && |n.links.servers| == MAX_CONNECTIONS && n.traffic.tx == []
    requires m == Message(cid, Clip(data, MAX_MSG_DATA))
    ensures After(n, [WriteTx(cid, data)]) == r && r == n.(traffic := n.traffic.(tx := [m]))
  {
    After1(n, WriteTx(cid, data));
    r := Next(n, WriteTx(cid, data));
    assert [] + [m] == [m];
  }
}
