/** The socket slots: what connects them, what is sent over them, and a slot that is connected by mistake. */
module NetworkSockets {
  import opened Buffers
  import opened MessageQueues
  import opened NetworkModel
  import opened NetworkInvariants
  import opened NetworkReach
  import opened NetworkTraffic

  // ---------------------------------------------------------------------------
  // Only server_connect connects
  // ---------------------------------------------------------------------------

  /** Each slot is in the state it was in, or disconnected. */
  ghost predicate Loosened(a: seq<Server>, b: seq<Server>) {
    |a| == |b| && forall k :: 0 <= k < |a| ==> b[k].state == a[k].state || b[k].state == Disconnected
  }

  lemma {:induction false} PoweringLoosens(n: Net, a: Action, i: Inputs)
    requires Powers(a)
    ensures Loosened(n.links.servers, Perform(n, a, i).links.servers)
  {
  }

  lemma {:induction false} WorkingLoosens(n: Net, a: Action, i: Inputs)
    requires !Powers(a)
    ensures Loosened(n.links.servers, Perform(n, a, i).links.servers)
  {
  }

  lemma {:induction false} PerformLoosens(n: Net, a: Action, i: Inputs)
    ensures Loosened(n.links.servers, Perform(n, a, i).links.servers)
  {
    if Powers(a) { PoweringLoosens(n, a, i); } else { WorkingLoosens(n, a, i); }
  }

  lemma {:induction false} EventLoosens(n: Net, e: Event, i: Inputs)
    ensures Loosened(n.links.servers, HandleEvent(n, e, i).links.servers)
  {
  }

  lemma {:induction false} UrcsKeepLinks(n: Net, us: seq<Urc>)
    ensures HandleUrcs(n, us).links == n.links
    decreases |us|
  {
    if us != [] { UrcsKeepLinks(HandleUrc(n, us[0]), us[1..]); }
  }

  lemma {:induction false} LoopLoosens(n: Net, target: State, i: Inputs)
    ensures Loosened(n.links.servers, Loop(n, target, i).links.servers)
  {
    UrcsKeepLinks(n, i.urcs);
    var n1 := Listen(n, i);
    EventLoosens(n1.(event := NoEvent), n1.event, i);
    var n2 := React(n, i);
    PerformLoosens(n2.(action := NoAction), n2.action, i);
  }

  predicate Connects(s: Step, id: nat) { s.ConnectServer? && s.id == id }

  lemma {:induction false} MinorStepsKeepClosed(n: Net, s: Step, id: nat)
    requires |n.links.servers| == MAX_CONNECTIONS && Minor(s)
    requires ValidConn(id) && n.links.servers[id - 1].state != Connected && !Connects(s, id)
    ensures |Next(n, s).links.servers| == MAX_CONNECTIONS && Next(n, s).links.servers[id - 1].state != Connected
  {
  }

  /** A slot that is not connected stays so in every step but its own `server_connect`. */
  lemma {:induction false} StepKeepsClosed(n: Net, s: Step, id: nat)
    requires |n.links.servers| == MAX_CONNECTIONS && ValidConn(id) && n.links.servers[id - 1].state != Connected
            && !Connects(s, id)
    ensures |Next(n, s).links.servers| == MAX_CONNECTIONS && Next(n, s).links.servers[id - 1].state != Connected
  {
    if Minor(s) {
      MinorStepsKeepClosed(n, s, id);
    } else if s.LoopStep? || s.GoToStep? {
      TurnsKeepClosed(n, s, id);
    } else {
      CallsKeepClosed(n, s, id);
    }
  }

  lemma {:induction false} TurnsKeepClosed(n: Net, s: Step, id: nat)
    requires |n.links.servers| == MAX_CONNECTIONS && (s.LoopStep? || s.GoToStep?)
    requires ValidConn(id) && n.links.servers[id - 1].state != Connected
    ensures |Next(n, s).links.servers| == MAX_CONNECTIONS && Next(n, s).links.servers[id - 1].state != Connected
  {
    LoopLoosens(if s.GoToStep? then Kick(n, s.target) else n, s.target, s.i);
  }

  lemma {:induction false} CallsKeepClosed(n: Net, s: Step, id: nat)
    requires |n.links.servers| == MAX_CONNECTIONS && !Minor(s) && !s.LoopStep? && !s.GoToStep?
    requires ValidConn(id) && n.links.servers[id - 1].state != Connected
    ensures |Next(n, s).links.servers| == MAX_CONNECTIONS && Next(n, s).links.servers[id - 1].state != Connected
  {
    if s.QuitTransparent? {
      WorkingLoosens(CallAction(n, LeaveTransparent).(action := NoAction), LeaveTransparent, s.i);
    }
  }

  lemma {:induction false} OutgoingSkips(servers: seq<Server>, q: seq<Message>, id: nat)
    requires ValidConn(id) && |servers| == MAX_CONNECTIONS && servers[id - 1].state != Connected
    ensures OfConn(Outgoing(servers, q), id) == []
  {
    if q != [] {
      OutgoingSkips(servers, q[1..], id);
      if Deliverable(servers, q[0]) {
        assert Outgoing(servers, q)[1..] == Outgoing(servers, q[1..]);
      }
    }
  }

  lemma {:induction false} StepSendsNothingOn(n: Net, s: Step, id: nat)
    requires Core(n) && ValidConn(id) && n.links.servers[id - 1].state != Connected && !Connects(s, id)
    ensures OfConn(Next(n, s).traffic.sent, id) == OfConn(n.traffic.sent, id)
  {
    StepKeepsClosed(n, s, id);
    StepTraffic(n, s);
    var r := Next(n, s);
    if r.traffic.sent != n.traffic.sent {
      OutgoingSkips(r.links.servers, n.traffic.tx, id);
      OfConnConcat(n.traffic.sent, Outgoing(r.links.servers, n.traffic.tx), id);
    }
  }

  /** From a slot that is not connected nothing goes out on any run without a `server_connect` of that slot. */
  lemma {:induction false} ClosedSlotSendsNothing(n: Net, run: seq<Step>, id: nat)
    requires Core(n) && ValidConn(id) && n.links.servers[id - 1].state != Connected
    requires forall k :: 0 <= k < |run| ==> !Connects(run[k], id)
    ensures OfConn(After(n, run).traffic.sent, id) == OfConn(n.traffic.sent, id)
    decreases |run|
  {
    if run != [] {
      StepSendsNothingOn(n, run[0], id);
      StepKeepsClosed(n, run[0], id);
      NextKeepsCore(n, run[0]);
      ClosedSlotSendsNothing(Next(n, run[0]), run[1..], id);
    }
  }

  /**
   So a slot that is configured anew is silent until it is connected, whatever it was before and whatever is queued.
   */
  lemma {:induction false} NewConnectionIsSilent(n: Net, id: nat, protocol: string, address: string, port: nat,
                                                 run: seq<Step>)
    requires Core(n) && ValidConn(id)
    requires forall k :: 0 <= k < |run| ==> !Connects(run[k], id)
    ensures var n1 := Next(n, ConfigureServer(id, protocol, address, port));
            OfConn(After(n1, run).traffic.sent, id) == OfConn(n.traffic.sent, id)
  {
    var s := ConfigureServer(id, protocol, address, port);
    NextKeepsCore(n, s);
    ClosedSlotSendsNothing(Next(n, s), run, id);
  }

  // ---------------------------------------------------------------------------
  // Connected although the call failed
  // ---------------------------------------------------------------------------

  /**
   Exactly when the call succeeds: in data_ready, with a socket that is connected already, or that can be opened: it is
   not being set up, was closed first if it was suspended, the protocol is UDP and the modem opens it.
   */
  lemma {:induction false} ConnectSucceedsIff(n: Net, id: nat, protocol: string, address: string, port: nat,
                                              r: SocketReplies)
    requires ValidConn(id) && |n.links.servers| == MAX_CONNECTIONS
    ensures ServerConnect(n, id, protocol, address, port, r).1 <==>
              && n.state == DataReady
              && (r.status == Connected
                  || (r.status !in {DnsResolving, Connecting} && (r.status == Suspended ==> r.closeReply == ReplyOk)
                      && protocol == "UDP" && r.openReply == ReplyOk))
  {
  }

  /**
   What it leaves: success means a connected slot, after an opening with the given protocol, address and port; without
   data_ready nothing changes; and no other slot and nothing else is ever touched.
   */
  lemma {:induction false} ConnectedSlot(n: Net, id: nat, protocol: string, address: string, port: nat,
                                         r: SocketReplies)
    requires ValidConn(id) && |n.links.servers| == MAX_CONNECTIONS
    ensures var (n', ok) := ServerConnect(n, id, protocol, address, port, r);
            var was, now := n.links.servers, n'.links.servers;
            && (ok && r.status != Connected ==> now[id - 1] == Server(Connected, protocol, address, port))
            && (ok && r.status == Connected ==> now[id - 1] == was[id - 1].(state := Connected))
            && (!ok && n.state == DataReady && r.status != Suspended ==> now[id - 1] == was[id - 1].(state := r.status))
            && (n.state != DataReady ==> n' == n)
            && |now| == |was| && (forall k :: 0 <= k < |was| && k != id - 1 ==> now[k] == was[k])
            && n' == n.(links := n.links.(servers := now))
  {
  }

  /** Exactly when a socket is closed, and that nothing but its slot changes. */
  lemma {:induction false} DisconnectSucceedsIff(n: Net, id: nat, closed: Reply)
    requires ValidConn(id) && |n.links.servers| == MAX_CONNECTIONS
    ensures var (n', ok) := ServerDisconnect(n, id, closed);
            var was, now := n.links.servers, n'.links.servers;
            && (ok <==> was[id - 1].state == Connected && was[id - 1].protocol == "UDP" && closed == ReplyOk)
            && now[id - 1] == (if ok then was[id - 1].(state := Disconnected) else was[id - 1])
            && |now| == |was| && (forall k :: 0 <= k < |was| && k != id - 1 ==> now[k] == was[k])
            && n' == n.(links := n.links.(servers := now))
  {
  }

  /** Exactly which queued messages go out: those of a connection whose slot is connected over UDP. */
  lemma {:induction false} OutgoingIff(servers: seq<Server>, q: seq<Message>, m: Message)
    requires |servers| == MAX_CONNECTIONS
    ensures m in Outgoing(servers, q) <==>
              && m in q && 1 <= m.cid <= 5
              && servers[m.cid - 1].state == Connected && servers[m.cid - 1].protocol == "UDP"
  {
    if q != [] { OutgoingIff(servers, q[1..], m); }
  }

  /**
   The converse fails.  Exactly which calls return false and leave the slot connected: outside data_ready those on a
   connected slot; in data_ready those that close a suspended socket and do not open it again.
   */
  lemma {:induction false} ConnectedWithoutSuccessIff(n: Net, id: nat, protocol: string, address: string, port: nat,
                                                      r: SocketReplies)
    requires ValidConn(id) && |n.links.servers| == MAX_CONNECTIONS
    ensures var (n', ok) := ServerConnect(n, id, protocol, address, port, r);
            n'.links.servers[id - 1].state == Connected && !ok <==>
              if n.state != DataReady then n.links.servers[id - 1].state == Connected
              else r.status == Suspended && r.closeReply == ReplyOk && (protocol != "UDP" || r.openReply != ReplyOk)
  {
  }

  /** In data_ready and with nothing pending, a send request and a turn of the loop send what is deliverable. */
  lemma {:induction false} RequestSends(n: Net, i: Inputs)
    requires n.state == DataReady && n.event == NoEvent && |n.links.servers| == MAX_CONNECTIONS && Quiet(i)
    ensures After(n, [RequestSend, LoopStep(NoState, i)]).traffic.sent
         == n.traffic.sent + Outgoing(n.links.servers, n.traffic.tx)
  {
    After2(n, RequestSend, LoopStep(NoState, i));
    var n1 := CallAction(n, SendData);
    assert Next(n, RequestSend) == n1;
    assert HandleUrcs(n1, i.urcs) == n1;
    assert Listen(n1, i) == n1 && React(n1, i) == n1;
    assert Loop(n1, NoState, i) == DoSendData(n1.(action := NoAction));
  }

  /** The call: it closes the suspended socket, fails, and leaves the slot connected. */
  lemma {:induction false} ClosedAndNotReopened(n: Net, id: nat, address: string, port: nat, r: SocketReplies)
      returns (n2: Net)
    requires n.state == DataReady && n.event == NoEvent && ValidConn(id) && |n.links.servers| == MAX_CONNECTIONS
    requires r.status == Suspended && r.closeReply == ReplyOk && r.openReply != ReplyOk
    ensures After(n, [ConfigureServer(id, "UDP", address, port), ConnectServer(id, "UDP", address, port, r)]) == n2
    ensures !ServerConnect(NewConnection(n, id, "UDP", address, port), id, "UDP", address, port, r).1
    ensures n2.state == DataReady && n2.event == NoEvent && n2.traffic == n.traffic
            && |n2.links.servers| == MAX_CONNECTIONS
    ensures n2.links.servers[id - 1].state == Connected && n2.links.servers[id - 1].protocol == "UDP"
  {
    var a, b := ConfigureServer(id, "UDP", address, port), ConnectServer(id, "UDP", address, port, r);
    After2(n, a, b);
    n2 := Next(Next(n, a), b);
    assert Next(n, a) == NewConnection(n, id, "UDP", address, port);
  }

  /** A message written to a slot that is taken for connected goes out at the next send request. */
  lemma {:induction false} WrittenAndSent(n: Net, id: nat, data: seq<byte>, i: Inputs)
    requires n.state == DataReady && n.event == NoEvent && ValidConn(id) && |n.links.servers| == MAX_CONNECTIONS
    requires n.links.servers[id - 1].state == Connected && n.links.servers[id - 1].protocol == "UDP"
    requires n.traffic.tx == [] && Quiet(i)
    ensures After(n, [WriteTx(id, data)] + [RequestSend, LoopStep(NoState, i)]).traffic.sent
         == n.traffic.sent + [Message(id, Clip(data, MAX_MSG_DATA))]
  {
    var m := Message(id, Clip(data, MAX_MSG_DATA));
    AfterConcat(n, [WriteTx(id, data)], [RequestSend, LoopStep(NoState, i)]);
    var n1 := AcceptWrite(n, id, data, m);
    RequestSends(n1, i);
    assert Outgoing(n.links.servers, [m]) == [m] by { assert [m][1..] == []; }
  }

  /**
   From the start, whatever the configuration: a run whose only `server_connect` fails, having closed the socket, and
   that nevertheless hands the message written next to the modem.
   */
  lemma {:induction false} ClosedSocketIsUsed(config: Config, online: Inputs, quiet: Inputs, id: nat,
                                              address: string, port: nat,
                                              r: SocketReplies, data: seq<byte>) returns (run: seq<Step>)
    requires Online(online) && Quiet(quiet) && ValidConn(id)
    requires r.status == Suspended && r.closeReply == ReplyOk && r.openReply != ReplyOk
    ensures run == [LoopStep(NoState, online)]
                   + ([ConfigureServer(id, "UDP", address, port), ConnectServer(id, "UDP", address, port, r)]
                      + ([WriteTx(id, data)] + [RequestSend, LoopStep(NoState, quiet)]))
    ensures After(Initial(config), run).traffic.sent == [Message(id, Clip(data, MAX_MSG_DATA))]
  {
    var n := Initial(config);
    var a := [LoopStep(NoState, online)];
    var b := [ConfigureServer(id, "UDP", address, port), ConnectServer(id, "UDP", address, port, r)];
    var c := [WriteTx(id, data)] + [RequestSend, LoopStep(NoState, quiet)];
    run := a + (b + c);
    var n1 := GoesOnline(n, online);
    var n2 := ClosedAndNotReopened(n1, id, address, port, r);
    AfterConcat(n, a, b + c);
    AfterConcat(n1, b, c);
    WrittenAndSent(n2, id, data, quiet);
  }

  lemma {:induction false} GoesOnline(n: Net, i: Inputs) returns (r: Net)
    requires n.state == SwitchedOff && n.event == NoEvent && |n.links.servers| == MAX_CONNECTIONS && Online(i)
    ensures After(n, [LoopStep(NoState, i)]) == r
    ensures r.state == DataReady && r.event == NoEvent && r.traffic == n.traffic && |r.links.servers| == MAX_CONNECTIONS
  {
    After1(n, LoopStep(NoState, i));
    OnlineIsDataReady(n, i);
    r := Next(n, LoopStep(NoState, i));
  }

  // ---------------------------------------------------------------------------
  // The ordinary life of a socket
  // ---------------------------------------------------------------------------

  /** An idle socket is opened, and the slot is as asked for. */
  lemma {:induction false} Opens(n: Net, id: nat, address: string, port: nat, r: SocketReplies) returns (n1: Net)
    requires n.state == DataReady && n.event == NoEvent && ValidConn(id) && |n.links.servers| == MAX_CONNECTIONS
    requires r.status == Disconnected && r.openReply == ReplyOk
    ensures After(n, [ConnectServer(id, "UDP", address, port, r)]) == n1
    ensures ServerConnect(n, id, "UDP", address, port, r).1
    ensures n1.state == DataReady && n1.event == NoEvent && n1.traffic == n.traffic
    ensures |n1.links.servers| == MAX_CONNECTIONS
    ensures n1.links.servers[id - 1] == Server(Connected, "UDP", address, port)
  {
    var s := ConnectServer(id, "UDP", address, port, r);
    After1(n, s);
    n1 := Next(n, s);
  }

  /** From the start, whatever the configuration: online, connect, write, request: the message goes out, once. */
  lemma {:induction false} ConnectedSocketSends(config: Config, online: Inputs, quiet: Inputs, id: nat, address: string,
                                                port: nat, r: SocketReplies, data: seq<byte>) returns (run: seq<Step>)
    requires Online(online) && Quiet(quiet) && ValidConn(id)
    requires r.status == Disconnected && r.openReply == ReplyOk
    ensures run == [LoopStep(NoState, online)]
                   + ([ConnectServer(id, "UDP", address, port, r)]
                      + ([WriteTx(id, data)] + [RequestSend, LoopStep(NoState, quiet)]))
    ensures After(Initial(config), run).traffic.sent == [Message(id, Clip(data, MAX_MSG_DATA))]
  {
    var n := Initial(config);
    var a, b := [LoopStep(NoState, online)], [ConnectServer(id, "UDP", address, port, r)];
    var c := [WriteTx(id, data)] + [RequestSend, LoopStep(NoState, quiet)];
    run := a + (b + c);
    var n1 := GoesOnline(n, online);
    var n2 := Opens(n1, id, address, port, r);
    AfterConcat(n, a, b + c);
    AfterConcat(n1, b, c);
    WrittenAndSent(n2, id, data, quiet);
  }
}
