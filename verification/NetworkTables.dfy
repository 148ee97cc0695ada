/**
 What each turn of the loop, event, report, expiry, target and call leads to, by inputs and in plain states and actions,
 and the two ways to data_ready that these make up.
 */
module NetworkTables {
  import opened Buffers
  import opened MessageQueues
  import opened NetworkModel
  import opened NetworkInvariants
  import opened NetworkReach

  predicate Went(r: Net, state: State, action: Action, event: Event) {
    r.state == state && r.action == action && r.event == event
  }

  // ---------------------------------------------------------------------------
  // Turns with a pending action
  // ---------------------------------------------------------------------------

  /** The actions that change the power state. */
  lemma {:induction false} PowerTurn(n: Net, i: Inputs)
    requires Quiet(i) && n.event == NoEvent
    ensures var r := Loop(n, NoState, i);
            && (n.action == Reboot && i.reboot == ReplyOk ==> Went(r, Rebooting, PowerOn, NoEvent))
            && (n.action == Reboot && i.reboot == ReplyTimeout ==> Went(r, n.state, NoAction, AtNoResponse))
            && (n.action == Reboot && i.reboot == ReplyError ==> Went(r, n.state, NoAction, NoEvent))
            && (n.action == CheckResponsiveness ==> Went(r, IdleMode, QueryNetworkStatus, NoEvent))
            && (n.action == PowerOn && i.atOk == ReplyOk ==> Went(r, IdleMode, SetupRadio, NoEvent) && r.boot.cold)
            && (n.action == PowerOn && i.atOk != ReplyOk && n.state != SwitchedOff ==>
                  Went(r, SwitchedOff, NoAction, NoEvent))
            && (n.action == PowerOff && n.state != SwitchedOff ==> Went(r, SwitchedOff, NoAction, NoEvent))
            && (n.action == TurnOnRadio ==> Went(r, IdleMode, SetupRadio, NoEvent))
            && (n.action == SwitchOffRadio && n.config.cfunSleep ==> Went(r, OffMode, NoAction, NoEvent))
            && (n.action == SwitchOffRadio && !n.config.cfunSleep ==> Went(r, n.state, NoAction, NoEvent))
            && (n.action == EnterSleep ==> Went(r, n.state, SwitchOffRadio, NoEvent))
  {
    QuietTurn(n, NoState, i);
  }

  /** Waking up, the two special modes, and the actions without effect. */
  lemma {:induction false} ModeTurn(n: Net, i: Inputs)
    requires Quiet(i) && n.event == NoEvent
    ensures var r := Loop(n, NoState, i);
            && (n.action == WakeUp && n.prev == DataReady ==> Went(r, DataReady, QueryNetworkStatus, NoEvent))
            && (n.action == WakeUp && n.prev != DataReady ==> Went(r, IdleMode, SetupRadio, NoEvent) && r.boot.warm)
            && (n.action == EnterTransparent ==> Went(r, TransparentMode, NoAction, NoEvent))
            && (n.action == LeaveTransparent ==> Went(r, IdleMode, QueryNetworkStatus, NoEvent))
            && (n.action == EnterGnssFix && (i.gnssPowered || i.gnssPower == ReplyOk) ==>
                  Went(r, GnssFixMode, NoAction, NoEvent))
            && (n.action == EnterGnssFix && !i.gnssPowered && i.gnssPower != ReplyOk ==>
                  Went(r, n.state, LeaveGnssFix, NoEvent))
            && (n.action == LeaveGnssFix ==> Went(r, IdleMode, QueryNetworkStatus, NoEvent))
            && (n.action in {NoAction, FactoryReset, ReadData, DataComplete} ==> r == n.(action := NoAction))
  {
    QuietTurn(n, NoState, i);
  }

  /** Registration and context, with the states they lead to. */
  lemma {:induction false} NetworkTurn(n: Net, i: Inputs)
    requires Quiet(i) && n.event == NoEvent && n.state == IdleMode
    ensures var r := Loop(n, NoState, i);
            && (n.action == QueryNetworkStatus && i.reg == ReplyOk ==>
                  && (i.regStat in {RegisteredHome, RegisteredRoaming} ==> Went(r, IdleMode, QueryPdpContext, NoEvent))
                  && (i.regStat in {NotRegistered, Searching, Denied, UnknownReg} ==>
                        Went(r, NetworkDetached, AttachNetwork, NoEvent))
                  && (i.regStat == OtherReg ==> Went(r, IdleMode, NoAction, NoEvent)))
            && (n.action == QueryNetworkStatus && i.reg == ReplyTimeout ==> Went(r, IdleMode, NoAction, AtNoResponse))
            && (n.action == QueryNetworkStatus && i.reg == ReplyError ==> Went(r, IdleMode, NoAction, NoEvent))
            && (n.action == QueryPdpContext && i.getPdp == ReplyOk && !i.pdpActive ==>
                  Went(r, PdpContextClosed, OpenPdpContext, NoEvent))
            && (n.action == QueryPdpContext && i.getPdp == ReplyOk && i.pdpActive && i.getIp == ReplyOk ==>
                  Went(r, DataReady, NoAction, NoEvent) && r.links.ip == (if i.ipGiven then i.ip else n.links.ip))
            && (n.action == QueryPdpContext && (i.getPdp != ReplyOk || (i.pdpActive && i.getIp != ReplyOk)) ==>
                  Went(r, IdleMode, NoAction, NoEvent) && r.links == n.links)
            && (n.action == OpenPdpContext ==>
                  Went(r, if i.activate == ReplyOk then DataReady else IdleMode, NoAction, NoEvent))
  {
    QuietTurn(n, NoState, i);
  }

  /** Setting up the radio: a changed setting that the modem takes needs a reboot; a boot applies the configuration. */
  lemma {:induction false} SetupTurn(n: Net, i: Inputs)
    requires Quiet(i) && n.event == NoEvent && n.action == SetupRadio
    ensures var r, b := Loop(n, NoState, i), n.boot;
            var tech := if n.retries.counter == 0 then n.config.defaultTech else n.config.fallbackTech;
            var taken := (b.changeBands && i.setBands == ReplyOk)
                         || (b.changeRat && tech in {CatM1, NbIot} && i.setTech == ReplyOk);
            if b.changeBands || b.changeRat
            then Went(r, n.state, if taken then Reboot else NoAction, NoEvent) && r.urcs == n.urcs
                 && r.boot == Boot(b.cold, b.warm, false, false)
            else Went(r, IdleMode, QueryNetworkStatus, NoEvent) && r.boot == Boot(false, false, false, false)
                 && r.urcs == (if (b.warm || b.cold) && i.urcOk then UrcSwitches(true, true, true, true, true)
                               else n.urcs)
  {
    QuietTurn(n, NoState, i);
  }

  // ---------------------------------------------------------------------------
  // Events and reports
  // ---------------------------------------------------------------------------

  /** An event is used up by the turn that handles it; what it leads to before any action is executed. */
  lemma {:induction false} EventOutcome(n: Net, i: Inputs)
    requires Quiet(i) && n.action == NoAction && n.state == IdleMode
    ensures var r := React(n, i);
            && r.event == NoEvent
            && (n.event == PsmEnter ==> Went(r, SleepMode, NoAction, NoEvent))
            && (n.event == PsmExit ==> Went(r, if n.prev == DataReady then DataReady else IdleMode, NoAction, NoEvent))
            && (n.event in {DetachedEvent, ContextClosed} ==>
                  && Went(r, NetworkDetached, AttachNetwork, NoEvent)
                  && AllDisconnected(r.links.servers) && r.links.ip == "")
            && (n.event == AttachedEvent ==> Went(r, PdpContextClosed, OpenPdpContext, NoEvent))
            && (n.event == ContextOpened ==> Went(r, DataReady, NoAction, NoEvent))
            && (n.event == GpsAvailable ==> Went(r, IdleMode, if i.gnssFix then LeaveGnssFix else NoAction, NoEvent))
            && (n.event == AttachError ==> Went(r, IdleMode, EnterSleep, NoEvent))
            && (n.event == AtNoResponse ==> Went(r, IdleMode, CheckResponsiveness, NoEvent))
            && (n.event in {NoEvent, ContextRejected, DataAvailable, NetworkError, ContextError} ==>
                  r == n.(event := NoEvent))
  {
    Heard(n, i);
  }

  lemma {:induction false} Heard(n: Net, i: Inputs)
    requires Quiet(i)
    ensures React(n, i) == HandleEvent(n.(event := NoEvent), n.event, i)
  {
    assert HandleUrcs(n, i.urcs) == n;
    assert Listen(n, i) == n;
  }

  /** A detachment while the modem is off or asleep drops the sockets and leaves the state alone. */
  lemma {:induction false} DetachedAsleep(n: Net, i: Inputs)
    requires Quiet(i) && n.event == DetachedEvent && n.state in {SwitchedOff, OffMode, SleepMode}
    ensures var r := React(n, i); Went(r, n.state, n.action, NoEvent) && AllDisconnected(r.links.servers)
  {
    Heard(n, i);
  }

  /** A timeout ends in done with the action of its state pending, except in a data_ready that has no timeout. */
  lemma {:induction false} TimeoutOutcome(n: Net, i: Inputs)
    requires Quiet(i) && n.event == TimeoutEvent
    ensures var r := React(n, i);
            && (n.state == DataReady && n.config.dataReadyTimeoutSec == 0 ==> Went(r, DataReady, n.action, NoEvent))
            && (n.state == DataReady && n.config.dataReadyTimeoutSec > 0 ==> Went(r, Done, EnterSleep, NoEvent))
            && (n.state == TransparentMode ==> Went(r, Done, LeaveTransparent, NoEvent))
            && (n.state == GnssFixMode ==> Went(r, Done, LeaveGnssFix, NoEvent))
            && (n.state !in {DataReady, TransparentMode, GnssFixMode} ==> Went(r, Done, AttachNetwork, NoEvent))
  {
    Heard(n, i);
  }

  /** A missing answer is noticed in the next turn, whatever else is pending. */
  lemma {:induction false} MissingAnswer(n: Net, i: Inputs)
    requires i.urcs == [] && i.lastTimedOut
    ensures Went(React(n, i), n.state, CheckResponsiveness, NoEvent)
  {
    assert HandleUrcs(n, i.urcs) == n;
    assert Listen(n, i) == OnEvent(n, AtNoResponse);
  }

  /** What each report raises or queues. */
  lemma {:induction false} ReportOutcome(n: Net, u: Urc)
    requires n.event == NoEvent && n.action == NoAction
    ensures var r := HandleUrcs(n, [u]);
            && (u in {RegistrationUrc(1), RegistrationUrc(5)} ==> Went(r, n.state, QueryPdpContext, NoEvent))
            && (u.RegistrationUrc? && u.stat != 1 && u.stat != 5 ==> r == n)
            && (u == ContextDeactivated ==> Went(r, n.state, NoAction, ContextClosed))
            && (u in {PsDetached, SearchExhausted} ==> Went(r, n.state, NoAction, DetachedEvent))
            && (u == ContextRefused ==> Went(r, n.state, NoAction, ContextRejected))
            && (u == PsmEntered ==> Went(r, n.state, NoAction, PsmEnter))
            && (u == SocketData ==> Went(r, n.state, NoAction, DataAvailable))
            && (u == GnssReport ==> Went(r, n.state, NoAction, GpsAvailable))
            && (u == OtherUrc ==> r == n)
  {
    var m := HandleUrc(n, u);
    assert HandleUrcs(n, [u]) == m by { assert [u][1..] == [] && HandleUrcs(m, []) == m; }
  }

  // ---------------------------------------------------------------------------
  // Targets
  // ---------------------------------------------------------------------------

  /** What `go_to_state` queues on the way to a target. */
  lemma {:induction false} TargetOutcome(n: Net, target: State)
    ensures var a, s := Kick(n, target).action, n.state;
            && Kick(n, target).state == s
            && (s == SwitchedOff && target in {DataReady, TransparentMode, GnssFixMode} ==> a == PowerOn)
            && (s == OffMode && target in {DataReady, TransparentMode, GnssFixMode} ==> a == TurnOnRadio)
            && (s == SleepMode && target in {DataReady, TransparentMode} ==> a == WakeUp)
            && (s in {TransparentMode, GnssFixMode} && target in {DataReady, IdleMode} ==> a == LeaveTransparent)
            && (s !in {SwitchedOff, OffMode, SleepMode, TransparentMode, GnssFixMode} ==>
                  a == if target == TransparentMode then EnterTransparent
                       else if target == GnssFixMode then EnterGnssFix else n.action)
            && (target !in {DataReady, TransparentMode, GnssFixMode, IdleMode} ==> a == n.action)
            && (s in {SwitchedOff, OffMode, SleepMode} && target == IdleMode ==> a == n.action)
            && (s == SleepMode && target == GnssFixMode ==> a == n.action)
            && (s in {TransparentMode, GnssFixMode} && target in {TransparentMode, GnssFixMode} ==> a == n.action)
  {
  }

  // ---------------------------------------------------------------------------
  // The state timer
  // ---------------------------------------------------------------------------

  /** Each of the seven timed states arms the timer on entry, and its expiry is an event in these states only. */
  lemma {:induction false} ArmedOnEntry(n: Net, s: State, at: Clock)
    requires s != n.state && !LeaveTimed(n.clockwork, n.state, at.exit).timer.running
    requires s in {NetworkAttaching, PdpContextOpening, DataReady, TransparentMode, GnssFixMode, SleepMode, OffMode}
    ensures ChangeState(n, s, at).clockwork.timer
         == StateTimer(true, at.enter, s in {NetworkAttaching, PdpContextOpening, TransparentMode, GnssFixMode}
                                       || (s == DataReady && n.config.dataReadyTimeoutSec > 0))
  {
  }

  /** Leaving each of them books the time since it was armed, stops the timer, and leaves the other counters alone. */
  lemma {:induction false} BookedOnExit(n: Net, s: State, at: Clock, other: State)
    requires s == NetworkDetached && other != n.state
    requires n.state
          in {NetworkAttaching, PdpContextOpening, DataReady, TransparentMode, GnssFixMode, SleepMode, OffMode}
    requires n.clockwork.timer.start <= at.exit < n.clockwork.timer.start + U32
    ensures var c, r := n.clockwork, ChangeState(n, s, at).clockwork;
            && CounterOf(r, n.state) == (CounterOf(c, n.state) + (at.exit - c.timer.start)) % 0x1_0000_0000
            && CounterOf(r, other) == CounterOf(c, other) && !r.timer.running
  {
  }

  /** An expiry stops the timer; it raises the timeout if it was armed with it, and changes nothing else. */
  lemma {:induction false} ExpiryOutcome(n: Net)
    requires |n.links.servers| == MAX_CONNECTIONS
    ensures var r := Next(n, StateTimerExpires);
            && !r.clockwork.timer.running && r.state == n.state && r.action == n.action && r.links == n.links
            && r.event == (if n.clockwork.timer.running && n.clockwork.timer.notifies then TimeoutEvent else n.event)
  {
  }

  // ---------------------------------------------------------------------------
  // The trace
  // ---------------------------------------------------------------------------

  /** What is recorded: every event, once more if it is an error; every action; every change of state. */
  lemma {:induction false} TraceOutcome(n: Net, e: Event, a: Action, s: State, at: Clock)
    requires s !in {n.state, NetworkDetached, PdpContextClosed}
    ensures var event := TraceEntry(EventSet, NoState, NoState, e, NoAction);
            var error := TraceEntry(ErrorRaised, NoState, NoState, e, NoAction);
            var old' := n.trace.pushed;
            && OnEvent(n, e).trace.pushed
               == (if e in {NetworkError, AttachError, ContextError, AtNoResponse} then old' + [event] + [error]
                   else old' + [event])
            && CallAction(n, a).trace.pushed == old' + [TraceEntry(ActionSet, NoState, NoState, NoEvent, a)]
            && ChangeState(n, s, at).trace.pushed == old' + [TraceEntry(StateChange, n.state, s, NoEvent, NoAction)]
            && ChangeState(n, s, at).prev == n.state
  {
  }

  /** The ring keeps the newest ten. */
  lemma {:induction false} TraceKeepsTen(t: Trace, e: TraceEntry)
    requires t.kept <= 10
    ensures PushTrace(t, e).kept == if t.kept == 10 then 10 else t.kept + 1
  {
  }

  // ---------------------------------------------------------------------------
  // Public calls
  // ---------------------------------------------------------------------------

  /** Configuring a slot: its protocol, address and port, disconnected, and nothing else. */
  lemma {:induction false} ConfigureOutcome(n: Net, id: nat, protocol: string, address: string, port: nat)
    requires |n.links.servers| == MAX_CONNECTIONS && 1 <= id <= 5
    ensures var r := Next(n, ConfigureServer(id, protocol, address, port));
            && r.links.servers[id - 1] == Server(Disconnected, protocol, address, port) && r.links.ip == n.links.ip
            && |r.links.servers| == 5 && r == n.(links := r.links)
            && forall k :: 0 <= k < 5 && k != id - 1 ==> r.links.servers[k] == n.links.servers[k]
  {
  }

  /** Calls that set one thing. */
  lemma {:induction false} CallOutcome(n: Net, c: Config)
    requires |n.links.servers| == MAX_CONNECTIONS
    ensures Next(n, SetConfig(c)) == n.(config := c)
    ensures Went(Next(n, RequestSend), n.state, SendData, n.event)
    ensures Went(Next(n, UserTimerExpires), n.state, n.action, TimeoutEvent)
    ensures n.trace.kept > 0 ==> Next(n, PopTrace).trace == Trace(n.trace.pushed, n.trace.kept - 1)
    ensures n.trace.kept == 0 ==> Next(n, PopTrace) == n
  {
  }

  /** A disconnection that the modem takes leads to network_detached with an attach pending; another does nothing. */
  lemma {:induction false} DisconnectOutcome(n: Net, reply: Reply, at: Clock)
    requires |n.links.servers| == MAX_CONNECTIONS
    ensures var r := Next(n, DisconnectNetwork(reply, at));
            && (reply != ReplyOk || n.state == NetworkDetached ==> r == n)
            && (reply == ReplyOk && n.state != NetworkDetached ==> Went(r, NetworkDetached, AttachNetwork, n.event))
  {
  }

  /** A connection id outside 1..5 is never acted on here. */
  lemma {:induction false} BadIdOutcome(n: Net, id: nat, protocol: string, address: string, port: nat, r: SocketReplies)
    requires id < 1 || id > 5
    ensures Next(n, ConfigureServer(id, protocol, address, port)) == n
    ensures Next(n, ConnectServer(id, protocol, address, port, r)) == n
    ensures Next(n, DisconnectServer(id, r.closeReply)) == n
  {
  }

  /** A write is queued exactly when its id is one of the five and fewer than five messages wait. */
  lemma {:induction false} WriteOutcome(n: Net, cid: nat, data: seq<byte>)
    requires |n.links.servers| == MAX_CONNECTIONS
    ensures var r := Next(n, WriteTx(cid, data));
            && r == n.(traffic := n.traffic.(tx := r.traffic.tx))
            && r.traffic.tx
               == (if 1 <= cid <= 5 && |n.traffic.tx| < 5 then n.traffic.tx + [Message(cid, Clip(data, 256))]
                   else n.traffic.tx)
  {
  }

  /** A forced PSM: nothing outside data_ready; there it stays when accepted and goes to idle_mode when not. */
  lemma {:induction false} ForcePsmOutcome(n: Net, accepted: bool, at: Clock, rearm: nat, urcOk: bool)
    requires |n.links.servers| == MAX_CONNECTIONS
    ensures var r := Next(n, TryForcePsm(accepted, at, rearm, urcOk));
            && (n.state != DataReady ==> r == n)
            && (n.state == DataReady ==>
                  && Went(r, if accepted then DataReady else IdleMode, n.action, n.event)
                  && r.clockwork.timer == StateTimer(true, rearm, n.config.dataReadyTimeoutSec > 0)
                  && r.urcs == (if urcOk then UrcSwitches(true, true, true, true, true) else n.urcs))
  {
  }

  /** What the commands of the two modes do to the reports when the modem takes them, and that it may not. */
  lemma {:induction false} ReportSwitches(n: Net, i: Inputs)
    ensures DoEnterGnss(n, i).urcs == if i.urcOk then UrcSwitches(false, false, false, false, n.urcs.notify) else n.urcs
    ensures DoEnterTransparent(n, i).urcs
         == if i.urcOk then UrcSwitches(false, false, false, false, false) else n.urcs
    ensures DoLeaveTransparent(n, i).urcs == if i.urcOk then UrcSwitches(true, true, true, true, true) else n.urcs
  {
  }

  // ---------------------------------------------------------------------------
  // Two ways to data_ready
  // ---------------------------------------------------------------------------

  /** A modem that obeys, is registered and has an active context with an address. */
  predicate Ready(i: Inputs) {
    && Quiet(i) && i.urcOk && i.atOk == ReplyOk && i.reg == ReplyOk && i.regStat in {RegisteredHome, RegisteredRoaming}
    && i.getPdp == ReplyOk && i.pdpActive && i.getIp == ReplyOk && i.ipGiven
  }

  lemma {:induction false} GoesTo(n: Net, i: Inputs)
    requires Quiet(i) && n.event == NoEvent && n.state in {SwitchedOff, IdleMode}
    ensures GoToTurn(n, DataReady, i)
         == Perform(n.(action := NoAction, trace := Kick(n, DataReady).trace), Kick(n, DataReady).action, i)
  {
    QuietTurn(Kick(n, DataReady), DataReady, i);
  }

  lemma {:induction false} PoweredOn(n: Net, i: Inputs) returns (r: Net)
    requires Ready(i) && n.event == NoEvent && n.state == SwitchedOff && !n.boot.changeBands && !n.boot.changeRat
    requires |n.links.servers| == MAX_CONNECTIONS
    ensures After(n, [GoToStep(DataReady, i)]) == r && Went(r, IdleMode, SetupRadio, NoEvent)
    ensures !r.boot.changeBands && !r.boot.changeRat && |r.links.servers| == MAX_CONNECTIONS
  {
    After1(n, GoToStep(DataReady, i));
    GoesTo(n, i);
    r := Next(n, GoToStep(DataReady, i));
  }

  lemma {:induction false} WentOn(n: Net, i: Inputs) returns (r: Net)
    requires Ready(i) && n.event == NoEvent && n.state == IdleMode && !n.boot.changeBands && !n.boot.changeRat
    requires |n.links.servers| == MAX_CONNECTIONS && n.action in {SetupRadio, QueryNetworkStatus, QueryPdpContext}
    ensures After(n, [GoToStep(DataReady, i)]) == r && !r.boot.changeBands && !r.boot.changeRat && r.event == NoEvent
    ensures |r.links.servers| == MAX_CONNECTIONS
    ensures n.action == SetupRadio ==> r.state == IdleMode && r.action == QueryNetworkStatus
    ensures n.action == QueryNetworkStatus ==> r.state == IdleMode && r.action == QueryPdpContext
    ensures n.action == QueryPdpContext ==> r.state == DataReady && r.links.ip == i.ip
  {
    After1(n, GoToStep(DataReady, i));
    GoesTo(n, i);
    r := Next(n, GoToStep(DataReady, i));
  }

  /** With such a modem `go_to_state` takes four turns from switched_off to data_ready, with the modem's address. */
  lemma {:induction false} FourTurnsToDataReady(config: Config, i: Inputs)
    requires Ready(i)
    ensures var s := GoToStep(DataReady, i);
            var n := After(Initial(config), [s] + ([s] + ([s] + [s])));
            n.state == DataReady && n.links.ip == i.ip
  {
    var n, s := Initial(config), GoToStep(DataReady, i);
    var n1 := PoweredOn(n, i);
    var n2 := WentOn(n1, i);
    var n3 := WentOn(n2, i);
    var n4 := WentOn(n3, i);
    AfterConcat(n, [s], [s] + ([s] + [s]));
    AfterConcat(n1, [s], [s] + [s]);
    AfterConcat(n2, [s], [s]);
  }

  /** A modem that reports its registration and has no context yet. */
  predicate Registering(i: Inputs) {
    && i.urcs in {[RegistrationUrc(1)], [RegistrationUrc(5)]} && !i.lastTimedOut && i.getPdp == ReplyOk && !i.pdpActive
  }

  lemma {:induction false} RegistrationClosesContext(n: Net, i: Inputs) returns (r: Net)
    requires n.state == NetworkAttaching && n.event == NoEvent && |n.links.servers| == MAX_CONNECTIONS && Registering(i)
    ensures After(n, [LoopStep(NoState, i)]) == r
    ensures Went(r, PdpContextClosed, OpenPdpContext, NoEvent) && |r.links.servers| == MAX_CONNECTIONS
    ensures r.retries.counter == 0
  {
    After1(n, LoopStep(NoState, i));
    var u := HandleUrc(n, i.urcs[0]);
    assert HandleUrcs(n, i.urcs) == u by { assert i.urcs[1..] == [] && HandleUrcs(u, []) == u; }
    assert Listen(n, i) == u && React(n, i) == u;
    r := Next(n, LoopStep(NoState, i));
  }

  /** While attaching, a registration and a context that the modem activates lead to data_ready in two turns. */
  lemma {:induction false} RegistrationLeadsToDataReady(n: Net, i: Inputs, j: Inputs)
    requires n.state == NetworkAttaching && n.event == NoEvent && |n.links.servers| == MAX_CONNECTIONS
    requires Registering(i) && Quiet(j) && j.activate == ReplyOk
    ensures After(n, [LoopStep(NoState, i)] + [LoopStep(NoState, j)]).state == DataReady
  {
    var n1 := RegistrationClosesContext(n, i);
    AfterConcat(n, [LoopStep(NoState, i)], [LoopStep(NoState, j)]);
    After1(n1, LoopStep(NoState, j));
    QuietTurn(n1, NoState, j);
  }
}
