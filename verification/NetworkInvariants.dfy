/** What every run of the network state machine keeps, whatever the modem answers. */
module NetworkInvariants {
  import opened MessageQueues
  import opened NetworkModel

  // ---------------------------------------------------------------------------
  // Runs
  // ---------------------------------------------------------------------------

  /** The machine after a run. */
  function After(n: Net, run: seq<Step>): Net
    decreases |run|
  {
    if run == [] then n else After(Next(n, run[0]), run[1..])
  }

  // ---------------------------------------------------------------------------
  // The state path in the trace
  // ---------------------------------------------------------------------------

  /** The state changes among trace entries, in order. */
  function Changes(es: seq<TraceEntry>): seq<TraceEntry> {
    if es == [] then []
    else
      var last, front := es[|es| - 1], es[..|es| - 1];
      if last.kind == StateChange then Changes(front) + [last] else Changes(front)
  }

  /** The changes lead from one state to another, each starting where the one before it ended. */
  ghost predicate Linked(cs: seq<TraceEntry>, from: State, to: State) {
    if cs == [] then from == to
    else
      var last := cs[|cs| - 1];
      last.current == to && last.previous != to && Linked(cs[..|cs| - 1], from, last.previous)
  }

  lemma {:induction false} ChangesPush(es: seq<TraceEntry>, e: TraceEntry)
    ensures Changes(es + [e]) == if e.kind == StateChange then Changes(es) + [e] else Changes(es)
  {
    assert (es + [e])[..|es|] == es;
  }

  lemma {:induction false} ChangesConcat(a: seq<TraceEntry>, b: seq<TraceEntry>)
    ensures Changes(a + b) == Changes(a) + Changes(b)
  {
    if b == [] {
      assert a + b == a;
    } else {
      var b' := b[..|b| - 1];
      assert a + b == (a + b') + [b[|b| - 1]] && b == b' + [b[|b| - 1]];
      ChangesConcat(a, b');
      ChangesPush(a + b', b[|b| - 1]);
      ChangesPush(b', b[|b| - 1]);
    }
  }

  /** Any tail of a linked list of changes is linked, and ends in the same state. */
  lemma {:induction false} LinkedTail(a: seq<TraceEntry>, b: seq<TraceEntry>, from: State, to: State)
      returns (mid: State)
    requires Linked(a + b, from, to)
    ensures Linked(a, from, mid) && Linked(b, mid, to)
  {
    if b == [] {
      assert a + b == a;
      mid := to;
    } else {
      assert (a + b)[..|a + b| - 1] == a + b[..|b| - 1];
      mid := LinkedTail(a, b[..|b| - 1], from, b[|b| - 1].previous);
    }
  }

  /** The ring is bounded, and the pushed state changes lead from the first state to the present one. */
  ghost predicate TraceOk(t: Trace, state: State, prev: State) {
    && t.kept <= TRACE_CAPACITY && t.kept <= |t.pushed|
    && var cs := Changes(t.pushed);
       Linked(cs, SwitchedOff, state) && (cs != [] ==> cs[|cs| - 1].previous == prev)
  }

  lemma {:induction false} PushKeepsTrace(t: Trace, e: TraceEntry, state: State, prev: State)
    requires TraceOk(t, state, prev) && e.kind != StateChange
    ensures TraceOk(PushTrace(t, e), state, prev)
  {
    ChangesPush(t.pushed, e);
  }

  lemma {:induction false} EventKeepsTrace(t: Trace, e: Event, state: State, prev: State)
    requires TraceOk(t, state, prev)
    ensures TraceOk(TraceEvent(t, e), state, prev)
  {
    var e1 := TraceEntry(EventSet, NoState, NoState, e, NoAction);
    PushKeepsTrace(t, e1, state, prev);
    PushKeepsTrace(PushTrace(t, e1), TraceEntry(ErrorRaised, NoState, NoState, e, NoAction), state, prev);
  }

  lemma {:induction false} ChangeKeepsTrace(t: Trace, state: State, prev: State, s: State)
    requires TraceOk(t, state, prev) && s != state
    ensures TraceOk(PushTrace(t, TraceEntry(StateChange, state, s, NoEvent, NoAction)), s, state)
  {
    var e := TraceEntry(StateChange, state, s, NoEvent, NoAction);
    ChangesPush(t.pushed, e);
    assert (Changes(t.pushed) + [e])[..|Changes(t.pushed)|] == Changes(t.pushed);
  }

  // ---------------------------------------------------------------------------
  // The core invariant
  // ---------------------------------------------------------------------------

  ghost predicate AllDisconnected(servers: seq<Server>) {
    forall i :: 0 <= i < |servers| ==> servers[i].state == Disconnected
  }

  /** Without registration or context there is no address and no open socket. */
  ghost predicate Offline(s: State, l: Links) {
    s == NetworkDetached || s == PdpContextClosed ==> l.ip == "" && AllDisconnected(l.servers)
  }

  predicate Reachable(s: State) {
    s != NoState && s != SetupMode && s != PdpContextOpening && s != ModemFota
  }

  ghost predicate Core(n: Net) {
    && |n.links.servers| == MAX_CONNECTIONS && Offline(n.state, n.links)
    && Reachable(n.state) && TraceOk(n.trace, n.state, n.prev)
  }

  /** Core, except that address and sockets may not fit the state (yet). */
  ghost predicate Moving(n: Net) {
    |n.links.servers| == MAX_CONNECTIONS && Reachable(n.state) && TraceOk(n.trace, n.state, n.prev)
  }

  lemma {:induction false} CallKeepsCore(n: Net, a: Action)
    requires Core(n)
    ensures Core(CallAction(n, a))
  {
    PushKeepsTrace(n.trace, TraceEntry(ActionSet, NoState, NoState, NoEvent, a), n.state, n.prev);
  }

  lemma {:induction false} EventKeepsCore(n: Net, e: Event)
    requires Core(n)
    ensures Core(OnEvent(n, e))
  {
    EventKeepsTrace(n.trace, e, n.state, n.prev);
  }

  lemma {:induction false} ChangeLinks(n: Net, s: State, at: Clock)
    requires |n.links.servers| == MAX_CONNECTIONS && (s == n.state ==> Offline(s, n.links))
    ensures |ChangeState(n, s, at).links.servers| == MAX_CONNECTIONS && Offline(s, ChangeState(n, s, at).links)
  {
  }

  /** What a state change pushes: the change, then the action that goes with the new state. */
  function ChangeTrace(t: Trace, from: State, s: State): Trace {
    var t1 := PushTrace(t, TraceEntry(StateChange, from, s, NoEvent, NoAction));
    match s
    case NetworkDetached => PushTrace(t1, TraceEntry(ActionSet, NoState, NoState, NoEvent, AttachNetwork))
    case PdpContextClosed => PushTrace(t1, TraceEntry(ActionSet, NoState, NoState, NoEvent, OpenPdpContext))
    case _ => t1
  }

  lemma {:induction false} ChangeTraces(n: Net, s: State, at: Clock)
    requires s != n.state
    ensures ChangeState(n, s, at).trace == ChangeTrace(n.trace, n.state, s) && ChangeState(n, s, at).prev == n.state
  {
  }

  lemma {:induction false} ChangeTraceOk(t: Trace, state: State, prev: State, s: State)
    requires TraceOk(t, state, prev) && s != state
    ensures TraceOk(ChangeTrace(t, state, s), s, state)
  {
    ChangeKeepsTrace(t, state, prev, s);
    var t1 := PushTrace(t, TraceEntry(StateChange, state, s, NoEvent, NoAction));
    if s == NetworkDetached || s == PdpContextClosed {
      var a := if s == NetworkDetached then AttachNetwork else OpenPdpContext;
      PushKeepsTrace(t1, TraceEntry(ActionSet, NoState, NoState, NoEvent, a), s, state);
    }
  }

  lemma {:induction false} ChangeKeepsCore(n: Net, s: State, at: Clock)
    requires Moving(n) && Reachable(s) && (s == n.state ==> Core(n))
    ensures Core(ChangeState(n, s, at)) && ChangeState(n, s, at).state == s
  {
    ChangeLinks(n, s, at);
    if s != n.state {
      ChangeTraces(n, s, at);
      ChangeTraceOk(n.trace, n.state, n.prev, s);
    }
  }

  lemma {:induction false} MoveAndCallKeepsCore(n: Net, s: State, at: Clock, a: Action)
    requires Moving(n) && Reachable(s) && (s == n.state ==> Core(n))
    ensures Core(CallAction(ChangeState(n, s, at), a))
  {
    ChangeKeepsCore(n, s, at);
    CallKeepsCore(ChangeState(n, s, at), a);
  }

  lemma {:induction false} SetupKeepsCore(n: Net, i: Inputs)
    requires Core(n)
    ensures Core(DoSetupRadio(n, i))
  {
    var b := n.boot;
    if b.changeBands || b.changeRat {
      CallKeepsCore(n.(boot := b.(changeBands := false, changeRat := false)), Reboot);
    } else {
      var n1 := if b.warm || b.cold
                then n.(boot := b.(warm := false, cold := false), urcs := Switch(n.urcs, ALL_URCS, i.urcOk)) else n;
      MoveAndCallKeepsCore(n1, IdleMode, i.actionClock, QueryNetworkStatus);
    }
  }

  lemma {:induction false} AttachKeepsCore(n: Net, i: Inputs)
    requires Core(n)
    ensures Core(DoAttach(n, i))
  {
    var n1 := n.(boot := Compare(n, i));
    CallKeepsCore(n1, SetupRadio);
    ChangeKeepsCore(n1, NetworkAttaching, i.actionClock);
    EventKeepsCore(n, AttachError);
  }

  lemma {:induction false} QueryNetworkKeepsCore(n: Net, i: Inputs)
    requires Core(n)
    ensures Core(DoQueryNetwork(n, i))
  {
    EventKeepsCore(n, AtNoResponse);
    CallKeepsCore(n, QueryPdpContext);
    ChangeKeepsCore(n, NetworkDetached, i.actionClock);
  }

  lemma {:induction false} QueryPdpKeepsCore(n: Net, i: Inputs)
    requires Core(n)
    ensures Core(DoQueryPdp(n, i))
  {
    MoveAndCallKeepsCore(n, PdpContextClosed, i.actionClock, OpenPdpContext);
    ChangeKeepsCore(n, DataReady, i.actionClock);
    ChangeKeepsCore(n.(links := n.links.(ip := i.ip)), DataReady, i.actionClock);
  }

  lemma {:induction false} TransparentKeepsCore(n: Net, i: Inputs)
    requires Core(n)
    ensures Core(DoEnterTransparent(n, i)) && Core(DoLeaveTransparent(n, i))
  {
    ChangeKeepsCore(n, TransparentMode, i.actionClock);
    MoveAndCallKeepsCore(n.(urcs := Switch(n.urcs, ALL_URCS, i.urcOk)), IdleMode, i.actionClock, QueryNetworkStatus);
  }

  lemma {:induction false} GnssKeepsCore(n: Net, i: Inputs)
    requires Core(n)
    ensures Core(DoEnterGnss(n, i))
  {
    var n1 := n.(urcs := Switch(n.urcs, UrcSwitches(false, false, false, false, n.urcs.notify), i.urcOk));
    CallKeepsCore(n1, LeaveGnssFix);
    ChangeKeepsCore(n1, GnssFixMode, i.actionClock);
  }

  lemma {:induction false} WakingKeepsCore(n: Net, i: Inputs)
    requires Core(n)
    ensures Core(DoWakeUp(n, i)) && Core(DoPowerOn(n, i))
  {
    MoveAndCallKeepsCore(n, DataReady, i.actionClock, QueryNetworkStatus);
    MoveAndCallKeepsCore(n.(boot := n.boot.(warm := true)), IdleMode, i.actionClock, SetupRadio);
    ChangeKeepsCore(n, SwitchedOff, i.actionClock);
    MoveAndCallKeepsCore(n, IdleMode, i.actionClock, SetupRadio);
  }

  /** The actions that only move the machine from one power state to another. */
  predicate Powers(a: Action) {
    a in {Reboot, CheckResponsiveness, PowerOn, PowerOff, TurnOnRadio, SwitchOffRadio, EnterSleep, WakeUp, LeaveGnssFix}
  }

  lemma {:induction false} PowerKeepsCore(n: Net, a: Action, i: Inputs)
    requires Core(n) && a in {Reboot, PowerOn, PowerOff, TurnOnRadio, SwitchOffRadio, EnterSleep, WakeUp}
    ensures Core(Perform(n, a, i))
  {
    match a
    case Reboot =>
      MoveAndCallKeepsCore(n, Rebooting, i.actionClock, PowerOn);
      EventKeepsCore(n, AtNoResponse);
    case PowerOff => ChangeKeepsCore(n, SwitchedOff, i.actionClock);
    case TurnOnRadio => MoveAndCallKeepsCore(n, IdleMode, i.actionClock, SetupRadio);
    case SwitchOffRadio => ChangeKeepsCore(n, OffMode, i.actionClock);
    case EnterSleep => CallKeepsCore(n, SwitchOffRadio);
    case _ => WakingKeepsCore(n, i);
  }

  lemma {:induction false} PerformKeepsCore(n: Net, a: Action, i: Inputs)
    requires Core(n)
    ensures Core(Perform(n, a, i))
  {
    match a
    case Reboot => PowerKeepsCore(n, a, i);
    case PowerOn => PowerKeepsCore(n, a, i);
    case PowerOff => PowerKeepsCore(n, a, i);
    case TurnOnRadio => PowerKeepsCore(n, a, i);
    case SwitchOffRadio => PowerKeepsCore(n, a, i);
    case EnterSleep => PowerKeepsCore(n, a, i);
    case WakeUp => PowerKeepsCore(n, a, i);
    case CheckResponsiveness => MoveAndCallKeepsCore(n, IdleMode, i.actionClock, QueryNetworkStatus);
    case SetupRadio => SetupKeepsCore(n, i);
    case QueryNetworkStatus => QueryNetworkKeepsCore(n, i);
    case AttachNetwork => AttachKeepsCore(n, i);
    case QueryPdpContext => QueryPdpKeepsCore(n, i);
    case OpenPdpContext => ChangeKeepsCore(n, DataReady, i.actionClock);
    case SendData =>
    case EnterTransparent => TransparentKeepsCore(n, i);
    case LeaveTransparent => TransparentKeepsCore(n, i);
    case EnterGnssFix => GnssKeepsCore(n, i);
    case LeaveGnssFix => MoveAndCallKeepsCore(n, IdleMode, i.actionClock, QueryNetworkStatus);
    case _ =>
  }

  lemma {:induction false} HandleEventKeepsCore(n: Net, e: Event, i: Inputs)
    requires Core(n)
    ensures Core(HandleEvent(n, e, i))
  {
    var dropped := n.(links := n.links.(servers := DropServers(n.links.servers)));
    match e
    case PsmEnter => ChangeKeepsCore(n, SleepMode, i.eventClock);
    case PsmExit => ChangeKeepsCore(n, if n.prev == DataReady then DataReady else IdleMode, i.eventClock);
    case DetachedEvent => ChangeKeepsCore(dropped, NetworkDetached, i.eventClock);
    case AttachedEvent => ChangeKeepsCore(n, PdpContextClosed, i.eventClock);
    case ContextClosed => ChangeKeepsCore(dropped, NetworkDetached, i.eventClock);
    case ContextOpened => ChangeKeepsCore(n, DataReady, i.eventClock);
    case GpsAvailable => CallKeepsCore(n, LeaveGnssFix);
    case TimeoutEvent => TimeoutKeepsCore(n, i.eventClock);
    case AttachError => CallKeepsCore(n, EnterSleep);
    case AtNoResponse => CallKeepsCore(n, CheckResponsiveness);
    case _ =>
  }

  lemma {:induction false} TimeoutKeepsCore(n: Net, at: Clock)
    requires Core(n)
    ensures Core(OnTimeout(n, at))
  {
    var a := TimeoutAction(n.state);
    CallKeepsCore(n, a);
    ChangeKeepsCore(CallAction(n, a), Done, at);
  }

  lemma {:induction false} UrcKeepsCore(n: Net, u: Urc)
    requires Core(n)
    ensures Core(HandleUrc(n, u))
  {
    CallKeepsCore(n, QueryPdpContext);
    EventKeepsCore(n, EventOf(u));
  }

  lemma {:induction false} UrcsKeepCore(n: Net, us: seq<Urc>)
    requires Core(n)
    ensures Core(HandleUrcs(n, us))
    decreases |us|
  {
    if us != [] {
      UrcKeepsCore(n, us[0]);
      UrcsKeepCore(HandleUrc(n, us[0]), us[1..]);
    }
  }

  lemma {:induction false} ReactKeepsCore(n: Net, i: Inputs)
    requires Core(n)
    ensures Core(React(n, i))
  {
    UrcsKeepCore(n, i.urcs);
    var n1 := if n.state == TransparentMode then n else HandleUrcs(n, i.urcs);
    EventKeepsCore(n1, AtNoResponse);
    var n2 := Listen(n, i);
    HandleEventKeepsCore(n2.(event := NoEvent), n2.event, i);
  }

  lemma {:induction false} LoopKeepsCore(n: Net, target: State, i: Inputs)
    requires Core(n)
    ensures Core(Loop(n, target, i))
  {
    ReactKeepsCore(n, i);
    var n1 := React(n, i);
    PerformKeepsCore(n1.(action := NoAction), n1.action, i);
  }

  lemma {:induction false} KickKeepsCore(n: Net, target: State)
    requires Core(n)
    ensures Core(Kick(n, target))
  {
    CallKeepsCore(n, KickAction(n.state, target));
  }

  /** Steps that only touch sockets, queue, configuration, trace or the pending event and action. */
  predicate Minor(s: Step) {
    s.ConfigureServer? || s.ConnectServer? || s.DisconnectServer? || s.WriteTx? || s.RequestSend? || s.SetConfig?
    || s.PopTrace? || s.UserTimerExpires?
  }

  lemma {:induction false} MinorSteps(n: Net, s: Step)
    requires Minor(s)
    ensures var r := Next(n, s);
            && r.state == n.state && r.clockwork == n.clockwork && r.urcs == n.urcs && r.retries == n.retries
            && (!s.SetConfig? ==> r.config == n.config)
  {
  }

  lemma {:induction false} SocketsKeepCore(n: Net, s: Step)
    requires Core(n) && (s.ConfigureServer? || s.ConnectServer? || s.DisconnectServer?)
    ensures Core(Next(n, s))
  {
  }

  lemma {:induction false} ForcePsmKeepsCore(n: Net, attached: bool, at: Clock, rearm: nat, urcOk: bool)
    requires Core(n)
    ensures Core(ForcePsm(n, attached, at, rearm, urcOk))
  {
    if n.state == DataReady {
      var n1 := n.(clockwork := n.clockwork.(timer := n.clockwork.timer.(running := false)));
      ChangeKeepsCore(n1, if attached then DataReady else IdleMode, at);
    }
  }

  lemma {:induction false} NextKeepsCore(n: Net, s: Step)
    requires Core(n)
    ensures Core(Next(n, s))
  {
    match s
    case LoopStep(target, i) => LoopKeepsCore(n, target, i);
    case GoToStep(target, i) =>
      KickKeepsCore(n, target);
      LoopKeepsCore(Kick(n, target), target, i);
    case DisconnectNetwork(_, at) => ChangeKeepsCore(n, NetworkDetached, at);
    case TryForcePsm(attached, at, rearm, urcOk) => ForcePsmKeepsCore(n, attached, at, rearm, urcOk);
    case QuitTransparent(i) =>
      CallKeepsCore(n, LeaveTransparent);
      var n1 := CallAction(n, LeaveTransparent);
      PerformKeepsCore(n1.(action := NoAction), LeaveTransparent, i);
    case RequestSend => CallKeepsCore(n, SendData);
    case StateTimerExpires =>
      EventKeepsCore(n.(clockwork := n.clockwork.(timer := n.clockwork.timer.(running := false))), TimeoutEvent);
    case UserTimerExpires => EventKeepsCore(n, TimeoutEvent);
    case ConfigureServer(_, _, _, _) => SocketsKeepCore(n, s);
    case ConnectServer(_, _, _, _, _) => SocketsKeepCore(n, s);
    case DisconnectServer(_, _) => SocketsKeepCore(n, s);
    case _ =>
  }

  lemma {:induction false} RunKeepsCore(n: Net, run: seq<Step>)
    requires Core(n)
    ensures Core(After(n, run))
    decreases |run|
  {
    if run != [] {
      NextKeepsCore(n, run[0]);
      RunKeepsCore(Next(n, run[0]), run[1..]);
    }
  }

  // ---------------------------------------------------------------------------
  // Safety of every run
  // ---------------------------------------------------------------------------

  /** Detached or without a context, the machine holds no address and no socket that is not disconnected. */
  lemma {:induction false} OfflineMeansDisconnected(config: Config, run: seq<Step>)
    ensures var n := After(Initial(config), run);
            n.state == NetworkDetached || n.state == PdpContextClosed ==>
              n.links.ip == "" && |n.links.servers| == MAX_CONNECTIONS && AllDisconnected(n.links.servers)
  {
    RunKeepsCore(Initial(config), run);
  }

  /** No run gets to setup_mode, pdp_context_opening or modem_fota, so an update of the modem never starts. */
  lemma {:induction false} UnreachableStates(config: Config, run: seq<Step>)
    ensures After(Initial(config), run).state !in {NoState, SetupMode, PdpContextOpening, ModemFota}
  {
    RunKeepsCore(Initial(config), run);
  }

  /** What the trace ring holds: the newest entries, oldest first. */
  function Held(t: Trace): seq<TraceEntry>
    requires t.kept <= |t.pushed|
  {
    t.pushed[|t.pushed| - t.kept..]
  }

  /**
   The state changes held in the ring are a contiguous tail of the path of states: each starts where the one before it
   ended, and the last one ends in the present state.
   */
  lemma {:induction false} TraceIsTailOfPath(config: Config, run: seq<Step>) returns (from: State)
    ensures var n := After(Initial(config), run);
            && n.trace.kept <= TRACE_CAPACITY && n.trace.kept <= |n.trace.pushed|
            && Linked(Changes(Held(n.trace)), from, n.state)
            && (exists a :: Changes(n.trace.pushed) == a + Changes(Held(n.trace)) && Linked(a, SwitchedOff, from))
  {
    RunKeepsCore(Initial(config), run);
    var t := After(Initial(config), run).trace;
    var old' := t.pushed[..|t.pushed| - t.kept];
    assert t.pushed == old' + Held(t);
    ChangesConcat(old', Held(t));
    from := LinkedTail(Changes(old'), Changes(Held(t)), SwitchedOff, After(Initial(config), run).state);
  }
}
