/**
 The LTE network state machine as a function of its inputs.

 A `Net` value holds the fields of the machine, the modem-side URC switches, and history variables (`pushed`, `visits`,
 `enteredAt`, `attempts`, `increments`, `sent`) that record what happened without influencing it.  Everything the modem
 answers, and every clock reading, is part of the inputs of a step, so a list of steps is a run with an arbitrary modem.
 */
module NetworkModel {
  import opened Buffers
  import opened MessageQueues

  // ---------------------------------------------------------------------------
  // Types
  // ---------------------------------------------------------------------------

  datatype State =
    | NoState | Rebooting | SwitchedOff | OffMode | SleepMode | SetupMode | IdleMode | NetworkDetached
    | NetworkAttaching | PdpContextClosed | PdpContextOpening | DataReady | TransparentMode | ModemFota
    | GnssFixMode | Done

  datatype Event =
    | NoEvent | PsmEnter | PsmExit | DetachedEvent | AttachedEvent | ContextOpened | ContextClosed | ContextRejected
    | DataAvailable | GpsAvailable | TimeoutEvent | NetworkError | AttachError | ContextError | AtNoResponse

  datatype Action =
    | NoAction | Reboot | FactoryReset | CheckResponsiveness | PowerOn | PowerOff | TurnOnRadio | SwitchOffRadio
    | EnterSleep | WakeUp | SetupRadio | QueryNetworkStatus | QueryPdpContext | AttachNetwork | OpenPdpContext
    | SendData | ReadData | DataComplete | EnterTransparent | LeaveTransparent | EnterGnssFix | LeaveGnssFix

  datatype TraceKind = StateChange | EventSet | ActionSet | ErrorRaised

  datatype TraceEntry = TraceEntry(kind: TraceKind, previous: State, current: State, event: Event, action: Action)

  const TRACE_CAPACITY: nat := 10

  datatype ServerState =
    | UnknownServer | Disconnected | Connected | Suspended | PendingData | Listening | IncomingConnection
    | DnsResolving | Connecting

  datatype Server = Server(state: ServerState, protocol: string, address: string, port: nat)

  datatype RadioTech = UnknownTech | Gsm | Lte | CatM1 | NbIot

  datatype RegStatus = NotRegistered | RegisteredHome | Searching | Denied | UnknownReg | RegisteredRoaming | OtherReg

  const U32: nat := 0x1_0000_0000
  const U8: nat := 256

  type Byte = n: nat | n < U8

  datatype Config = Config(
    dataReadyTimeoutSec: nat, maxAttachRetries: Byte, defaultBands: nat, defaultTech: RadioTech,
    fallbackBands: nat, fallbackTech: RadioTech, cfunSleep: bool)

  /** Which unsolicited reports the modem has been told to send. */
  datatype UrcSwitches = UrcSwitches(psm: bool, cell: bool, registration: bool, pdp: bool, notify: bool)

  /** The one-shot state timer: armed or not, when it was last armed, and whether its expiry raises an event. */
  datatype StateTimer = StateTimer(running: bool, start: nat, notifies: bool)

  /** One completed stay in a timed state. */
  datatype Visit = Visit(state: State, from: nat, to: nat)

  /** The state timer, the time counters, and as history when the state was entered and all completed stays. */
  datatype Clockwork = Clockwork(timer: StateTimer, counters: map<State, nat>, enteredAt: nat, visits: seq<Visit>)

  /** Address and sockets. */
  datatype Links = Links(ip: string, servers: seq<Server>)

  /** The trace ring: of all entries pushed so far (a history) it holds the newest `kept`. */
  datatype Trace = Trace(pushed: seq<TraceEntry>, kept: nat)

  /** Retry counter, and as history the attach attempts and retry increments since the last registration. */
  datatype Retries = Retries(counter: Byte, attempts: nat, increments: nat)

  datatype Boot = Boot(cold: bool, warm: bool, changeBands: bool, changeRat: bool)

  /** The TX queue, and as history the messages handed to the modem. */
  datatype Traffic = Traffic(tx: seq<Message>, sent: seq<Message>)

  datatype Net = Net(
    state: State, prev: State, event: Event, action: Action, config: Config, retries: Retries, boot: Boot,
    links: Links, clockwork: Clockwork, urcs: UrcSwitches, traffic: Traffic, trace: Trace)

  /** Recognised URC lines, by what they say. */
  datatype Urc =
    | RegistrationUrc(stat: nat) | ContextDeactivated | PsDetached | ContextRefused | PsmEntered | SearchExhausted
    | SocketData | GnssReport | OtherUrc

  datatype Reply = ReplyOk | ReplyTimeout | ReplyError

  /** Clock readings of one state change: when the old state's timer is read, and when the new one's is armed. */
  datatype Clock = Clock(exit: nat, enter: nat)

  /** What the modem and the clock answer during one step. */
  datatype Inputs = Inputs(
    urcs: seq<Urc>, lastTimedOut: bool, eventClock: Clock, actionClock: Clock, gnssFix: bool,
    reboot: Reply, atOk: Reply, setBands: Reply, setTech: Reply, reg: Reply, regStat: RegStatus,
    getTech: Reply, tech: RadioTech, getBands: Reply, bands: nat,
    getPdp: Reply, pdpActive: bool, getIp: Reply, ipGiven: bool, ip: string, activate: Reply,
    gnssPowered: bool, gnssPower: Reply, urcOk: bool)

  /** What the modem answers while a server connection is set up. */
  datatype SocketReplies = SocketReplies(status: ServerState, closeReply: Reply, openReply: Reply)

  predicate Timed(s: State) {
    s in {NetworkAttaching, PdpContextOpening, DataReady, TransparentMode, GnssFixMode, SleepMode, OffMode}
  }

  function Initial(config: Config): Net {
    Net(SwitchedOff, NoState, NoEvent, NoAction, config, Retries(0, 0, 0), Boot(false, true, false, false),
        Links("", seq(MAX_CONNECTIONS, _ => Server(Disconnected, "", "", 0))),
        Clockwork(StateTimer(false, 0, false), map s: State | Timed(s) :: 0, 0, []), NO_URCS, Traffic([], []),
        Trace([], 0))
  }

  // ---------------------------------------------------------------------------
  // Traces, events, actions
  // ---------------------------------------------------------------------------

  /** The ring keeps the newest entries; when it is full the oldest one is overwritten. */
  function PushTrace(t: Trace, e: TraceEntry): Trace {
    Trace(t.pushed + [e], if t.kept < TRACE_CAPACITY then t.kept + 1 else t.kept)
  }

  predicate IsError(e: Event) { e in {NetworkError, AttachError, ContextError, AtNoResponse} }

  function TraceEvent(t: Trace, e: Event): Trace {
    var t1 := PushTrace(t, TraceEntry(EventSet, NoState, NoState, e, NoAction));
    if IsError(e) then PushTrace(t1, TraceEntry(ErrorRaised, NoState, NoState, e, NoAction)) else t1
  }

  /** Sets the one-slot event; an event not yet handled is overwritten. */
  function OnEvent(n: Net, e: Event): Net {
    n.(event := e, trace := TraceEvent(n.trace, e))
  }

  /** Sets the one-slot action; an action not yet executed is overwritten. */
  function CallAction(n: Net, a: Action): Net {
    n.(action := a, trace := PushTrace(n.trace, TraceEntry(ActionSet, NoState, NoState, NoEvent, a)))
  }

  // ---------------------------------------------------------------------------
  // State changes
  // ---------------------------------------------------------------------------

  function Elapsed(start: nat, now: nat): nat { if now < start then 0 else (now - start) % U32 }

  function CounterOf(c: Clockwork, s: State): nat { if s in c.counters then c.counters[s] else 0 }

  /** Leaving a timed state adds the timer's reading to its counter and stops the timer. */
  function LeaveTimed(c: Clockwork, s: State, now: nat): Clockwork {
    if !Timed(s) then c
    else
      c.(counters := c.counters[s := (CounterOf(c, s) + Elapsed(c.timer.start, now)) % U32],
         timer := c.timer.(running := false),
         visits := c.visits + [Visit(s, c.enteredAt, now)])
  }

  /** Arming does nothing while the timer still runs. */
  function ArmTimer(t: StateTimer, now: nat, notifies: bool): StateTimer {
    if t.running then t else StateTimer(true, now, notifies)
  }

  function NotifiesIn(s: State, config: Config): bool {
    match s
    case DataReady => config.dataReadyTimeoutSec > 0
    case SleepMode => false
    case OffMode => false
    case _ => true
  }

  function EnterTimed(c: Clockwork, s: State, now: nat, notifies: bool): Clockwork {
    if !Timed(s) then c.(enteredAt := now)
    else c.(timer := ArmTimer(c.timer, now, notifies), enteredAt := now)
  }

  function DropServers(servers: seq<Server>): (r: seq<Server>)
    ensures |r| == |servers|
    ensures forall i :: 0 <= i < |r| ==> r[i] == servers[i].(state := Disconnected)
  {
    seq(|servers|, i requires 0 <= i < |servers| => servers[i].(state := Disconnected))
  }

  /** A state change touches state, trace, clockwork, links and at most the pending action. */
  function ChangeState(n: Net, s: State, at: Clock): (r: Net)
    ensures r.state == s && r.event == n.event && r.config == n.config && r.retries == n.retries && r.boot == n.boot
    ensures r.urcs == n.urcs && r.traffic == n.traffic
  {
    if s == n.state then n
    else
      var left := LeaveTimed(n.clockwork, n.state, at.exit);
      var n1 := n.(prev := n.state, state := s,
                   trace := PushTrace(n.trace, TraceEntry(StateChange, n.state, s, NoEvent, NoAction)),
                   clockwork := EnterTimed(left, s, at.enter, NotifiesIn(s, n.config)));
      EnterState(n1, s)
  }

  /** Being detached, or registered without a context, means no address and no open socket. */
  function EnterState(n: Net, s: State): Net {
    match s
    case NetworkDetached => CallAction(n.(links := Links("", DropServers(n.links.servers))), AttachNetwork)
    case PdpContextClosed => CallAction(n.(links := Links("", DropServers(n.links.servers))), OpenPdpContext)
    case _ => n
  }

  /** A reply that is not ok; one that never came raises an event. */
  function CheckReply(n: Net, r: Reply): Net {
    if r == ReplyTimeout then OnEvent(n, AtNoResponse) else n
  }

  // ---------------------------------------------------------------------------
  // Actions
  // ---------------------------------------------------------------------------

  /** The URC switches after commands that set them all, if the modem took them. */
  function Switch(u: UrcSwitches, on: UrcSwitches, ok: bool): UrcSwitches { if ok then on else u }

  const ALL_URCS := UrcSwitches(true, true, true, true, true)
  const NO_URCS := UrcSwitches(false, false, false, false, false)

  function WantedTech(n: Net): RadioTech {
    if n.retries.counter == 0 then n.config.defaultTech else n.config.fallbackTech
  }

  function WantedBands(n: Net): nat {
    if n.retries.counter == 0 then n.config.defaultBands else n.config.fallbackBands
  }

  /** The modem refuses to be set to a technology it does not have. */
  function TechReply(wanted: RadioTech, i: Inputs): Reply {
    if wanted == CatM1 || wanted == NbIot then i.setTech else ReplyError
  }

  /** Bands or technology are to be changed: a setting the modem takes needs a reboot; otherwise nothing is queued. */
  function DoChangeSettings(n: Net, i: Inputs): Net {
    var b := n.boot;
    var reboot := (b.changeBands && i.setBands == ReplyOk) || (b.changeRat && TechReply(WantedTech(n), i) == ReplyOk);
    var n1 := n.(boot := b.(changeBands := false, changeRat := false));
    if reboot then CallAction(n1, Reboot) else n1
  }

  /** After a boot the configuration is applied again. */
  function DoConfigure(n: Net, i: Inputs): Net {
    var n1 := if n.boot.warm || n.boot.cold
              then n.(boot := n.boot.(warm := false, cold := false), urcs := Switch(n.urcs, ALL_URCS, i.urcOk)) else n;
    CallAction(ChangeState(n1, IdleMode, i.actionClock), QueryNetworkStatus)
  }

  function DoSetupRadio(n: Net, i: Inputs): Net {
    if n.boot.changeBands || n.boot.changeRat then DoChangeSettings(n, i) else DoConfigure(n, i)
  }

  function DoQueryNetwork(n: Net, i: Inputs): Net {
    if i.reg != ReplyOk then CheckReply(n, i.reg)
    else match i.regStat
      case RegisteredHome => CallAction(n, QueryPdpContext)
      case RegisteredRoaming => CallAction(n, QueryPdpContext)
      case OtherReg => n
      case _ => ChangeState(n, NetworkDetached, i.actionClock)
  }

  predicate MayAttach(n: Net) { n.retries.counter == 0 || n.retries.counter < n.config.maxAttachRetries }

  function Increment(r: Retries): Retries {
    r.(counter := (r.counter + 1) % U8, increments := r.increments + 1)
  }

  /** The change flags after comparing what the modem is set to with what is wanted. */
  function Compare(n: Net, i: Inputs): Boot {
    n.boot.(changeRat := n.boot.changeRat || (i.getTech == ReplyOk && i.tech != WantedTech(n)),
            changeBands := n.boot.changeBands || (i.getBands == ReplyOk && i.bands != WantedBands(n)))
  }

  /** Compares technology and bands with the wanted ones; a difference sends the machine through a reboot first. */
  function DoAttach(n: Net, i: Inputs): Net {
    if MayAttach(n) then
      var b := Compare(n, i);
      if b.changeRat || b.changeBands then CallAction(n.(boot := b), SetupRadio)
      else
        var n1 := ChangeState(n.(boot := b), NetworkAttaching, i.actionClock);
        n1.(retries := Increment(n1.retries.(attempts := n1.retries.attempts + 1)))
    else OnEvent(n, AttachError).(retries := Increment(n.retries))
  }

  function DoQueryPdp(n: Net, i: Inputs): Net {
    if i.getPdp != ReplyOk then n
    else if !i.pdpActive then CallAction(ChangeState(n, PdpContextClosed, i.actionClock), OpenPdpContext)
    else if i.getIp != ReplyOk then n
    else ChangeState(if i.ipGiven then n.(links := n.links.(ip := i.ip)) else n, DataReady, i.actionClock)
  }

  predicate Deliverable(servers: seq<Server>, m: Message) {
    && 1 <= m.cid <= |servers|
    && servers[m.cid - 1].state == Connected && servers[m.cid - 1].protocol == "UDP"
  }

  /** The queued messages that go out, in queue order. */
  function Outgoing(servers: seq<Server>, q: seq<Message>): seq<Message> {
    if q == [] then []
    else if Deliverable(servers, q[0]) then [q[0]] + Outgoing(servers, q[1..])
    else Outgoing(servers, q[1..])
  }

  function DoSendData(n: Net): Net {
    if n.state != DataReady then n
    else n.(traffic := Traffic([], n.traffic.sent + Outgoing(n.links.servers, n.traffic.tx)))
  }

  function DoWakeUp(n: Net, i: Inputs): Net {
    if n.prev == DataReady
    then CallAction(ChangeState(n, DataReady, i.actionClock), QueryNetworkStatus)
    else CallAction(ChangeState(n.(boot := n.boot.(warm := true)), IdleMode, i.actionClock), SetupRadio)
  }

  function DoEnterGnss(n: Net, i: Inputs): Net {
    var off := UrcSwitches(false, false, false, false, n.urcs.notify);
    var n1 := n.(urcs := Switch(n.urcs, off, i.urcOk));
    if !i.gnssPowered && i.gnssPower != ReplyOk then CallAction(n1, LeaveGnssFix)
    else ChangeState(n1, GnssFixMode, i.actionClock)
  }

  function DoEnterTransparent(n: Net, i: Inputs): Net {
    var n1 := ChangeState(n, TransparentMode, i.actionClock);
    n1.(urcs := Switch(n1.urcs, NO_URCS, i.urcOk))
  }

  function DoLeaveTransparent(n: Net, i: Inputs): Net {
    CallAction(ChangeState(n.(urcs := Switch(n.urcs, ALL_URCS, i.urcOk)), IdleMode, i.actionClock), QueryNetworkStatus)
  }

  function DoPowerOn(n: Net, i: Inputs): Net {
    if i.atOk != ReplyOk then ChangeState(n, SwitchedOff, i.actionClock)
    else
      var n1 := CallAction(ChangeState(n, IdleMode, i.actionClock), SetupRadio);
      n1.(boot := n1.boot.(cold := true))
  }

  function Perform(n: Net, a: Action, i: Inputs): Net {
    match a
    case Reboot =>
      if i.reboot == ReplyOk then CallAction(ChangeState(n, Rebooting, i.actionClock), PowerOn)
      else CheckReply(n, i.reboot)
    case CheckResponsiveness => CallAction(ChangeState(n, IdleMode, i.actionClock), QueryNetworkStatus)
    case PowerOn => DoPowerOn(n, i)
    case PowerOff => ChangeState(n, SwitchedOff, i.actionClock)
    case TurnOnRadio => CallAction(ChangeState(n, IdleMode, i.actionClock), SetupRadio)
    case SwitchOffRadio => if n.config.cfunSleep then ChangeState(n, OffMode, i.actionClock) else n
    case EnterSleep => CallAction(n, SwitchOffRadio)
    case WakeUp => DoWakeUp(n, i)
    case SetupRadio => DoSetupRadio(n, i)
    case QueryNetworkStatus => DoQueryNetwork(n, i)
    case AttachNetwork => DoAttach(n, i)
    case QueryPdpContext => DoQueryPdp(n, i)
    case OpenPdpContext => if i.activate == ReplyOk then ChangeState(n, DataReady, i.actionClock) else n
    case SendData => DoSendData(n)
    case EnterTransparent => DoEnterTransparent(n, i)
    case LeaveTransparent => DoLeaveTransparent(n, i)
    case EnterGnssFix => DoEnterGnss(n, i)
    case LeaveGnssFix => CallAction(ChangeState(n, IdleMode, i.actionClock), QueryNetworkStatus)
    case _ => n
  }

  function ExecuteActions(n: Net, i: Inputs): Net { Perform(n.(action := NoAction), n.action, i) }

  // ---------------------------------------------------------------------------
  // URCs and events
  // ---------------------------------------------------------------------------

  /** The event that a report raises. */
  function EventOf(u: Urc): Event {
    match u
    case ContextDeactivated => ContextClosed
    case PsDetached => DetachedEvent
    case ContextRefused => ContextRejected
    case PsmEntered => PsmEnter
    case SearchExhausted => DetachedEvent
    case SocketData => DataAvailable
    case GnssReport => GpsAvailable
    case _ => NoEvent
  }

  function HandleUrc(n: Net, u: Urc): Net {
    if u == RegistrationUrc(1) || u == RegistrationUrc(5)
    then CallAction(n, QueryPdpContext).(retries := Retries(0, 0, 0))
    else if EventOf(u) == NoEvent then n
    else OnEvent(n, EventOf(u))
  }

  function HandleUrcs(n: Net, us: seq<Urc>): Net
    decreases |us|
  {
    if us == [] then n else HandleUrcs(HandleUrc(n, us[0]), us[1..])
  }

  function TimeoutAction(s: State): Action {
    match s
    case DataReady => EnterSleep
    case TransparentMode => LeaveTransparent
    case GnssFixMode => LeaveGnssFix
    case _ => AttachNetwork
  }

  function OnTimeout(n: Net, at: Clock): Net {
    if n.state == DataReady && n.config.dataReadyTimeoutSec == 0 then n
    else ChangeState(CallAction(n, TimeoutAction(n.state)), Done, at)
  }

  function HandleEvent(n: Net, e: Event, i: Inputs): Net {
    match e
    case PsmEnter => ChangeState(n, SleepMode, i.eventClock)
    case PsmExit => ChangeState(n, if n.prev == DataReady then DataReady else IdleMode, i.eventClock)
    case DetachedEvent =>
      var n1 := n.(links := n.links.(servers := DropServers(n.links.servers)));
      if n.state in {SwitchedOff, OffMode, SleepMode} then n1 else ChangeState(n1, NetworkDetached, i.eventClock)
    case AttachedEvent => ChangeState(n, PdpContextClosed, i.eventClock)
    case ContextClosed =>
      ChangeState(n.(links := n.links.(servers := DropServers(n.links.servers))), NetworkDetached, i.eventClock)
    case ContextOpened => ChangeState(n, DataReady, i.eventClock)
    case GpsAvailable => if i.gnssFix then CallAction(n, LeaveGnssFix) else n
    case TimeoutEvent => OnTimeout(n, i.eventClock)
    case AttachError => CallAction(n, EnterSleep)
    case AtNoResponse => CallAction(n, CheckResponsiveness)
    case _ => n
  }

  /** URCs are polled except in transparent mode; then a missing answer raises an event. */
  function Listen(n: Net, i: Inputs): Net {
    var n1 := if n.state == TransparentMode then n else HandleUrcs(n, i.urcs);
    if i.lastTimedOut then OnEvent(n1, AtNoResponse) else n1
  }

  /** The part of `loop` before actions are executed. */
  function React(n: Net, i: Inputs): Net {
    var n1 := Listen(n, i);
    HandleEvent(n1.(event := NoEvent), n1.event, i)
  }

  function Loop(n: Net, target: State, i: Inputs): Net {
    var n1 := React(n, i);
    if n1.state == target && target != NoState then n1 else ExecuteActions(n1, i)
  }

  // ---------------------------------------------------------------------------
  // Public operations
  // ---------------------------------------------------------------------------

  /** The action `go_to_state` queues before each of its loop steps, if any. */
  function KickAction(s: State, target: State): Action {
    match s
    case SwitchedOff => if target in {DataReady, TransparentMode, GnssFixMode} then PowerOn else NoAction
    case OffMode => if target in {DataReady, TransparentMode, GnssFixMode} then TurnOnRadio else NoAction
    case SleepMode => if target in {DataReady, TransparentMode} then WakeUp else NoAction
    case TransparentMode => if target in {DataReady, IdleMode} then LeaveTransparent else NoAction
    case GnssFixMode => if target in {DataReady, IdleMode} then LeaveTransparent else NoAction
    case _ =>
      if target == TransparentMode then EnterTransparent else if target == GnssFixMode then EnterGnssFix else NoAction
  }

  function Kick(n: Net, target: State): Net {
    if KickAction(n.state, target) == NoAction then n else CallAction(n, KickAction(n.state, target))
  }

  predicate GoesOn(n: Net, target: State) { n.state != target && n.state != Done && n.state != ModemFota }

  /** One turn of the loop inside `go_to_state`. */
  function GoToTurn(n: Net, target: State, i: Inputs): Net {
    if GoesOn(n, target) then Loop(Kick(n, target), target, i) else n
  }

  predicate ValidConn(id: nat) { 1 <= id <= MAX_CONNECTIONS }

  function SetServer(n: Net, id: nat, s: Server): Net
    requires ValidConn(id) && |n.links.servers| == MAX_CONNECTIONS
  {
    n.(links := n.links.(servers := n.links.servers[id - 1 := s]))
  }

  function NewConnection(n: Net, id: nat, protocol: string, address: string, port: nat): Net
    requires ValidConn(id) && |n.links.servers| == MAX_CONNECTIONS
  {
    SetServer(n, id, Server(Disconnected, protocol, address, port))
  }

  /** Opens a socket; the machine and the value the caller gets. */
  function ServerConnect(n: Net, id: nat, protocol: string, address: string, port: nat, r: SocketReplies): (Net, bool)
    requires ValidConn(id) && |n.links.servers| == MAX_CONNECTIONS
  {
    if n.state != DataReady then (n, false)
    else
      var s := n.links.servers[id - 1];
      var n1 := SetServer(n, id, s.(state := r.status));
      if r.status == Connected then (n1, true)
      else if r.status == Suspended && r.closeReply != ReplyOk then (n1, false)
      else
        var s2 := if r.status == Suspended then s.(state := Connected) else s.(state := r.status);
        var n2 := SetServer(n, id, s2);
        if r.status == DnsResolving || r.status == Connecting then (n2, false)
        else if protocol != "UDP" then (n2, false)
        else if r.openReply != ReplyOk then (n2, false)
        else (SetServer(n, id, Server(Connected, protocol, address, port)), true)
  }

  function ServerDisconnect(n: Net, id: nat, closed: Reply): (Net, bool)
    requires ValidConn(id) && |n.links.servers| == MAX_CONNECTIONS
  {
    var s := n.links.servers[id - 1];
    if s.state != Connected || s.protocol != "UDP" || closed != ReplyOk then (n, false)
    else (SetServer(n, id, s.(state := Disconnected)), true)
  }

  /** Stops the timer, tries the operators, and arms the timer again whatever the outcome. */
  function ForcePsm(n: Net, attached: bool, at: Clock, rearm: nat, urcOk: bool): Net {
    if n.state != DataReady then n
    else
      var n1 := n.(clockwork := n.clockwork.(timer := n.clockwork.timer.(running := false)));
      var n2 := ChangeState(n1, if attached then DataReady else IdleMode, at);
      n2.(clockwork := n2.clockwork.(timer := ArmTimer(n2.clockwork.timer, rearm, n2.config.dataReadyTimeoutSec > 0)),
          urcs := Switch(n2.urcs, ALL_URCS, urcOk))
  }

  function LeaveTransparentMode(n: Net, i: Inputs): Net {
    if n.state != TransparentMode then n else ExecuteActions(CallAction(n, LeaveTransparent), i)
  }

  function TimerExpires(n: Net): Net {
    if !n.clockwork.timer.running then n
    else
      var n1 := n.(clockwork := n.clockwork.(timer := n.clockwork.timer.(running := false)));
      if n.clockwork.timer.notifies then OnEvent(n1, TimeoutEvent) else n1
  }

  datatype Step =
    | LoopStep(target: State, i: Inputs)
    | GoToStep(target: State, i: Inputs)
    | DisconnectNetwork(detached: Reply, at: Clock)
    | ConfigureServer(id: nat, protocol: string, address: string, port: nat)
    | ConnectServer(id: nat, protocol: string, address: string, port: nat, replies: SocketReplies)
    | DisconnectServer(id: nat, closed: Reply)
    | WriteTx(cid: nat, data: seq<byte>)
    | RequestSend
    | TryForcePsm(attached: bool, at: Clock, rearm: nat, urcOk: bool)
    | QuitTransparent(i: Inputs)
    | SetConfig(config: Config)
    | PopTrace
    | StateTimerExpires
    | UserTimerExpires

  /** A connection id outside 1..5 makes the source index out of its array; here such a step does nothing. */
  predicate Allowed(s: Step) {
    match s
    case ConfigureServer(id, _, _, _) => ValidConn(id)
    case ConnectServer(id, _, _, _, _) => ValidConn(id)
    case DisconnectServer(id, _) => ValidConn(id)
    case _ => true
  }

  function Next(n: Net, s: Step): Net {
    if |n.links.servers| == MAX_CONNECTIONS && Allowed(s) then Take(n, s) else n
  }

  function Take(n: Net, s: Step): Net
    requires Allowed(s) && |n.links.servers| == MAX_CONNECTIONS
  {
    match s
    case LoopStep(target, i) => Loop(n, target, i)
    case GoToStep(target, i) => GoToTurn(n, target, i)
    case DisconnectNetwork(detached, at) => if detached == ReplyOk then ChangeState(n, NetworkDetached, at) else n
    case ConfigureServer(id, p, a, port) => NewConnection(n, id, p, a, port)
    case ConnectServer(id, p, a, port, r) => ServerConnect(n, id, p, a, port, r).0
    case DisconnectServer(id, closed) => ServerDisconnect(n, id, closed).0
    case WriteTx(cid, data) =>
      n.(traffic := n.traffic.(tx := Apply(n.traffic.tx, DEFAULT_CAPACITY, Truncate, Push(cid, data)).1))
    case RequestSend => CallAction(n, SendData)
    case TryForcePsm(attached, at, rearm, urcOk) => ForcePsm(n, attached, at, rearm, urcOk)
    case QuitTransparent(i) => LeaveTransparentMode(n, i)
    case SetConfig(config) => n.(config := config)
    case PopTrace => if n.trace.kept == 0 then n else n.(trace := n.trace.(kept := n.trace.kept - 1))
    case StateTimerExpires => TimerExpires(n)
    case UserTimerExpires => OnEvent(n, TimeoutEvent)
  }
}
