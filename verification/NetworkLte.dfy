/** The network state machine as an object: fields changed in place, a trace ring and a TX queue of its own. */
module NetworkLteMachine {
  import opened Buffers
  import opened MessageQueues
  import opened NetworkModel
  import opened TraceRings

  class NetworkLte {
    var state: State
    var prev: State
    var event: Event
    var action: Action
    var config: Config
    var attachRetries: Byte
    var boot: Boot
    var ip: string
    const servers: array<Server>
    var timer: StateTimer
    var counters: map<State, nat>
    var urcs: UrcSwitches
    const queue: PosixQueue
    const ring: TraceRing
    ghost var enteredAt: nat
    ghost var visits: seq<Visit>
    ghost var attempts: nat
    ghost var increments: nat
    ghost var sent: seq<Message>

    ghost predicate Valid()
      reads this, servers, queue, ring, ring.buffer
    {
      && servers.Length == MAX_CONNECTIONS
      && queue.Valid() && queue.capacity == DEFAULT_CAPACITY
      && ring.Valid()
    }

    ghost function ClockView(): Clockwork
      reads this
    {
      Clockwork(timer, counters, enteredAt, visits)
    }

    /** The value this object stands for. */
    ghost function View(): Net
      reads this, servers, queue, ring
    {
      Net(state, prev, event, action, config, Retries(attachRetries, attempts, increments), boot,
          Links(ip, servers[..]), ClockView(), urcs, Traffic(queue.fifo, sent),
          ring.trace)
    }

    constructor (cfg: Config)
      ensures Valid() && View() == Initial(cfg)
      ensures fresh(servers) && fresh(queue) && fresh(ring) && fresh(ring.buffer)
    {
      state, prev, event, action, config := SwitchedOff, NoState, NoEvent, NoAction, cfg;
      attachRetries, attempts, increments := 0, 0, 0;
      boot := Boot(false, true, false, false);
      ip := "";
      servers := new Server[MAX_CONNECTIONS](_ => Server(Disconnected, "", "", 0));
      timer := StateTimer(false, 0, false);
      counters := map s: State | Timed(s) :: 0;
      enteredAt, visits, sent := 0, [], [];
      urcs := NO_URCS;
      queue := new PosixQueue(0);
      ring := new TraceRing();
      new;
      assert servers[..] == Initial(cfg).links.servers;
    }

    method OnEvent(e: Event)
      requires Valid()
      modifies this`event, ring, ring.buffer
      ensures Valid() && View() == NetworkModel.OnEvent(old(View()), e)
    {
      event := e;
      ring.Push(TraceEntry(EventSet, NoState, NoState, e, NoAction));
      if IsError(e) { ring.Push(TraceEntry(ErrorRaised, NoState, NoState, e, NoAction)); }
    }

    method CallAction(a: Action)
      requires Valid()
      modifies this`action, ring, ring.buffer
      ensures Valid() && View() == NetworkModel.CallAction(old(View()), a)
    {
      action := a;
      ring.Push(TraceEntry(ActionSet, NoState, NoState, NoEvent, a));
    }

    method DisconnectServers()
      requires Valid()
      modifies servers
      ensures Valid() && servers[..] == DropServers(old(servers[..]))
    {
      var i := 0;
      while i < MAX_CONNECTIONS
        invariant 0 <= i <= MAX_CONNECTIONS
        invariant forall k :: 0 <= k < i ==> servers[k] == old(servers[k]).(state := Disconnected)
        invariant forall k :: i <= k < MAX_CONNECTIONS ==> servers[k] == old(servers[k])
      {
        servers[i] := servers[i].(state := Disconnected);
        i := i + 1;
      }
    }

    /** Reads and stops the timer of the state that is left. */
    method LeaveTimer(left: State, now: nat)
      modifies this`timer, this`counters, this`visits
      ensures ClockView() == LeaveTimed(old(ClockView()), left, now)
    {
      if !Timed(left) { return; }
      var was := if left in counters then counters[left] else 0;
      counters := counters[left := (was + Elapsed(timer.start, now)) % U32];
      timer := timer.(running := false);
      visits := visits + [Visit(left, enteredAt, now)];
    }

    /** Arms the timer of the state that is entered. */
    method EnterTimer(now: nat)
      modifies this`timer, this`enteredAt
      ensures ClockView() == EnterTimed(old(ClockView()), state, now, NotifiesIn(state, config))
    {
      if Timed(state) { timer := ArmTimer(timer, now, NotifiesIn(state, config)); }
      enteredAt := now;
    }

    method ChangeState(s: State, at: Clock)
      requires Valid()
      modifies this`state, this`prev, this`action, this`ip, this`timer, this`counters, this`enteredAt, this`visits
      modifies servers, ring, ring.buffer
      ensures Valid() && View() == NetworkModel.ChangeState(old(View()), s, at)
    {
      if s == state { return; }
      NoteState(s);
      SwitchTimers(at);
      EnterState();
    }

    method SwitchTimers(at: Clock)
      requires Valid()
      modifies this`timer, this`counters, this`enteredAt, this`visits
      ensures Valid()
      ensures var c := LeaveTimed(old(View()).clockwork, prev, at.exit);
              View() == old(View()).(clockwork := EnterTimed(c, state, at.enter, NotifiesIn(state, config)))
    {
      LeaveTimer(prev, at.exit);
      EnterTimer(at.enter);
    }

    method NoteState(s: State)
      requires Valid()
      modifies this`state, this`prev, ring, ring.buffer
      ensures Valid() && View() == old(View()).(prev := old(state), state := s, trace := View().trace)
      ensures View().trace == PushTrace(old(View()).trace, TraceEntry(StateChange, old(state), s, NoEvent, NoAction))
    {
      prev := state;
      state := s;
      ring.Push(TraceEntry(StateChange, prev, state, NoEvent, NoAction));
    }

    method EnterState()
      requires Valid()
      modifies this`action, this`ip, servers, ring, ring.buffer
      ensures Valid() && View() == NetworkModel.EnterState(old(View()), state)
    {
      if state == NetworkDetached {
        ip := "";
        DisconnectServers();
        CallAction(AttachNetwork);
      } else if state == PdpContextClosed {
        ip := "";
        DisconnectServers();
        CallAction(OpenPdpContext);
      }
    }

    /** True for an ok reply; one that never came raises an event. */
    method CheckReply(r: Reply) returns (ok: bool)
      requires Valid()
      modifies this`event, ring, ring.buffer
      ensures Valid() && ok == (r == ReplyOk) && View() == NetworkModel.CheckReply(old(View()), r)
    {
      if r == ReplyTimeout { OnEvent(AtNoResponse); }
      ok := r == ReplyOk;
    }

    // -------------------------------------------------------------------------
    // Actions
    // -------------------------------------------------------------------------

    method MoveAndCall(s: State, at: Clock, a: Action)
      requires Valid()
      modifies this`state, this`prev, this`action, this`ip, this`timer, this`counters, this`enteredAt, this`visits
      modifies servers, ring, ring.buffer
      ensures Valid() && View() == NetworkModel.CallAction(NetworkModel.ChangeState(old(View()), s, at), a)
    {
      ChangeState(s, at);
      CallAction(a);
    }

    method SetupRadioNow(i: Inputs)
      requires Valid()
      modifies this, servers, ring, ring.buffer
      ensures Valid() && View() == DoSetupRadio(old(View()), i)
    {
      if boot.changeBands || boot.changeRat { ChangeSettings(i); } else { Configure(i); }
    }

    method ChangeSettings(i: Inputs)
      requires Valid()
      modifies this`boot, this`action, ring, ring.buffer
      ensures Valid() && View() == DoChangeSettings(old(View()), i)
    {
      var fReboot := false;
      var tech := if attachRetries == 0 then config.defaultTech else config.fallbackTech;
      if boot.changeBands && i.setBands == ReplyOk { fReboot := true; }
      if boot.changeRat && TechReply(tech, i) == ReplyOk { fReboot := true; }
      boot := boot.(changeBands := false, changeRat := false);
      if fReboot { CallAction(Reboot); }
    }

    method Configure(i: Inputs)
      requires Valid()
      modifies this`boot, this`urcs
      modifies this`state, this`prev, this`action, this`ip, this`timer, this`counters, this`enteredAt, this`visits
      modifies servers, ring, ring.buffer
      ensures Valid() && View() == DoConfigure(old(View()), i)
    {
      if boot.warm || boot.cold {
        boot := boot.(warm := false, cold := false);
        urcs := Switch(urcs, ALL_URCS, i.urcOk);
      }
      MoveAndCall(IdleMode, i.actionClock, QueryNetworkStatus);
    }

    method QueryNetworkNow(i: Inputs)
      requires Valid()
      modifies this, servers, ring, ring.buffer
      ensures Valid() && View() == DoQueryNetwork(old(View()), i)
    {
      var ok := CheckReply(i.reg);
      if !ok { return; }
      if i.regStat == RegisteredHome || i.regStat == RegisteredRoaming {
        CallAction(QueryPdpContext);
      } else if i.regStat != OtherReg {
        ChangeState(NetworkDetached, i.actionClock);
      }
    }

    /** Flags what the modem has set differently from the configuration of this attempt. */
    method CompareSettings(i: Inputs)
      requires Valid()
      modifies this`boot
      ensures Valid() && boot == Compare(old(View()), i)
    {
      var tech := if attachRetries == 0 then config.defaultTech else config.fallbackTech;
      var bands := if attachRetries == 0 then config.defaultBands else config.fallbackBands;
      if i.getTech == ReplyOk && i.tech != tech { boot := boot.(changeRat := true); }
      if i.getBands == ReplyOk && i.bands != bands { boot := boot.(changeBands := true); }
    }

    method AttachNow(i: Inputs)
      requires Valid()
      modifies this, servers, ring, ring.buffer
      ensures Valid() && View() == DoAttach(old(View()), i)
    {
      if attachRetries == 0 || attachRetries < config.maxAttachRetries {
        CompareSettings(i);
        if boot.changeRat || boot.changeBands {
          CallAction(SetupRadio);
          return;
        }
        ChangeState(NetworkAttaching, i.actionClock);
        CountAttempt(1);
      } else {
        OnEvent(AttachError);
        CountAttempt(0);
      }
    }

    method CountAttempt(made: nat)
      requires Valid()
      modifies this`attachRetries, this`attempts, this`increments
      ensures Valid()
      ensures var n := old(View());
              View() == n.(retries := Increment(n.retries.(attempts := n.retries.attempts + made)))
    {
      attachRetries := (attachRetries + 1) % U8;
      increments := increments + 1;
      attempts := attempts + made;
    }

    method QueryPdpNow(i: Inputs)
      requires Valid()
      modifies this, servers, ring, ring.buffer
      ensures Valid() && View() == DoQueryPdp(old(View()), i)
    {
      if i.getPdp != ReplyOk { return; }
      if !i.pdpActive {
        MoveAndCall(PdpContextClosed, i.actionClock, OpenPdpContext);
      } else if i.getIp == ReplyOk {
        if i.ipGiven { ip := i.ip; }
        ChangeState(DataReady, i.actionClock);
      }
    }

    /** Drains the TX queue in global order; what is not deliverable is dropped. */
    method SendDataNow()
      requires Valid()
      modifies this`sent, queue
      ensures Valid() && View() == DoSendData(old(View()))
    {
      if state != DataReady { return; }
      while true
        invariant Valid()
        invariant sent + Outgoing(servers[..], queue.fifo) == old(sent) + Outgoing(servers[..], old(queue.fifo))
        decreases |queue.fifo|
      {
        ghost var before := queue.fifo;
        var e, out := queue.PopNextFrom(0);
        if e != Ok { break; }
        var m := out[0];
        assert m == before[0] && queue.fifo == before[1..];
        if m.cid < 1 || m.cid > MAX_CONNECTIONS { continue; }
        if servers[m.cid - 1].state != Connected { continue; }
        if servers[m.cid - 1].protocol == "UDP" {
          sent := sent + [m];
        }
      }
      assert queue.fifo == [];
    }

    method EnterGnssNow(i: Inputs)
      requires Valid()
      modifies this, servers, ring, ring.buffer
      ensures Valid() && View() == DoEnterGnss(old(View()), i)
    {
      urcs := Switch(urcs, UrcSwitches(false, false, false, false, urcs.notify), i.urcOk);
      if !i.gnssPowered && i.gnssPower != ReplyOk {
        CallAction(LeaveGnssFix);
        return;
      }
      ChangeState(GnssFixMode, i.actionClock);
    }

    method RebootNow(i: Inputs)
      requires Valid()
      modifies this`event
      modifies this`state, this`prev, this`action, this`ip, this`timer, this`counters, this`enteredAt, this`visits
      modifies servers, ring, ring.buffer
      ensures Valid() && View() == Perform(old(View()), Reboot, i)
    {
      var ok := CheckReply(i.reboot);
      if ok { MoveAndCall(Rebooting, i.actionClock, PowerOn); }
    }

    method PowerOnNow(i: Inputs)
      requires Valid()
      modifies this`boot
      modifies this`state, this`prev, this`action, this`ip, this`timer, this`counters, this`enteredAt, this`visits
      modifies servers, ring, ring.buffer
      ensures Valid() && View() == DoPowerOn(old(View()), i)
    {
      if i.atOk != ReplyOk {
        ChangeState(SwitchedOff, i.actionClock);
        return;
      }
      MoveAndCall(IdleMode, i.actionClock, SetupRadio);
      boot := boot.(cold := true);
    }

    method WakeUpNow(i: Inputs)
      requires Valid()
      modifies this`boot
      modifies this`state, this`prev, this`action, this`ip, this`timer, this`counters, this`enteredAt, this`visits
      modifies servers, ring, ring.buffer
      ensures Valid() && View() == DoWakeUp(old(View()), i)
    {
      if prev == DataReady {
        MoveAndCall(DataReady, i.actionClock, QueryNetworkStatus);
      } else {
        boot := boot.(warm := true);
        MoveAndCall(IdleMode, i.actionClock, SetupRadio);
      }
    }

    method EnterTransparentNow(i: Inputs)
      requires Valid()
      modifies this, servers, ring, ring.buffer
      ensures Valid() && View() == DoEnterTransparent(old(View()), i)
    {
      ChangeState(TransparentMode, i.actionClock);
      urcs := Switch(urcs, NO_URCS, i.urcOk);
    }

    method LeaveTransparentNow(i: Inputs)
      requires Valid()
      modifies this, servers, ring, ring.buffer
      ensures Valid() && View() == DoLeaveTransparent(old(View()), i)
    {
      urcs := Switch(urcs, ALL_URCS, i.urcOk);
      MoveAndCall(IdleMode, i.actionClock, QueryNetworkStatus);
    }

    method PerformNow(a: Action, i: Inputs)
      requires Valid()
      modifies this, servers, queue, ring, ring.buffer
      ensures Valid() && View() == Perform(old(View()), a, i)
    {
      match a
      case SetupRadio => SetupRadioNow(i);
      case QueryNetworkStatus => QueryNetworkNow(i);
      case AttachNetwork => AttachNow(i);
      case QueryPdpContext => QueryPdpNow(i);
      case OpenPdpContext => if i.activate == ReplyOk { ChangeState(DataReady, i.actionClock); }
      case SendData => SendDataNow();
      case EnterGnssFix => EnterGnssNow(i);
      case EnterTransparent => EnterTransparentNow(i);
      case LeaveTransparent => LeaveTransparentNow(i);
      case _ => PowerNow(a, i);
    }

    /** The actions that only move the machine from one power state to another, and those that do nothing. */
    method PowerNow(a: Action, i: Inputs)
      requires Valid()
      requires a !in {SetupRadio, QueryNetworkStatus, AttachNetwork, QueryPdpContext, OpenPdpContext, SendData}
      requires a !in {EnterGnssFix, EnterTransparent, LeaveTransparent}
      modifies this, servers, ring, ring.buffer
      ensures Valid() && View() == Perform(old(View()), a, i)
    {
      match a
      case Reboot => RebootNow(i);
      case PowerOn => PowerOnNow(i);
      case WakeUp => WakeUpNow(i);
      case PowerOff => ChangeState(SwitchedOff, i.actionClock);
      case SwitchOffRadio => if config.cfunSleep { ChangeState(OffMode, i.actionClock); }
      case EnterSleep => CallAction(SwitchOffRadio);
      case LeaveGnssFix => MoveAndCall(IdleMode, i.actionClock, QueryNetworkStatus);
      case CheckResponsiveness => MoveAndCall(IdleMode, i.actionClock, QueryNetworkStatus);
      case TurnOnRadio => MoveAndCall(IdleMode, i.actionClock, SetupRadio);
      case _ =>
    }

    method ExecuteActions(i: Inputs)
      requires Valid()
      modifies this, servers, queue, ring, ring.buffer
      ensures Valid() && View() == NetworkModel.ExecuteActions(old(View()), i)
    {
      var a := action;
      action := NoAction;
      PerformNow(a, i);
    }

    // -------------------------------------------------------------------------
    // URCs, events, the loop
    // -------------------------------------------------------------------------

    method HandleUrc(u: Urc)
      requires Valid()
      modifies this`event, this`action, this`attachRetries, this`attempts, this`increments, ring, ring.buffer
      ensures Valid() && View() == NetworkModel.HandleUrc(old(View()), u)
    {
      if u == RegistrationUrc(1) || u == RegistrationUrc(5) {
        Registered();
        return;
      }
      var e := EventOf(u);
      if e != NoEvent { OnEvent(e); }
    }

    /** The network has the modem: the context is queried and the retries start over. */
    method Registered()
      requires Valid()
      modifies this`action, this`attachRetries, this`attempts, this`increments, ring, ring.buffer
      ensures Valid() && View() == NetworkModel.CallAction(old(View()), QueryPdpContext).(retries := Retries(0, 0, 0))
    {
      CallAction(QueryPdpContext);
      attachRetries := 0;
      attempts, increments := 0, 0;
    }

    method HandleUrcs(us: seq<Urc>)
      requires Valid()
      modifies this`event, this`action, this`attachRetries, this`attempts, this`increments, ring, ring.buffer
      ensures Valid() && View() == NetworkModel.HandleUrcs(old(View()), us)
    {
      ghost var all := NetworkModel.HandleUrcs(View(), us);
      assert us[0..] == us;
      for k := 0 to |us|
        invariant Valid()
        invariant all == NetworkModel.HandleUrcs(View(), us[k..])
      {
        HandleUrc(us[k]);
        assert us[k..][1..] == us[k + 1..];
      }
    }

    method OnTimeout(at: Clock)
      requires Valid()
      modifies this, servers, ring, ring.buffer
      ensures Valid() && View() == NetworkModel.OnTimeout(old(View()), at)
    {
      if state == DataReady && config.dataReadyTimeoutSec == 0 { return; }
      CallAction(TimeoutAction(state));
      ChangeState(Done, at);
    }

    method HandleEvent(e: Event, i: Inputs)
      requires Valid()
      modifies this, servers, ring, ring.buffer
      ensures Valid() && View() == NetworkModel.HandleEvent(old(View()), e, i)
    {
      match e
      case PsmEnter => ChangeState(SleepMode, i.eventClock);
      case PsmExit => ChangeState(if prev == DataReady then DataReady else IdleMode, i.eventClock);
      case DetachedEvent =>
        DisconnectServers();
        if state != SwitchedOff && state != OffMode && state != SleepMode {
          ChangeState(NetworkDetached, i.eventClock);
        }
      case AttachedEvent => ChangeState(PdpContextClosed, i.eventClock);
      case ContextClosed =>
        DisconnectServers();
        ChangeState(NetworkDetached, i.eventClock);
      case ContextOpened => ChangeState(DataReady, i.eventClock);
      case GpsAvailable => if i.gnssFix { CallAction(LeaveGnssFix); }
      case TimeoutEvent => OnTimeout(i.eventClock);
      case AttachError => CallAction(EnterSleep);
      case AtNoResponse => CallAction(CheckResponsiveness);
      case _ =>
    }

    method Listen(i: Inputs)
      requires Valid()
      modifies this, ring, ring.buffer
      ensures Valid() && View() == NetworkModel.Listen(old(View()), i)
    {
      if state != TransparentMode { HandleUrcs(i.urcs); }
      if i.lastTimedOut { OnEvent(AtNoResponse); }
    }

    method React(i: Inputs)
      requires Valid()
      modifies this, servers, ring, ring.buffer
      ensures Valid() && View() == NetworkModel.React(old(View()), i)
    {
      Listen(i);
      var e := event;
      event := NoEvent;
      HandleEvent(e, i);
    }

    method Loop(target: State, i: Inputs)
      requires Valid()
      modifies this, servers, queue, ring, ring.buffer
      ensures Valid() && View() == NetworkModel.Loop(old(View()), target, i)
    {
      React(i);
      if state == target && target != NoState { return; }
      ExecuteActions(i);
    }

    method Kick(target: State)
      requires Valid()
      modifies this`action, ring, ring.buffer
      ensures Valid() && View() == NetworkModel.Kick(old(View()), target)
    {
      var a := KickAction(state, target);
      if a != NoAction { CallAction(a); }
    }

    /** One round of the loop inside `go_to_state`. */
    method Turn(target: State, i: Inputs)
      requires Valid() && GoesOn(View(), target)
      modifies this, servers, queue, ring, ring.buffer
      ensures Valid() && View() == GoToTurn(old(View()), target, i)
    {
      Kick(target);
      Loop(target, i);
    }

    method NextTurn(target: State, inputs: seq<Inputs>, turns: nat, ghost start: Net)
      requires Valid() && GoesOn(View(), target) && turns < |inputs| && View() == Turns(start, target, inputs[..turns])
      modifies this, servers, queue, ring, ring.buffer
      ensures Valid() && View() == Turns(start, target, inputs[..turns + 1])
    {
      ghost var before := View();
      Turn(target, inputs[turns]);
      TurnsStep(start, target, inputs, turns, before, View());
    }

    /**
     Turns the loop until the target is reached, the machine is in a state without way out, or an error event is
     pending.  The source has no timeout here; `inputs` is what the modem answers for as long as it is watched.
     */
    method GoToState(target: State, inputs: seq<Inputs>) returns (reached: bool, turns: nat)
      requires Valid()
      modifies this, servers, queue, ring, ring.buffer
      ensures Valid() && turns <= |inputs| && View() == Turns(old(View()), target, inputs[..turns])
      ensures reached ==> state == target
      ensures !reached ==> turns == |inputs| || state == Done || state == ModemFota
                           || event == NetworkError || event == AttachError || event == ContextError
    {
      turns := 0;
      ghost var start := View();
      assert inputs[..0] == [];
      while state != target && turns < |inputs|
        invariant Valid() && turns <= |inputs|
        invariant View() == Turns(start, target, inputs[..turns])
        decreases |inputs| - turns
      {
        if state == Done || state == ModemFota { return false, turns; }
        NextTurn(target, inputs, turns, start);
        turns := turns + 1;
        if event == NetworkError || event == AttachError || event == ContextError {
          return false, turns;
        }
      }
      reached := state == target;
    }

    // -------------------------------------------------------------------------
    // Sockets and the remaining public operations
    // -------------------------------------------------------------------------

    method NewConnection(id: nat, protocol: string, address: string, port: nat)
      requires Valid() && ValidConn(id)
      modifies servers
      ensures Valid() && View() == NetworkModel.NewConnection(old(View()), id, protocol, address, port)
    {
      servers[id - 1] := Server(Disconnected, protocol, address, port);
    }

    /** Returning true means that the slot is connected; the converse fails when a suspended socket is not reopened. */
    method ServerConnect(id: nat, protocol: string, address: string, port: nat, r: SocketReplies) returns (ok: bool)
      requires Valid() && ValidConn(id)
      modifies servers
      ensures Valid()
      ensures (View(), ok) == NetworkModel.ServerConnect(old(View()), id, protocol, address, port, r)
      ensures ok ==> state == DataReady && servers[id - 1].state == Connected
    {
      if state != DataReady { return false; }
      var k := id - 1;
      servers[k] := servers[k].(state := r.status);
      if servers[k].state == Connected { return true; }
      if servers[k].state == Suspended {
        if r.closeReply != ReplyOk { return false; }
        servers[k] := servers[k].(state := Connected);
      }
      assert servers[..] == old(servers[..])[k := servers[k]];
      if servers[k].state == DnsResolving || servers[k].state == Connecting { return false; }
      if protocol != "UDP" { return false; }
      if r.openReply != ReplyOk { return false; }
      servers[k] := Server(Connected, protocol, address, port);
      assert servers[..] == old(servers[..])[k := servers[k]];
      ok := true;
    }

    method ServerDisconnect(id: nat, closed: Reply) returns (ok: bool)
      requires Valid() && ValidConn(id)
      modifies servers
      ensures Valid() && (View(), ok) == NetworkModel.ServerDisconnect(old(View()), id, closed)
    {
      var k := id - 1;
      if servers[k].state != Connected || servers[k].protocol != "UDP" || closed != ReplyOk { return false; }
      servers[k] := servers[k].(state := Disconnected);
      ok := true;
    }

    /** True when an operator with PSM was found; nothing happens outside data_ready. */
    method ForcePsm(attached: bool, at: Clock, rearm: nat, urcOk: bool) returns (ok: bool)
      requires Valid()
      modifies this, servers, ring, ring.buffer
      ensures Valid() && View() == NetworkModel.ForcePsm(old(View()), attached, at, rearm, urcOk)
      ensures ok == (old(state) == DataReady && attached)
      ensures ok ==> state == DataReady
    {
      if state != DataReady { return false; }
      timer := timer.(running := false);
      ChangeState(if attached then DataReady else IdleMode, at);
      Resume(rearm, urcOk);
      ok := attached;
    }

    /** Timer and reports are turned on again. */
    method Resume(rearm: nat, urcOk: bool)
      requires Valid()
      modifies this`timer, this`urcs
      ensures Valid()
      ensures var n := old(View());
              var t := ArmTimer(n.clockwork.timer, rearm, n.config.dataReadyTimeoutSec > 0);
              View() == n.(clockwork := n.clockwork.(timer := t), urcs := Switch(n.urcs, ALL_URCS, urcOk))
    {
      timer := ArmTimer(timer, rearm, config.dataReadyTimeoutSec > 0);
      urcs := Switch(urcs, ALL_URCS, urcOk);
    }

    /** True exactly when the machine was in transparent mode, and then it is not any more. */
    method LeaveTransparentMode(i: Inputs) returns (ok: bool)
      requires Valid()
      modifies this, servers, queue, ring, ring.buffer
      ensures Valid() && View() == NetworkModel.LeaveTransparentMode(old(View()), i)
      ensures ok == (old(state) == TransparentMode)
      ensures state != TransparentMode
    {
      if state != TransparentMode { return false; }
      CallAction(LeaveTransparent);
      ExecuteActions(i);
      ok := state != TransparentMode;
    }

    method TxWrite(cid: nat, data: seq<byte>) returns (e: QueueError)
      requires Valid()
      modifies queue
      ensures Valid() && View() == Take(old(View()), WriteTx(cid, data))
      ensures e == Apply(old(queue.fifo), DEFAULT_CAPACITY, Truncate, Push(cid, data)).0.error
    {
      e := queue.PushTo(cid, data);
    }

    /** Always true, also when the modem does not detach. */
    method NetworkDisconnect(detached: Reply, at: Clock) returns (ok: bool)
      requires Valid()
      modifies this, servers, ring, ring.buffer
      ensures Valid() && View() == Take(old(View()), DisconnectNetwork(detached, at)) && ok
    {
      if detached == ReplyOk { ChangeState(NetworkDetached, at); }
      ok := true;
    }

    /** The oldest trace entry still held. */
    method PopTrace() returns (ok: bool, e: TraceEntry)
      requires Valid()
      modifies ring
      ensures Valid() && View() == Take(old(View()), NetworkModel.PopTrace)
      ensures ok == (old(ring.Contents()) != [])
      ensures ok ==> e == old(ring.Contents())[0]
    {
      ok, e := ring.Pop();
    }

    method RequestSend()
      requires Valid()
      modifies this`action, ring, ring.buffer
      ensures Valid() && View() == Take(old(View()), NetworkModel.RequestSend)
    {
      CallAction(SendData);
    }

    method SetConfig(c: Config)
      requires Valid()
      modifies this`config
      ensures Valid() && View() == Take(old(View()), NetworkModel.SetConfig(c))
    {
      config := c;
    }

    method UserTimerExpired()
      requires Valid()
      modifies this`event, ring, ring.buffer
      ensures Valid() && View() == Take(old(View()), UserTimerExpires)
    {
      OnEvent(TimeoutEvent);
    }

    /** Any one step: a turn of the loop, a public call, or the expiry of a timer. */
    method Do(s: Step)
      requires Valid()
      modifies this, servers, queue, ring, ring.buffer
      ensures Valid() && View() == Next(old(View()), s)
    {
      if !Allowed(s) { return; }
      match s
      case LoopStep(target, i) => Loop(target, i);
      case GoToStep(target, i) => if state != target && state != Done && state != ModemFota { Turn(target, i); }
      case ConfigureServer(id, protocol, address, port) => NewConnection(id, protocol, address, port);
      case ConnectServer(id, protocol, address, port, replies) =>
        var ok := ServerConnect(id, protocol, address, port, replies);
      case DisconnectServer(id, closed) => var ok := ServerDisconnect(id, closed);
      case StateTimerExpires => TimerExpired();
      case _ => DoCall(s);
    }

    /** The calls that touch neither sockets nor the loop. */
    method DoCall(s: Step)
      requires Valid() && (s.DisconnectNetwork? || s.WriteTx? || s.RequestSend? || s.TryForcePsm? || s.QuitTransparent?
                           || s.SetConfig? || s.PopTrace? || s.UserTimerExpires?)
      modifies this, servers, queue, ring, ring.buffer
      ensures Valid() && View() == Take(old(View()), s)
    {
      match s
      case DisconnectNetwork(detached, at) => var ok := NetworkDisconnect(detached, at);
      case WriteTx(cid, data) => var e := TxWrite(cid, data);
      case RequestSend => RequestSend();
      case TryForcePsm(attached, at, rearm, urcOk) => var ok := ForcePsm(attached, at, rearm, urcOk);
      case QuitTransparent(i) => var ok := LeaveTransparentMode(i);
      case SetConfig(c) => SetConfig(c);
      case PopTrace => var ok, e := PopTrace();
      case UserTimerExpires => UserTimerExpired();
    }

    method TimerExpired()
      requires Valid()
      modifies this`timer, this`event, ring, ring.buffer
      ensures Valid() && View() == TimerExpires(old(View()))
    {
      if !timer.running { return; }
      var notifies := timer.notifies;
      timer := timer.(running := false);
      if notifies { OnEvent(TimeoutEvent); }
    }
  }

  /** The turns of `go_to_state` for a list of answers. */
  ghost function Turns(n: Net, target: State, inputs: seq<Inputs>): Net {
    if inputs == [] then n
    else GoToTurn(Turns(n, target, inputs[..|inputs| - 1]), target, inputs[|inputs| - 1])
  }

  lemma {:induction false} TurnsStep(start: Net, target: State, inputs: seq<Inputs>, turns: nat, before: Net,
                                     after: Net)
    requires turns < |inputs| && before == Turns(start, target, inputs[..turns])
    requires after == GoToTurn(before, target, inputs[turns])
    ensures after == Turns(start, target, inputs[..turns + 1])
  {
    assert inputs[..turns + 1][..turns] == inputs[..turns];
  }
}
