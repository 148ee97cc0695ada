/** Unsolicited reports, transparent mode and GNSS mode. */
module NetworkTransparent {
  import opened MessageQueues
  import opened NetworkModel
  import opened NetworkInvariants
  import opened NetworkReach

  ghost predicate Silent(n: Net) { n.state == TransparentMode ==> n.urcs == NO_URCS }

  /** The modem took the URC commands of this step. */
  predicate UrcCommandsTaken(s: Step) {
    match s
    case LoopStep(_, i) => i.urcOk
    case GoToStep(_, i) => i.urcOk
    case QuitTransparent(i) => i.urcOk
    case _ => true
  }

  lemma {:induction false} PerformKeepsSilent(n: Net, a: Action, i: Inputs)
    requires Silent(n) && i.urcOk
    ensures Silent(Perform(n, a, i))
  {
  }

  lemma {:induction false} EventsKeepSilent(n: Net, e: Event, i: Inputs)
    ensures HandleEvent(n, e, i).urcs == n.urcs
    ensures HandleEvent(n, e, i).state == TransparentMode ==> n.state == TransparentMode
  {
  }

  lemma {:induction false} UrcsKeepSwitches(n: Net, us: seq<Urc>)
    ensures HandleUrcs(n, us).state == n.state && HandleUrcs(n, us).urcs == n.urcs
    decreases |us|
  {
    if us != [] { UrcsKeepSwitches(HandleUrc(n, us[0]), us[1..]); }
  }

  lemma {:induction false} LoopKeepsSilent(n: Net, target: State, i: Inputs)
    requires Silent(n) && i.urcOk
    ensures Silent(Loop(n, target, i))
  {
    UrcsKeepSwitches(n, i.urcs);
    var n1 := Listen(n, i);
    EventsKeepSilent(n1.(event := NoEvent), n1.event, i);
    var n2 := React(n, i);
    PerformKeepsSilent(n2.(action := NoAction), n2.action, i);
  }

  lemma {:induction false} NextKeepsSilent(n: Net, s: Step)
    requires Core(n) && Silent(n) && UrcCommandsTaken(s)
    ensures Silent(Next(n, s))
  {
    if Minor(s) {
      MinorSteps(n, s);
      return;
    }
    match s
    case LoopStep(target, i) => LoopKeepsSilent(n, target, i);
    case GoToStep(target, i) => LoopKeepsSilent(Kick(n, target), target, i);
    case QuitTransparent(i) =>
      PerformKeepsSilent(CallAction(n, LeaveTransparent).(action := NoAction), LeaveTransparent, i);
    case _ =>
  }

  /** With URC commands that succeed, the modem is silent whenever the machine is in transparent mode. */
  lemma {:induction false} TransparentIsSilent(n: Net, run: seq<Step>)
    requires Core(n) && Silent(n)
    requires forall k :: 0 <= k < |run| ==> UrcCommandsTaken(run[k])
    ensures Silent(After(n, run))
    decreases |run|
  {
    if run != [] {
      NextKeepsSilent(n, run[0]);
      NextKeepsCore(n, run[0]);
      TransparentIsSilent(Next(n, run[0]), run[1..]);
    }
  }

  /** In transparent mode no URC is polled: what the line holds does not matter to the step. */
  lemma {:induction false} TransparentPollsNothing(n: Net, target: State, i: Inputs, us: seq<Urc>)
    requires n.state == TransparentMode
    ensures Loop(n, target, i) == Loop(n, target, i.(urcs := us))
  {
    var j := i.(urcs := us);
    assert Listen(n, i) == Listen(n, j);
    var n1 := Listen(n, i);
    var m := n1.(event := NoEvent);
    assert HandleEvent(m, n1.event, i) == HandleEvent(m, n1.event, j);
    var n2 := React(n, i);
    PerformIgnoresUrcs(n2.(action := NoAction), n2.action, i, us);
  }

  lemma {:induction false} PerformIgnoresUrcs(n: Net, a: Action, i: Inputs, us: seq<Urc>)
    ensures Perform(n, a, i) == Perform(n, a, i.(urcs := us))
  {
  }

  // ---------------------------------------------------------------------------
  // GNSS mode
  // ---------------------------------------------------------------------------

  /** PSM, cell, registration and PDP reports are off. */
  predicate Muted(u: UrcSwitches) { !u.psm && !u.cell && !u.registration && !u.pdp }

  ghost predicate GnssMuted(n: Net) { n.state == GnssFixMode ==> Muted(n.urcs) }

  lemma {:induction false} PerformKeepsMuted(n: Net, a: Action, i: Inputs)
    requires GnssMuted(n) && i.urcOk
    ensures GnssMuted(Perform(n, a, i))
  {
  }

  lemma {:induction false} EventsKeepMuted(n: Net, e: Event, i: Inputs)
    ensures HandleEvent(n, e, i).urcs == n.urcs
    ensures HandleEvent(n, e, i).state == GnssFixMode ==> n.state == GnssFixMode
  {
  }

  lemma {:induction false} LoopKeepsMuted(n: Net, target: State, i: Inputs)
    requires GnssMuted(n) && i.urcOk
    ensures GnssMuted(Loop(n, target, i))
  {
    UrcsKeepSwitches(n, i.urcs);
    var n1 := Listen(n, i);
    EventsKeepMuted(n1.(event := NoEvent), n1.event, i);
    var n2 := React(n, i);
    PerformKeepsMuted(n2.(action := NoAction), n2.action, i);
  }

  lemma {:induction false} NextKeepsMuted(n: Net, s: Step)
    requires GnssMuted(n) && UrcCommandsTaken(s)
    ensures GnssMuted(Next(n, s))
  {
    if Minor(s) {
      MinorSteps(n, s);
    } else if s.LoopStep? || s.GoToStep? {
      LoopKeepsMuted(if s.GoToStep? then Kick(n, s.target) else n, s.target, s.i);
    }
  }

  /**
   With URC commands that succeed, PSM, cell, registration and PDP reports are off whenever the machine is in GNSS
   mode.
   */
  lemma {:induction false} GnssIsMuted(n: Net, run: seq<Step>)
    requires GnssMuted(n) && forall k :: 0 <= k < |run| ==> UrcCommandsTaken(run[k])
    ensures GnssMuted(After(n, run))
    decreases |run|
  {
    if run != [] {
      NextKeepsMuted(n, run[0]);
      GnssIsMuted(Next(n, run[0]), run[1..]);
    }
  }

  // ---------------------------------------------------------------------------
  // What can be pending in the two modes
  // ---------------------------------------------------------------------------

  predicate Special(s: State) { s == TransparentMode || s == GnssFixMode }

  predicate Harmless(a: Action) {
    a in {NoAction, SendData, CheckResponsiveness, LeaveGnssFix, EnterSleep, SwitchOffRadio, LeaveTransparent,
        QueryPdpContext}
  }

  /** In the two modes no action is pending that would configure the radio. */
  ghost predicate Bounded(n: Net) { Special(n.state) ==> Harmless(n.action) }

  lemma {:induction false} PerformKeepsBounded(n: Net, a: Action, i: Inputs)
    requires n.action == NoAction && (Special(n.state) ==> Harmless(a))
    ensures Bounded(Perform(n, a, i))
  {
  }

  lemma {:induction false} EventKeepsBounded(n: Net, e: Event, i: Inputs)
    requires Bounded(n)
    ensures Bounded(HandleEvent(n, e, i))
  {
  }

  lemma {:induction false} TurnKeepsBounded(n: Net, target: State, i: Inputs)
    requires Bounded(n)
    ensures Bounded(Loop(n, target, i))
  {
    UrcsFold(n, i.urcs);
    var n1 := Listen(n, i);
    EventKeepsBounded(n1.(event := NoEvent), n1.event, i);
    var n2 := React(n, i);
    PerformKeepsBounded(n2.(action := NoAction), n2.action, i);
  }

  lemma {:induction false} StepKeepsBounded(n: Net, s: Step)
    requires Bounded(n)
    ensures Bounded(Next(n, s))
  {
    if s.LoopStep? || s.GoToStep? {
      TurnKeepsBounded(if s.GoToStep? then Kick(n, s.target) else n, s.target, s.i);
    } else if s.QuitTransparent? {
      PerformKeepsBounded(CallAction(n, LeaveTransparent).(action := NoAction), LeaveTransparent, s.i);
    }
  }

  lemma {:induction false} RunKeepsBounded(n: Net, run: seq<Step>)
    requires Bounded(n)
    ensures Bounded(After(n, run))
    decreases |run|
  {
    if run != [] {
      StepKeepsBounded(n, run[0]);
      RunKeepsBounded(Next(n, run[0]), run[1..]);
    }
  }

  // ---------------------------------------------------------------------------
  // Which steps turn the reports on again
  // ---------------------------------------------------------------------------

  /** The event a turn handles: a missing answer comes last; reports are heard except in transparent mode. */
  function HeardEvent(n: Net, i: Inputs): Event {
    if i.lastTimedOut then AtNoResponse else if n.state == TransparentMode then n.event else LastRaised(i.urcs, n.event)
  }

  /** Handling the event leaves the pending action alone. */
  predicate Spares(e: Event, i: Inputs) {
    && e !in {DetachedEvent, AttachedEvent, ContextClosed, TimeoutEvent, AttachError, AtNoResponse}
    && (e == GpsAvailable ==> !i.gnssFix)
  }

  /** The state after handling an event that spares the pending action. */
  function StateAfter(n: Net, e: Event): State {
    match e
    case PsmEnter => SleepMode
    case PsmExit => if n.prev == DataReady then DataReady else IdleMode
    case ContextOpened => DataReady
    case _ => n.state
  }

  /**
   A turn of the loop with this target leaves by `leave_transparent_mode`: its timeout does so in transparent mode, or
   that action is pending, no registration and no event overwrites it, and the turn does not end at its target first.
   */
  predicate LeavesInTurn(n: Net, pending: Action, target: State, i: Inputs) {
    var e := HeardEvent(n, i);
    || (n.state == TransparentMode && e == TimeoutEvent && target != Done)
    || (pending == LeaveTransparent && (n.state == TransparentMode || !Registers(i.urcs))
        && Spares(e, i) && StateAfter(n, e) != target)
  }

  /** The same for any step: `go_to_state` queues that action for two targets, and one call executes it at once. */
  predicate Restores(n: Net, s: Step) {
    match s
    case LoopStep(target, i) => LeavesInTurn(n, n.action, target, i)
    case GoToStep(target, i) =>
      var pending := if target in {DataReady, IdleMode} then LeaveTransparent else n.action;
      n.state != target && LeavesInTurn(n, pending, target, i)
    case QuitTransparent(_) => n.state == TransparentMode
    case _ => false
  }

  lemma {:induction false} HeardInTurn(n: Net, i: Inputs)
    requires Special(n.state)
    ensures var n1 := Listen(n, i);
            && n1.state == n.state && n1.prev == n.prev && n1.event == HeardEvent(n, i) && n1.urcs == n.urcs
            && n1.action == if n.state != TransparentMode && Registers(i.urcs) then QueryPdpContext else n.action
  {
    UrcsFold(n, i.urcs);
    UrcsKeepSwitches(n, i.urcs);
  }

  lemma {:induction false} EventInMode(n: Net, e: Event, i: Inputs)
    requires Special(n.state)
    ensures var r := HandleEvent(n, e, i);
            && r.urcs == n.urcs && (Spares(e, i) ==> r.action == n.action && r.state == StateAfter(n, e))
            && (e == TimeoutEvent ==> r.state == Done && r.action == TimeoutAction(n.state))
            && (!Spares(e, i) && e != TimeoutEvent ==>
                  r.action in {AttachNetwork, OpenPdpContext, EnterSleep, CheckResponsiveness, LeaveGnssFix})
  {
  }

  lemma {:induction false} ExecutedIs(n: Net, target: State, i: Inputs)
    requires Special(n.state)
    ensures ExecutedInTurn(n, target, i) == LeaveTransparent <==> LeavesInTurn(n, n.action, target, i)
    ensures React(n, i).urcs == n.urcs
    ensures Bounded(n) ==> Harmless(React(n, i).action) || React(n, i).action in {AttachNetwork, OpenPdpContext}
  {
    HeardInTurn(n, i);
    var n1 := Listen(n, i);
    EventInMode(n1.(event := NoEvent), n1.event, i);
  }

  lemma {:induction false} PerformInMode(n: Net, a: Action, i: Inputs)
    requires i.urcOk && (Harmless(a) || a == AttachNetwork || a == OpenPdpContext)
    ensures Perform(n, a, i).urcs == if a == LeaveTransparent then ALL_URCS else n.urcs
    ensures a == LeaveTransparent ==> Perform(n, a, i).state == IdleMode
  {
  }

  lemma {:induction false} TurnInMode(n: Net, target: State, i: Inputs)
    requires Special(n.state) && Bounded(n) && i.urcOk
    ensures Loop(n, target, i).urcs == if LeavesInTurn(n, n.action, target, i) then ALL_URCS else n.urcs
    ensures LeavesInTurn(n, n.action, target, i) ==> Loop(n, target, i).state == IdleMode
  {
    ExecutedIs(n, target, i);
    var n2 := React(n, i);
    PerformInMode(n2.(action := NoAction), n2.action, i);
  }

  lemma {:induction false} KickInMode(n: Net, target: State)
    requires Special(n.state) && n.state != target
    ensures var k := Kick(n, target);
            && k.state == n.state && k.prev == n.prev && k.event == n.event && k.urcs == n.urcs
            && k.action == if target in {DataReady, IdleMode} then LeaveTransparent else n.action
  {
  }

  lemma {:induction false} GoToInMode(n: Net, target: State, i: Inputs)
    requires Special(n.state) && Bounded(n) && i.urcOk && n.state != target
    ensures var r := GoToTurn(n, target, i);
            && r.urcs == (if Restores(n, GoToStep(target, i)) then ALL_URCS else n.urcs)
            && (Restores(n, GoToStep(target, i)) ==> r.state == IdleMode)
  {
    KickInMode(n, target);
    TurnInMode(Kick(n, target), target, i);
  }

  lemma {:induction false} CallInMode(n: Net, s: Step)
    requires Special(n.state) && !Minor(s) && !s.LoopStep? && !s.GoToStep? && UrcCommandsTaken(s)
    requires |n.links.servers| == MAX_CONNECTIONS
    ensures Next(n, s).urcs == if Restores(n, s) then ALL_URCS else n.urcs
    ensures Restores(n, s) ==> Next(n, s).state == IdleMode
  {
    if s.QuitTransparent? {
      PerformInMode(CallAction(n, LeaveTransparent).(action := NoAction), LeaveTransparent, s.i);
    }
  }

  /** A step in one of the two modes, with URC commands that succeed. */
  lemma {:induction false} StepInMode(n: Net, s: Step)
    requires Special(n.state) && Bounded(n) && UrcCommandsTaken(s) && |n.links.servers| == MAX_CONNECTIONS
    ensures Next(n, s).urcs == if Restores(n, s) then ALL_URCS else n.urcs
    ensures Restores(n, s) ==> Next(n, s).state == IdleMode
  {
    if Minor(s) {
      MinorSteps(n, s);
    } else if s.LoopStep? {
      TurnInMode(n, s.target, s.i);
    } else if s.GoToStep? {
      if n.state != s.target { GoToInMode(n, s.target, s.i); }
    } else {
      CallInMode(n, s);
    }
  }

  /**
   On every run with URC commands that succeed: transparent mode is silent, GNSS mode has all but the notifications
   off, and exactly the steps that leave by `leave_transparent_mode` turn the reports on again, all of them; every other
   step, whether it leaves or not, leaves them as they are.
   */
  lemma {:induction false} ExitRestoresReportsIff(config: Config, run: seq<Step>, s: Step)
    requires forall k :: 0 <= k < |run| ==> UrcCommandsTaken(run[k])
    requires UrcCommandsTaken(s) && Special(After(Initial(config), run).state)
    ensures var n := After(Initial(config), run);
            && Muted(n.urcs) && (n.state == TransparentMode ==> n.urcs == NO_URCS)
            && Next(n, s).urcs == (if Restores(n, s) then ALL_URCS else n.urcs)
            && (Restores(n, s) ==> Next(n, s).state == IdleMode)
  {
    RunKeepsCore(Initial(config), run);
    RunKeepsBounded(Initial(config), run);
    TransparentIsSilent(Initial(config), run);
    GnssIsMuted(Initial(config), run);
    StepInMode(After(Initial(config), run), s);
  }

  // ---------------------------------------------------------------------------
  // Runs that end in data_ready with the reports off
  // ---------------------------------------------------------------------------

  /** The modem is silent, obeys, is registered and has an active context. */
  predicate Tame(i: Inputs) {
    && Quiet(i) && i.urcOk && i.atOk == ReplyOk && i.reg == ReplyOk && i.regStat == RegisteredHome
    && i.getPdp == ReplyOk && i.pdpActive && i.getIp == ReplyOk && i.gnssPowered
  }

  /** The run so far led from n to m, and the modem took all URC commands. */
  ghost predicate Led(n: Net, run: seq<Step>, m: Net) {
    && After(n, run) == m && (forall k :: 0 <= k < |run| ==> UrcCommandsTaken(run[k]))
    && |m.links.servers| == MAX_CONNECTIONS && m.event == NoEvent
  }

  lemma {:induction false} LeadOn(n: Net, run: seq<Step>, m: Net, s: Step, r: Net)
    requires Led(n, run, m) && r == Next(m, s) && UrcCommandsTaken(s)
    requires |r.links.servers| == MAX_CONNECTIONS && r.event == NoEvent
    ensures Led(n, run + [s], r)
  {
    AfterConcat(n, run, [s]);
    After1(m, s);
  }

  lemma {:induction false} PowersOn(n: Net, run: seq<Step>, m: Net, i: Inputs) returns (run': seq<Step>, r: Net)
    requires Led(n, run, m) && Tame(i) && m.state == SwitchedOff && !m.boot.changeBands && !m.boot.changeRat
    ensures Led(n, run', r) && r.state == IdleMode && r.action == SetupRadio
    ensures r.boot.cold && !r.boot.changeBands && !r.boot.changeRat
  {
    var s := GoToStep(DataReady, i);
    r := Next(m, s);
    QuietTurn(Kick(m, DataReady), DataReady, i);
    LeadOn(n, run, m, s, r);
    run' := run + [s];
  }

  lemma {:induction false} Configures(n: Net, run: seq<Step>, m: Net, i: Inputs) returns (run': seq<Step>, r: Net)
    requires Led(n, run, m) && Tame(i) && m.state == IdleMode && m.action == SetupRadio
    requires m.boot.cold && !m.boot.changeBands && !m.boot.changeRat
    ensures Led(n, run', r) && r.state == IdleMode && r.urcs == ALL_URCS
  {
    var s := LoopStep(NoState, i);
    r := Next(m, s);
    QuietTurn(m, NoState, i);
    LeadOn(n, run, m, s, r);
    run' := run + [s];
  }

  lemma {:induction false} EntersMode(n: Net, run: seq<Step>, m: Net, mode: State, i: Inputs)
      returns (run': seq<Step>, r: Net)
    requires Led(n, run, m) && Tame(i) && m.state == IdleMode && Special(mode)
    ensures run <= run'
    ensures Led(n, run', r) && r.state == mode && Muted(r.urcs)
  {
    var s := GoToStep(mode, i);
    r := Next(m, s);
    QuietTurn(Kick(m, mode), mode, i);
    LeadOn(n, run, m, s, r);
    run' := run + [s];
  }

  /** What takes the machine out: a missing answer in transparent mode, a position in GNSS mode. */
  predicate TakesOut(i: Inputs, mode: State) {
    if mode == TransparentMode then i.lastTimedOut && i.urcOk
    else i.urcs == [GnssReport] && i.gnssFix && !i.lastTimedOut && i.urcOk
  }

  lemma {:induction false} LateAnswer(m: Net, i: Inputs)
    requires m.state == TransparentMode && m.event == NoEvent && i.lastTimedOut
    ensures React(m, i) == CallAction(OnEvent(m, AtNoResponse).(event := NoEvent), CheckResponsiveness)
  {
    assert Listen(m, i) == OnEvent(m, AtNoResponse);
  }

  lemma {:induction false} PositionFound(m: Net, i: Inputs)
    requires m.state == GnssFixMode && TakesOut(i, GnssFixMode)
    ensures React(m, i) == CallAction(OnEvent(m, GpsAvailable).(event := NoEvent), LeaveGnssFix)
  {
    var u := OnEvent(m, GpsAvailable);
    assert HandleUrcs(m, [GnssReport]) == u by { assert HandleUrcs(u, [GnssReport][1..]) == u; }
    assert Listen(m, i) == u;
  }

  /** The machine after a turn that takes it out. */
  ghost predicate Out(m: Net, r: Net) {
    && |r.links.servers| == MAX_CONNECTIONS && r.event == NoEvent
    && r.state == IdleMode && r.urcs == m.urcs && r.action == QueryNetworkStatus
  }

  lemma {:induction false} LateAnswerTakesOut(m: Net, i: Inputs)
    requires |m.links.servers| == MAX_CONNECTIONS && m.event == NoEvent
    requires m.state == TransparentMode && TakesOut(i, TransparentMode)
    ensures Out(m, Next(m, LoopStep(NoState, i)))
  {
    LateAnswer(m, i);
  }

  lemma {:induction false} PositionTakesOut(m: Net, i: Inputs)
    requires |m.links.servers| == MAX_CONNECTIONS && m.event == NoEvent
    requires m.state == GnssFixMode && TakesOut(i, GnssFixMode)
    ensures Out(m, Next(m, LoopStep(NoState, i)))
  {
    PositionFound(m, i);
  }

  lemma {:induction false} TakenOut(m: Net, i: Inputs) returns (r: Net)
    requires |m.links.servers| == MAX_CONNECTIONS && m.event == NoEvent && Special(m.state) && TakesOut(i, m.state)
    ensures r == Next(m, LoopStep(NoState, i)) && Out(m, r)
  {
    if m.state == TransparentMode { LateAnswerTakesOut(m, i); } else { PositionTakesOut(m, i); }
    r := Next(m, LoopStep(NoState, i));
  }

  lemma {:induction false} GoesOut(n: Net, run: seq<Step>, m: Net, i: Inputs) returns (run': seq<Step>, r: Net)
    requires Led(n, run, m) && Special(m.state) && Muted(m.urcs) && TakesOut(i, m.state)
    ensures run <= run'
    ensures Led(n, run', r) && r.state == IdleMode && Muted(r.urcs) && r.action == QueryNetworkStatus
  {
    var s := LoopStep(NoState, i);
    r := TakenOut(m, i);
    LeadOn(n, run, m, s, r);
    run' := run + [s];
  }

  lemma {:induction false} ComesBack(n: Net, run: seq<Step>, m: Net, i: Inputs) returns (run': seq<Step>, r: Net)
    requires Led(n, run, m) && Tame(i) && m.state == IdleMode && Muted(m.urcs)
    requires m.action == QueryNetworkStatus || m.action == QueryPdpContext
    ensures run <= run'
    ensures Led(n, run', r) && Muted(r.urcs)
    ensures m.action == QueryNetworkStatus ==> r.state == IdleMode && r.action == QueryPdpContext
    ensures m.action == QueryPdpContext ==> r.state == DataReady
  {
    var s := LoopStep(NoState, i);
    r := Next(m, s);
    QuietTurn(m, NoState, i);
    LeadOn(n, run, m, s, r);
    run' := run + [s];
  }

  /**
   From the start, for either mode: a run on which the modem takes all URC commands, turns all reports on, enters the
   mode, is taken out of it by a missing answer or a position, and ends in data_ready with the reports off.
   */
  lemma {:induction false} DataReadyWithReportsOff(config: Config, mode: State, i: Inputs, out: Inputs)
      returns (before: seq<Step>, run: seq<Step>)
    requires Special(mode) && Tame(i) && TakesOut(out, mode)
    ensures before <= run && forall k :: 0 <= k < |run| ==> UrcCommandsTaken(run[k])
    ensures After(Initial(config), before).urcs == ALL_URCS
    ensures var n := After(Initial(config), run); n.state == DataReady && Muted(n.urcs)
  {
    var n := Initial(config);
    var r1, n1 := PowersOn(n, [], n, i);
    var r2, n2 := Configures(n, r1, n1, i);
    before := r2;
    var r3, n3 := EntersMode(n, r2, n2, mode, i);
    var r4, n4 := GoesOut(n, r3, n3, out);
    var r5, n5 := ComesBack(n, r4, n4, i);
    var r6, n6 := ComesBack(n, r5, n5, i);
    run := r6;
  }
}
