/** Running several steps, and runs that lead somewhere. */
module NetworkReach {
  import opened MessageQueues
  import opened NetworkModel
  import opened NetworkInvariants

  lemma {:induction false} After1(n: Net, a: Step)
    ensures After(n, [a]) == Next(n, a)
  {
    assert [a][1..] == [];
  }

  lemma {:induction false} After2(n: Net, a: Step, b: Step)
    ensures After(n, [a, b]) == Next(Next(n, a), b)
  {
    assert [a, b][1..] == [b] && [b][1..] == [];
    assert After(Next(n, a), [b]) == Next(Next(n, a), b);
  }

  lemma {:induction false} AfterConcat(n: Net, a: seq<Step>, b: seq<Step>)
    ensures After(n, a + b) == After(After(n, a), b)
    decreases |a|
  {
    if a == [] {
      assert a + b == b;
    } else {
      assert (a + b)[1..] == a[1..] + b;
      AfterConcat(Next(n, a[0]), a[1..], b);
    }
  }

  /** The last event that a list of reports raises, or `e`. */
  function LastRaised(us: seq<Urc>, e: Event): Event {
    if us == [] then e else LastRaised(us[1..], if EventOf(us[0]) == NoEvent then e else EventOf(us[0]))
  }

  predicate Registers(us: seq<Urc>) { RegistrationUrc(1) in us || RegistrationUrc(5) in us }

  lemma {:induction false} UrcsFold(n: Net, us: seq<Urc>)
    ensures var r := HandleUrcs(n, us);
            && r.state == n.state && r.prev == n.prev && r.event == LastRaised(us, n.event)
            && r.action == (if Registers(us) then QueryPdpContext else n.action)
            && r.retries == (if Registers(us) then Retries(0, 0, 0) else n.retries)
    decreases |us|
  {
    if us != [] {
      var n1 := HandleUrc(n, us[0]);
      UrcsFold(n1, us[1..]);
      assert us == [us[0]] + us[1..];
    }
  }

  /** The action that a turn executes. */
  function ExecutedInTurn(n: Net, target: State, i: Inputs): Action {
    var n1 := React(n, i);
    if n1.state == target && target != NoState then NoAction else n1.action
  }

  /** The action that a step executes. */
  function Executed(n: Net, s: Step): Action {
    match s
    case LoopStep(target, i) => ExecutedInTurn(n, target, i)
    case GoToStep(target, i) => if GoesOn(n, target) then ExecutedInTurn(Kick(n, target), target, i) else NoAction
    case QuitTransparent(_) => if n.state == TransparentMode then LeaveTransparent else NoAction
    case _ => NoAction
  }

  /** The modem says nothing. */
  predicate Quiet(i: Inputs) { i.urcs == [] && !i.lastTimedOut }

  lemma {:induction false} QuietTurn(n: Net, target: State, i: Inputs)
    requires Quiet(i) && n.event == NoEvent && (n.state != target || target == NoState)
    ensures Loop(n, target, i) == Perform(n.(action := NoAction), n.action, i)
  {
    assert HandleUrcs(n, i.urcs) == n;
    assert Listen(n, i) == n && React(n, i) == n;
  }

  /** The modem reports its registration and has an active context with an address, at time 0. */
  predicate Online(i: Inputs) {
    && i.urcs == [RegistrationUrc(1)] && !i.lastTimedOut && i.actionClock == Clock(0, 0)
    && i.getPdp == ReplyOk && i.pdpActive && i.getIp == ReplyOk
  }

  lemma {:induction false} RegistrationHeard(n: Net, i: Inputs)
    requires n.state == SwitchedOff && n.event == NoEvent && Online(i)
    ensures React(n, i) == HandleUrc(n, RegistrationUrc(1))
  {
    var u := HandleUrc(n, RegistrationUrc(1));
    assert HandleUrcs(n, [RegistrationUrc(1)]) == u by { assert HandleUrcs(u, [RegistrationUrc(1)][1..]) == u; }
    assert Listen(n, i) == u;
  }

  lemma {:induction false} OnlineIsDataReady(n: Net, i: Inputs)
    requires n.state == SwitchedOff && n.event == NoEvent && |n.links.servers| == MAX_CONNECTIONS && Online(i)
    ensures var r := Next(n, LoopStep(NoState, i));
            && r.state == DataReady && |r.links.servers| == MAX_CONNECTIONS
            && r.clockwork.counters == n.clockwork.counters
            && r.clockwork.visits == n.clockwork.visits && r.clockwork.enteredAt == 0
            && CounterOf(r.clockwork, DataReady) == CounterOf(n.clockwork, DataReady)
            && r.event == NoEvent && r.traffic == n.traffic
  {
    RegistrationHeard(n, i);
    var u := React(n, i);
    assert Loop(n, NoState, i) == DoQueryPdp(u.(action := NoAction), i);
  }

  /** One step leads from the start to data_ready, entered at time 0 with nothing counted yet. */
  lemma {:induction false} DataReadyIsReachable(config: Config, i: Inputs)
    requires Online(i)
    ensures var n := Next(Initial(config), LoopStep(NoState, i));
            n.state == DataReady && n.clockwork.enteredAt == 0 && CounterOf(n.clockwork, DataReady) == 0
  {
    OnlineIsDataReady(Initial(config), i);
  }
}
