/**
 Progress towards attaching, with a faithful modem: every command succeeds, new bands and technology apply at the next
 reboot, the modem is not registered and nothing else happens.
 */
module NetworkProgress {
  import opened MessageQueues
  import opened NetworkModel
  import opened NetworkReach

  /** Technology and bands in force, and those that the next reboot will bring. */
  datatype Modem = Modem(tech: RadioTech, bands: nat, nextTech: RadioTech, nextBands: nat)

  predicate Supported(t: RadioTech) { t == CatM1 || t == NbIot }

  /** The answers of a faithful modem during one step. */
  function Answers(m: Modem, at: Clock): Inputs {
    Inputs([], false, at, at, false, ReplyOk, ReplyOk, ReplyOk, ReplyOk, ReplyOk, NotRegistered,
           ReplyOk, m.tech, ReplyOk, m.bands, ReplyOk, false, ReplyOk, false, "", ReplyOk,
           false, ReplyOk, true)
  }

  /** What the action executed in this step does to the modem. */
  function Obey(m: Modem, n: Net): Modem {
    match n.action
    case SetupRadio =>
      m.(nextBands := if n.boot.changeBands then WantedBands(n) else m.nextBands,
         nextTech := if n.boot.changeRat && Supported(WantedTech(n)) then WantedTech(n) else m.nextTech)
    case Reboot => m.(tech := m.nextTech, bands := m.nextBands)
    case _ => m
  }

  datatype Joint = Joint(net: Net, modem: Modem, reboots: nat)

  function StepJoint(j: Joint, at: Clock): Joint {
    Joint(Loop(j.net, NoState, Answers(j.modem, at)), Obey(j.modem, j.net),
          j.reboots + if j.net.action == Reboot then 1 else 0)
  }

  function Drive(j: Joint, clocks: seq<Clock>): Joint
    decreases |clocks|
  {
    if clocks == [] then j else Drive(StepJoint(j, clocks[0]), clocks[1..])
  }

  // ---------------------------------------------------------------------------
  // Seven phases
  // ---------------------------------------------------------------------------

  predicate Flagged(n: Net) { n.boot.changeBands || n.boot.changeRat }

  predicate Matches(n: Net, m: Modem) { m.tech == WantedTech(n) && m.bands == WantedBands(n) }

  predicate Settled(m: Modem) { m.nextTech == m.tech && m.nextBands == m.bands }

  /** The phase with k steps to go. */
  ghost predicate Phase(n: Net, m: Modem, k: nat) {
    && n.event == NoEvent && MayAttach(n)
    && (match k
        case 1 => n.state != NetworkAttaching && n.action == AttachNetwork && Matches(n, m) && !Flagged(n)
        case 2 => n.state == IdleMode && n.action == QueryNetworkStatus && Matches(n, m) && !Flagged(n)
        case 3 => n.state == IdleMode && n.action == SetupRadio && Matches(n, m) && !Flagged(n)
        case 4 => n.state == Rebooting && n.action == PowerOn && Matches(n, m) && !Flagged(n)
        case 5 =>
          && n.state == NetworkDetached && n.action == Reboot && !Flagged(n)
          && m.nextTech == WantedTech(n) && m.nextBands == WantedBands(n)
        case 6 =>
          && n.state == NetworkDetached && n.action == SetupRadio && Settled(m)
          && (n.boot.changeBands || (n.boot.changeRat && Supported(WantedTech(n))))
          && ((n.boot.changeRat && Supported(WantedTech(n))) || m.tech == WantedTech(n))
          && (n.boot.changeBands || m.bands == WantedBands(n))
        case 7 =>
          && n.state == NetworkDetached && n.action == AttachNetwork && Settled(m) && (Flagged(n) || !Matches(n, m))
          && CanAttach(n, m)
        case _ => false)
  }

  /**
   What decides: the wanted technology can be set, or it is in force already and either nothing asks for setting it or
   the bands are to be set too, which brings the reboot.
   */
  predicate CanAttach(n: Net, m: Modem) {
    || Supported(WantedTech(n))
    || (m.tech == WantedTech(n) && (!n.boot.changeRat || n.boot.changeBands || m.bands != WantedBands(n)))
  }

  /** Nothing to hear and nothing to react to: the step is the pending action and nothing else. */
  lemma {:induction false} LoopIsAction(n: Net, m: Modem, at: Clock)
    requires n.event == NoEvent
    ensures Loop(n, NoState, Answers(m, at)) == Perform(n.(action := NoAction), n.action, Answers(m, at))
  {
    var i := Answers(m, at);
    assert HandleUrcs(n, i.urcs) == n;
    assert Listen(n, i) == n;
    assert React(n, i) == n;
  }

  /** Each phase leads to the one below it; the last one attaches.  Only phase 5 reboots. */
  lemma {:induction false} PhaseDescends(j: Joint, k: nat, at: Clock)
    requires 1 < k && Phase(j.net, j.modem, k)
    ensures Phase(StepJoint(j, at).net, StepJoint(j, at).modem, k - 1)
    ensures StepJoint(j, at).reboots == j.reboots + if k == 5 then 1 else 0
    ensures WantedTech(StepJoint(j, at).net) == WantedTech(j.net)
    ensures WantedBands(StepJoint(j, at).net) == WantedBands(j.net)
  {
    LoopIsAction(j.net, j.modem, at);
  }

  lemma {:induction false} LastPhaseAttaches(j: Joint, at: Clock)
    requires Phase(j.net, j.modem, 1)
    ensures StepJoint(j, at).net.state == NetworkAttaching && StepJoint(j, at).reboots == j.reboots
    ensures StepJoint(j, at).modem == j.modem
  {
    LoopIsAction(j.net, j.modem, at);
  }

  /** From phase k, exactly k steps lead to network_attaching, with a reboot exactly when phase 5 is still ahead. */
  lemma {:induction false} PhaseReaches(j: Joint, k: nat, clocks: seq<Clock>)
    requires Phase(j.net, j.modem, k) && |clocks| == k
    ensures Drive(j, clocks).net.state == NetworkAttaching
    ensures Drive(j, clocks).reboots == j.reboots + if k >= 5 then 1 else 0
    ensures Drive(j, clocks).modem.tech == WantedTech(j.net) && Drive(j, clocks).modem.bands == WantedBands(j.net)
    decreases k
  {
    if k == 1 {
      LastPhaseAttaches(j, clocks[0]);
      assert Drive(j, clocks) == Drive(StepJoint(j, clocks[0]), clocks[1..]);
      assert clocks[1..] == [];
    } else {
      PhaseDescends(j, k, clocks[0]);
      PhaseReaches(StepJoint(j, clocks[0]), k - 1, clocks[1..]);
    }
  }

  /** Where `network_detached` leaves the machine: an attach is pending, no event is. */
  ghost predicate AttachPending(j: Joint) {
    && j.net.state == NetworkDetached && j.net.action == AttachNetwork && j.net.event == NoEvent
    && MayAttach(j.net) && Settled(j.modem)
  }

  // ---------------------------------------------------------------------------
  // A technology the modem cannot be set to
  // ---------------------------------------------------------------------------

  /** The wanted technology can neither be set nor is it coming, so the machine never gets past the comparison. */
  ghost predicate Futile(j: Joint) {
    && j.net.event == NoEvent && MayAttach(j.net) && !Supported(WantedTech(j.net)) && j.net.state != NetworkAttaching
    && j.modem.tech != WantedTech(j.net) && j.modem.nextTech != WantedTech(j.net)
    && j.net.action in {NoAction, AttachNetwork, SetupRadio, Reboot, PowerOn, QueryNetworkStatus}
  }

  lemma {:induction false} FutileStays(j: Joint, at: Clock)
    requires Futile(j)
    ensures Futile(StepJoint(j, at))
  {
    LoopIsAction(j.net, j.modem, at);
  }

  lemma {:induction false} FutileForever(j: Joint, clocks: seq<Clock>)
    requires Futile(j)
    ensures Drive(j, clocks).net.state != NetworkAttaching
    decreases |clocks|
  {
    if clocks != [] {
      FutileStays(j, clocks[0]);
      FutileForever(StepJoint(j, clocks[0]), clocks[1..]);
    }
  }

  // ---------------------------------------------------------------------------
  // A machine with nothing left to do
  // ---------------------------------------------------------------------------

  /** No event, and either no action or one that leads nowhere in this state. */
  ghost predicate Stranded(n: Net) {
    && n.event == NoEvent && n.state != NetworkAttaching && n.state != DataReady
    && (n.action == NoAction || n.action == SendData)
  }

  lemma {:induction false} StrandedStays(j: Joint, at: Clock)
    requires Stranded(j.net)
    ensures Stranded(StepJoint(j, at).net)
  {
    LoopIsAction(j.net, j.modem, at);
  }

  lemma {:induction false} StrandedForever(j: Joint, clocks: seq<Clock>)
    requires Stranded(j.net)
    ensures Drive(j, clocks).net.state != NetworkAttaching
    decreases |clocks|
  {
    if clocks != [] {
      StrandedStays(j, clocks[0]);
      StrandedForever(StepJoint(j, clocks[0]), clocks[1..]);
    }
  }

  lemma {:induction false} ComparedInVain(j: Joint, at: Clock) returns (r: Joint)
    requires AttachPending(j) && !CanAttach(j.net, j.modem) && j.modem.tech == WantedTech(j.net)
    ensures r == StepJoint(j, at)
    ensures r.net.state == NetworkDetached && r.net.action == SetupRadio && r.net.event == NoEvent
    ensures !Supported(WantedTech(r.net)) && r.net.boot.changeRat && !r.net.boot.changeBands
  {
    LoopIsAction(j.net, j.modem, at);
    r := StepJoint(j, at);
  }

  lemma {:induction false} SetInVain(j: Joint, at: Clock) returns (r: Joint)
    requires j.net.state == NetworkDetached && j.net.action == SetupRadio && j.net.event == NoEvent
    requires !Supported(WantedTech(j.net)) && j.net.boot.changeRat && !j.net.boot.changeBands
    ensures r == StepJoint(j, at) && Stranded(r.net)
  {
    LoopIsAction(j.net, j.modem, at);
    r := StepJoint(j, at);
  }

  /** The technology is in force but asked for again, and nothing else is: setting it fails, and no action is queued. */
  lemma {:induction false} RefusalStrands(j: Joint, clocks: seq<Clock>)
    requires AttachPending(j) && !CanAttach(j.net, j.modem) && j.modem.tech == WantedTech(j.net)
    ensures Drive(j, clocks).net.state != NetworkAttaching
  {
    if |clocks| > 0 {
      var j1 := ComparedInVain(j, clocks[0]);
      var more := clocks[1..];
      if more != [] {
        var j2 := SetInVain(j1, more[0]);
        StrandedForever(j2, more[1..]);
      }
    }
  }

  /**
   Exactly when attaching starts, with a faithful modem and whatever the clock readings: under `CanAttach` in at most
   seven steps and with at most one reboot, otherwise never.
   */
  lemma {:induction false} AttachesIff(j: Joint, clocks: seq<Clock>)
    requires AttachPending(j) && |clocks| == 7
    ensures CanAttach(j.net, j.modem) ==>
              AttachesWith(j, clocks, WantedTech(j.net), WantedBands(j.net))
    ensures !CanAttach(j.net, j.modem) ==>
              forall more: seq<Clock> :: Drive(j, more).net.state != NetworkAttaching
  {
    if CanAttach(j.net, j.modem) {
      var k := if Matches(j.net, j.modem) && !Flagged(j.net) then 1 else 7;
      PhaseReaches(j, k, clocks[..k]);
      assert AttachedWith(j, Drive(j, clocks[..k]), WantedTech(j.net), WantedBands(j.net));
    } else {
      forall more: seq<Clock> ensures Drive(j, more).net.state != NetworkAttaching {
        if j.modem.tech == WantedTech(j.net) { RefusalStrands(j, more); } else { FutileForever(j, more); }
      }
    }
  }

  /** The machine attaches with this technology and these bands in force, at most seven steps and one reboot later. */
  ghost predicate AttachesWith(j: Joint, clocks: seq<Clock>, tech: RadioTech, bands: nat) {
    exists k :: k in {1, 7} && k <= |clocks| && AttachedWith(j, Drive(j, clocks[..k]), tech, bands)
  }

  predicate AttachedWith(j: Joint, d: Joint, tech: RadioTech, bands: nat) {
    d.net.state == NetworkAttaching && d.reboots <= j.reboots + 1 && d.modem.tech == tech && d.modem.bands == bands
  }

  /** The first attempt, in the fields of the configuration: it uses the default technology and bands. */
  lemma {:induction false} FirstAttachIff(j: Joint, clocks: seq<Clock>)
    requires AttachPending(j) && j.net.retries.counter == 0 && |clocks| == 7
    ensures var c, m, b := j.net.config, j.modem, j.net.boot;
            if c.defaultTech in {CatM1, NbIot}
               || (m.tech == c.defaultTech && (!b.changeRat || b.changeBands || m.bands != c.defaultBands))
            then AttachesWith(j, clocks, c.defaultTech, c.defaultBands)
            else forall more: seq<Clock> :: Drive(j, more).net.state != NetworkAttaching
  {
    AttachesIff(j, clocks);
  }

  /** Every later attempt uses the fallback technology and bands, as long as the limit is not reached. */
  lemma {:induction false} RetryAttachIff(j: Joint, clocks: seq<Clock>)
    requires j.net.state == NetworkDetached && j.net.action == AttachNetwork && j.net.event == NoEvent
    requires 0 < j.net.retries.counter < j.net.config.maxAttachRetries && Settled(j.modem) && |clocks| == 7
    ensures var c, m, b := j.net.config, j.modem, j.net.boot;
            if c.fallbackTech in {CatM1, NbIot}
               || (m.tech == c.fallbackTech && (!b.changeRat || b.changeBands || m.bands != c.fallbackBands))
            then AttachesWith(j, clocks, c.fallbackTech, c.fallbackBands)
            else forall more: seq<Clock> :: Drive(j, more).net.state != NetworkAttaching
  {
    AttachesIff(j, clocks);
  }

  /**
   One attempt with both settings read, whatever else the modem says: it starts attaching at once if and only if both
   are the wanted ones, flags exactly the differences otherwise, and gives up at the limit.
   */
  lemma {:induction false} AttemptOutcome(n: Net, i: Inputs)
    requires n.event == NoEvent && n.action == AttachNetwork && n.state == NetworkDetached && Quiet(i)
    requires !n.boot.changeRat && !n.boot.changeBands && i.getTech == ReplyOk && i.getBands == ReplyOk
    ensures var r, c := Loop(n, NoState, i), n.config;
            var first := n.retries.counter == 0;
            var tech := if first then c.defaultTech else c.fallbackTech;
            var bands := if first then c.defaultBands else c.fallbackBands;
            if !first && n.retries.counter >= c.maxAttachRetries
            then r.state == NetworkDetached && r.event == AttachError && r.action == NoAction
            else
              && (r.state == NetworkAttaching <==> i.tech == tech && i.bands == bands)
              && (r.state != NetworkAttaching ==> r.state == NetworkDetached && r.action == SetupRadio)
              && r.boot.changeRat == (i.tech != tech) && r.boot.changeBands == (i.bands != bands)
  {
    assert HandleUrcs(n, i.urcs) == n;
    assert Listen(n, i) == n && React(n, i) == n;
  }

  /**
   One call leads from the start to a pending attach, so with an unsupported technology in the configuration it is in
   vain.
   */
  lemma {:induction false} UnsupportedNeverAttaches(config: Config, at: Clock, m: Modem, clocks: seq<Clock>)
    requires Settled(m) && !Supported(config.defaultTech) && m.tech != config.defaultTech
    ensures var j := Joint(Next(Initial(config), DisconnectNetwork(ReplyOk, at)), m, 0);
            AttachPending(j) && Drive(j, clocks).net.state != NetworkAttaching
  {
    var n := Detached(config, at);
    FutileForever(Joint(n, m, 0), clocks);
  }

  lemma {:induction false} Detached(config: Config, at: Clock) returns (n: Net)
    ensures n == Next(Initial(config), DisconnectNetwork(ReplyOk, at))
    ensures n.state == NetworkDetached && n.action == AttachNetwork && n.event == NoEvent && n.config == config
    ensures n.retries.counter == 0 && !Flagged(n)
  {
    n := Next(Initial(config), DisconnectNetwork(ReplyOk, at));
  }

  // ---------------------------------------------------------------------------
  // The single action slot
  // ---------------------------------------------------------------------------

  /** A send request while an attach is pending overwrites it, and the machine never attaches. */
  lemma {:induction false} SendRequestStrands(j: Joint, clocks: seq<Clock>)
    requires AttachPending(j) && |j.net.links.servers| == MAX_CONNECTIONS
    ensures Drive(j.(net := Next(j.net, RequestSend)), clocks).net.state != NetworkAttaching
  {
    var n := CallAction(j.net, SendData);
    assert Next(j.net, RequestSend) == n;
    StrandedForever(j.(net := n), clocks);
  }

  /** Exactly which calls between two turns of the loop lose a pending action. */
  lemma {:induction false} CallLosesActionIff(n: Net, s: Step)
    requires n.action != NoAction && |n.links.servers| == MAX_CONNECTIONS && !s.LoopStep? && !s.GoToStep?
    ensures Next(n, s).action != n.action <==>
              || (s.RequestSend? && n.action != SendData)
              || (s.QuitTransparent? && n.state == TransparentMode && n.action != QueryNetworkStatus)
              || (s.DisconnectNetwork? && s.detached == ReplyOk && n.state != NetworkDetached
                  && n.action != AttachNetwork)
  {
  }

  /**
   Exactly which turns of the loop lose a pending attach: a registration, a missing answer, or a position last of all.
   */
  lemma {:induction false} TurnLosesAttachIff(n: Net, i: Inputs)
    requires n.state == NetworkDetached && n.action == AttachNetwork && n.event == NoEvent
    ensures React(n, i).action != AttachNetwork <==>
              Registers(i.urcs) || i.lastTimedOut || (LastRaised(i.urcs, NoEvent) == GpsAvailable && i.gnssFix)
  {
    UrcsFold(n, i.urcs);
    RaisedByReports(i.urcs, NoEvent);
    var n1 := Listen(n, i);
    assert n1.event == if i.lastTimedOut then AtNoResponse else LastRaised(i.urcs, NoEvent);
  }

  lemma {:induction false} RaisedByReports(us: seq<Urc>, e: Event)
    requires e in {NoEvent, ContextClosed, DetachedEvent, ContextRejected, PsmEnter, DataAvailable, GpsAvailable}
    ensures LastRaised(us, e) in {NoEvent, ContextClosed, DetachedEvent, ContextRejected, PsmEnter, DataAvailable,
            GpsAvailable}
  {
    if us != [] { RaisedByReports(us[1..], if EventOf(us[0]) == NoEvent then e else EventOf(us[0])); }
  }
}
