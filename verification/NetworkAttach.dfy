/** Attach attempts: how many there can be between two registrations, on every run. */
module NetworkAttachLaw {
  import opened MessageQueues
  import opened NetworkModel
  import opened NetworkInvariants
  import opened NetworkReach

  /** The bound the configuration asks for: the first attempt is always made. */
  function Bound(config: Config): (b: nat)
    ensures 1 <= b < U8
  {
    if config.maxAttachRetries == 0 then 1 else config.maxAttachRetries
  }

  /** Attempts among the first k increments of an 8-bit retry counter. */
  function AttemptsAfter(k: nat, bound: nat): nat {
    if k == 0 then 0 else AttemptsAfter(k - 1, bound) + if (k - 1) % U8 < bound then 1 else 0
  }

  ghost predicate AttachLaw(r: Retries, bound: nat) {
    r.counter == r.increments % U8 && r.attempts == AttemptsAfter(r.increments, bound)
  }

  lemma NextByte(k: nat)
    ensures (k + 1) % 256 == (k % 256 + 1) % 256
  {
  }

  lemma {:induction false} IncrementKeepsLaw(r: Retries, bound: nat)
    requires AttachLaw(r, bound)
    ensures r.counter < bound ==> AttachLaw(Increment(r.(attempts := r.attempts + 1)), bound)
    ensures r.counter >= bound ==> AttachLaw(Increment(r), bound)
  {
    var k := r.increments;
    NextByte(k);
    assert AttemptsAfter(k + 1, bound) == AttemptsAfter(k, bound) + if k % U8 < bound then 1 else 0;
  }

  lemma {:induction false} PerformKeepsLaw(n: Net, a: Action, i: Inputs)
    requires AttachLaw(n.retries, Bound(n.config))
    ensures AttachLaw(Perform(n, a, i).retries, Bound(n.config)) && Perform(n, a, i).config == n.config
  {
    IncrementKeepsLaw(n.retries, Bound(n.config));
  }

  lemma {:induction false} HandleEventKeepsRetries(n: Net, e: Event, i: Inputs)
    ensures HandleEvent(n, e, i).retries == n.retries && HandleEvent(n, e, i).config == n.config
  {
  }

  lemma {:induction false} UrcsKeepLaw(n: Net, us: seq<Urc>)
    requires AttachLaw(n.retries, Bound(n.config))
    ensures AttachLaw(HandleUrcs(n, us).retries, Bound(n.config)) && HandleUrcs(n, us).config == n.config
    decreases |us|
  {
    if us != [] { UrcsKeepLaw(HandleUrc(n, us[0]), us[1..]); }
  }

  lemma {:induction false} LoopKeepsLaw(n: Net, target: State, i: Inputs)
    requires AttachLaw(n.retries, Bound(n.config))
    ensures AttachLaw(Loop(n, target, i).retries, Bound(n.config)) && Loop(n, target, i).config == n.config
  {
    UrcsKeepLaw(n, i.urcs);
    var n1 := Listen(n, i);
    HandleEventKeepsRetries(n1.(event := NoEvent), n1.event, i);
    var n2 := React(n, i);
    PerformKeepsLaw(n2.(action := NoAction), n2.action, i);
  }

  lemma {:induction false} NextKeepsLaw(n: Net, s: Step)
    requires Core(n) && !s.SetConfig? && AttachLaw(n.retries, Bound(n.config))
    ensures AttachLaw(Next(n, s).retries, Bound(n.config)) && Next(n, s).config == n.config
  {
    if Minor(s) {
      MinorSteps(n, s);
      return;
    }
    match s
    case LoopStep(target, i) => LoopKeepsLaw(n, target, i);
    case GoToStep(target, i) => LoopKeepsLaw(Kick(n, target), target, i);
    case QuitTransparent(i) =>
      PerformKeepsLaw(CallAction(n, LeaveTransparent).(action := NoAction), LeaveTransparent, i);
    case _ =>
  }

  lemma {:induction false} RunKeepsLaw(n: Net, run: seq<Step>)
    requires Core(n) && AttachLaw(n.retries, Bound(n.config))
    requires forall k :: 0 <= k < |run| ==> !run[k].SetConfig?
    ensures AttachLaw(After(n, run).retries, Bound(n.config)) && After(n, run).config == n.config
    decreases |run|
  {
    if run != [] {
      NextKeepsLaw(n, run[0]);
      NextKeepsCore(n, run[0]);
      RunKeepsLaw(Next(n, run[0]), run[1..]);
    }
  }

  /** In closed form: a full set of attempts for every 256 increments, then one per increment up to the bound. */
  lemma {:induction false} AttemptsClosedForm(k: nat, bound: nat)
    requires 1 <= bound < U8
    ensures AttemptsAfter(k, bound) == (k / U8) * bound + (if k % U8 < bound then k % U8 else bound)
  {
    if k > 0 {
      AttemptsClosedForm(k - 1, bound);
      if k % U8 == 0 {
        assert (k - 1) / U8 == k / U8 - 1 && (k - 1) % U8 == U8 - 1;
        assert (k / U8) * bound == (k / U8 - 1) * bound + bound;
      } else {
        assert (k - 1) / U8 == k / U8 && (k - 1) % U8 == k % U8 - 1;
      }
    }
  }

  lemma {:induction false} BoundHoldsIff(k: nat, bound: nat)
    requires 1 <= bound < U8
    ensures AttemptsAfter(k, bound) <= bound <==> k <= U8
  {
    AttemptsClosedForm(k, bound);
    var q := k / U8;
    if q == 0 {
      assert 0 * bound == 0;
    } else if q == 1 {
      assert 1 * bound == bound;
    } else {
      assert q * bound >= 2 * bound;
    }
  }

  /**
   With a fixed configuration, on every run: the attach attempts made since the last registration stay within the
   configured bound if and only if the 8-bit retry counter has been incremented at most 256 times since then.
   Detours through a reboot are part of the runs; they do not count.
   */
  lemma {:induction false} AttemptsAreBounded(config: Config, run: seq<Step>)
    requires forall k :: 0 <= k < |run| ==> !run[k].SetConfig?
    ensures var r := After(Initial(config), run).retries;
            && r.attempts == (r.increments / U8) * Bound(config)
                             + (if r.increments % U8 < Bound(config) then r.increments % U8 else Bound(config))
            && (r.attempts <= Bound(config) <==> r.increments <= U8)
  {
    RunKeepsLaw(Initial(config), run);
    var r := After(Initial(config), run).retries;
    AttemptsClosedForm(r.increments, Bound(config));
    BoundHoldsIff(r.increments, Bound(config));
  }

  // ---------------------------------------------------------------------------
  // The history fields are what the run itself says
  // ---------------------------------------------------------------------------

  /** The step hears that the modem is registered, at home or roaming. */
  predicate HearsRegistration(n: Net, s: Step) {
    match s
    case LoopStep(_, i) => n.state != TransparentMode && Registers(i.urcs)
    case GoToStep(target, i) => GoesOn(n, target) && n.state != TransparentMode && Registers(i.urcs)
    case _ => false
  }

  /** The step executes attach_network and does not take the detour through the radio setup. */
  predicate Tries(n: Net, s: Step) { Executed(n, s) == AttachNetwork && Next(n, s).action != SetupRadio }

  /** It does start attaching: it does not give up. */
  predicate Attempts(n: Net, s: Step) { Tries(n, s) && Next(n, s).event != AttachError }

  /** Tries and attempts of a run since its last step that heard a registration. */
  ghost function TriesSince(n: Net, run: seq<Step>): nat {
    if run == [] then 0
    else
      var before, s := run[..|run| - 1], run[|run| - 1];
      var m := After(n, before);
      (if HearsRegistration(m, s) then 0 else TriesSince(n, before)) + if Tries(m, s) then 1 else 0
  }

  ghost function AttemptsSince(n: Net, run: seq<Step>): nat {
    if run == [] then 0
    else
      var before, s := run[..|run| - 1], run[|run| - 1];
      var m := After(n, before);
      (if HearsRegistration(m, s) then 0 else AttemptsSince(n, before)) + if Attempts(m, s) then 1 else 0
  }

  /** What executing an action does to the retries, seen from outside. */
  lemma {:induction false} PerformRetries(n: Net, a: Action, i: Inputs)
    requires n.action == NoAction && n.event == NoEvent
    ensures var r := Perform(n, a, i);
            if a == AttachNetwork && r.action != SetupRadio
            then r.retries.increments == n.retries.increments + 1
                 && r.retries.attempts == n.retries.attempts + (if r.event != AttachError then 1 else 0)
            else r.retries == n.retries
  {
  }

  lemma {:induction false} EventKeepsNoEvent(n: Net, e: Event, i: Inputs)
    requires n.event == NoEvent
    ensures HandleEvent(n, e, i).event == NoEvent
  {
  }

  lemma {:induction false} TurnRetries(n: Net, target: State, i: Inputs)
    ensures var r := Loop(n, target, i);
            var base := if n.state != TransparentMode && Registers(i.urcs) then Retries(0, 0, 0) else n.retries;
            var tries := ExecutedInTurn(n, target, i) == AttachNetwork && r.action != SetupRadio;
            && r.retries.increments == base.increments + (if tries then 1 else 0)
            && r.retries.attempts == base.attempts + (if tries && r.event != AttachError then 1 else 0)
  {
    UrcsFold(n, i.urcs);
    var n1 := Listen(n, i);
    HandleEventKeepsRetries(n1.(event := NoEvent), n1.event, i);
    EventKeepsNoEvent(n1.(event := NoEvent), n1.event, i);
    var n2 := React(n, i);
    PerformRetries(n2.(action := NoAction), n2.action, i);
  }

  lemma {:induction false} StepRetries(n: Net, s: Step)
    requires |n.links.servers| == MAX_CONNECTIONS
    ensures var r := Next(n, s).retries;
            var base := if HearsRegistration(n, s) then Retries(0, 0, 0) else n.retries;
            && r.increments == base.increments + (if Tries(n, s) then 1 else 0)
            && r.attempts == base.attempts + (if Attempts(n, s) then 1 else 0)
  {
    if Minor(s) {
      MinorSteps(n, s);
    } else if s.LoopStep? {
      TurnRetries(n, s.target, s.i);
    } else if s.GoToStep? {
      TurnRetries(Kick(n, s.target), s.target, s.i);
    } else {
      CallRetries(n, s);
    }
  }

  lemma {:induction false} CallRetries(n: Net, s: Step)
    requires !s.LoopStep? && !s.GoToStep?
    ensures Next(n, s).retries == n.retries && !Tries(n, s)
  {
    if s.QuitTransparent? && n.state == TransparentMode {
      PerformRetries(CallAction(n, LeaveTransparent).(action := NoAction).(event := NoEvent), LeaveTransparent, s.i);
    }
  }

  /** On every run the two history fields are the counts of the run since its last registration. */
  lemma {:induction false} HistoryIsTheRun(config: Config, run: seq<Step>)
    ensures var r := After(Initial(config), run).retries;
            r.increments == TriesSince(Initial(config), run) && r.attempts == AttemptsSince(Initial(config), run)
    decreases |run|
  {
    if run != [] {
      var before, s := run[..|run| - 1], run[|run| - 1];
      assert run == before + [s];
      HistoryIsTheRun(config, before);
      RunKeepsCore(Initial(config), before);
      var m := After(Initial(config), before);
      AfterConcat(Initial(config), before, [s]);
      After1(m, s);
      StepRetries(m, s);
    }
  }

  /**
   The bound, on the run itself: since the last step that heard a registration, the attach attempts are within
   `max(1, max_attach_retries)` if and only if there were at most 256 tries.
   */
  lemma {:induction false} AttemptsSinceRegistration(config: Config, run: seq<Step>)
    requires forall k :: 0 <= k < |run| ==> !run[k].SetConfig?
    ensures AttemptsSince(Initial(config), run) <= (if config.maxAttachRetries == 0 then 1 else config.maxAttachRetries)
            <==> TriesSince(Initial(config), run) <= 256
    ensures After(Initial(config), run).retries.counter == TriesSince(Initial(config), run) % 256
  {
    HistoryIsTheRun(config, run);
    AttemptsAreBounded(config, run);
    RunKeepsLaw(Initial(config), run);
  }

  /** After a registration the next attach is an attempt again, whatever the retries were before. */
  lemma {:induction false} RegistrationStartsOver(n: Net, us: seq<Urc>)
    requires RegistrationUrc(1) in us || RegistrationUrc(5) in us
    ensures HandleUrcs(n, us).retries.counter == 0 && MayAttach(HandleUrcs(n, us))
  {
    UrcsFold(n, us);
  }

  // ---------------------------------------------------------------------------
  // The counter does wrap
  // ---------------------------------------------------------------------------

  /** Nothing is heard from the modem, and it does not tell its settings. */
  predicate Mute(i: Inputs) { i.urcs == [] && !i.lastTimedOut && i.getTech == ReplyError && i.getBands == ReplyError }

  predicate Retrying(n: Net) {
    && |n.links.servers| == MAX_CONNECTIONS && n.state in {SwitchedOff, Done, NetworkAttaching}
    && !n.boot.changeBands && !n.boot.changeRat
  }

  lemma {:induction false} TimeoutQueuesAttach(n: Net, i: Inputs)
    requires Retrying(n) && Mute(i)
    ensures var r := React(OnEvent(n, TimeoutEvent), i);
            r.action == AttachNetwork && r.state == Done && r.retries == n.retries && r.boot == n.boot
            && |r.links.servers| == MAX_CONNECTIONS
  {
    var n1 := OnEvent(n, TimeoutEvent);
    assert Listen(n1, i) == n1;
    assert React(n1, i) == OnTimeout(n1.(event := NoEvent), i.eventClock);
  }

  lemma {:induction false} MuteAttach(n: Net, i: Inputs)
    requires Mute(i)
    requires |n.links.servers| == MAX_CONNECTIONS && n.state == Done && !n.boot.changeBands && !n.boot.changeRat
    ensures Retrying(DoAttach(n, i)) && DoAttach(n, i).retries.increments == n.retries.increments + 1
  {
    assert Compare(n, i) == n.boot;
  }

  lemma {:induction false} LoopAttaches(n: Net, i: Inputs)
    requires React(n, i).action == AttachNetwork
    ensures Loop(n, NoState, i) == DoAttach(React(n, i).(action := NoAction), i)
  {
  }

  /** Each expiry of the user's timer makes the next loop step retry. */
  lemma {:induction false} RetryIncrements(n: Net, i: Inputs)
    requires Retrying(n) && Mute(i)
    ensures var r := After(n, [UserTimerExpires, LoopStep(NoState, i)]);
            Retrying(r) && r.retries.increments == n.retries.increments + 1
  {
    var n1 := OnEvent(n, TimeoutEvent);
    assert Next(n, UserTimerExpires) == n1;
    TimeoutQueuesAttach(n, i);
    LoopAttaches(n1, i);
    MuteAttach(React(n1, i).(action := NoAction), i);
    After2(n, UserTimerExpires, LoopStep(NoState, i));
  }

  lemma {:induction false} AnyNumberOfIncrements(config: Config, i: Inputs, k: nat) returns (run: seq<Step>)
    requires Mute(i)
    ensures forall j :: 0 <= j < |run| ==> !run[j].SetConfig?
    ensures Retrying(After(Initial(config), run)) && After(Initial(config), run).retries.increments == k
  {
    if k == 0 {
      run := [];
    } else {
      var before := AnyNumberOfIncrements(config, i, k - 1);
      var retry := [UserTimerExpires, LoopStep(NoState, i)];
      run := before + retry;
      AfterConcat(Initial(config), before, retry);
      RetryIncrements(After(Initial(config), before), i);
    }
  }

  /** Whatever the configuration, with a mute modem some run exceeds the bound: the condition is needed. */
  lemma {:induction false} BoundIsExceeded(config: Config, i: Inputs) returns (run: seq<Step>)
    requires Mute(i)
    ensures forall j :: 0 <= j < |run| ==> !run[j].SetConfig?
    ensures After(Initial(config), run).retries.attempts > Bound(config)
  {
    run := AnyNumberOfIncrements(config, i, U8 + 1);
    AttemptsAreBounded(config, run);
  }
}
