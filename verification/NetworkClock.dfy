/** The state timer and the time counters. */
module NetworkClock {
  import opened MessageQueues
  import opened NetworkModel
  import opened NetworkInvariants
  import opened NetworkReach

  function Duration(v: Visit): nat { if v.to < v.from then 0 else v.to - v.from }

  /** Total time of the completed stays in state s. */
  function Spent(visits: seq<Visit>, s: State): nat {
    if visits == [] then 0
    else
      var last := visits[|visits| - 1];
      Spent(visits[..|visits| - 1], s) + if last.state == s then Duration(last) else 0
  }

  /**
   The timer runs only in timed states and was armed when the state was entered; each counter is the time spent in its
   state over all completed stays, modulo 2^32.
   */
  ghost predicate ClockOk(c: Clockwork, state: State) {
    && (c.timer.running ==> Timed(state))
    && (Timed(state) ==> c.timer.start == c.enteredAt)
    && CountersOk(c)
  }

  /** The clockwork of r is that of n, moved on by the state change from n to r if there is one. */
  ghost predicate Moves(n: Net, r: Net, at: Clock) {
    if r.state == n.state then r.clockwork == n.clockwork
    else
      var left := LeaveTimed(n.clockwork, n.state, at.exit);
      r.clockwork == EnterTimed(left, r.state, at.enter, NotifiesIn(r.state, n.config))
  }

  lemma {:induction false} ChangeMoves(n: Net, s: State, at: Clock)
    ensures Moves(n, ChangeState(n, s, at), at)
  {
  }

  lemma {:induction false} PoweringMoves(n: Net, a: Action, i: Inputs)
    requires Powers(a)
    ensures Moves(n, Perform(n, a, i), i.actionClock)
  {
  }

  lemma {:induction false} WorkingMoves(n: Net, a: Action, i: Inputs)
    requires !Powers(a)
    ensures Moves(n, Perform(n, a, i), i.actionClock)
  {
  }

  lemma {:induction false} PerformMoves(n: Net, a: Action, i: Inputs)
    ensures Moves(n, Perform(n, a, i), i.actionClock)
  {
    if Powers(a) { PoweringMoves(n, a, i); } else { WorkingMoves(n, a, i); }
  }

  lemma {:induction false} HandleEventMoves(n: Net, e: Event, i: Inputs)
    ensures Moves(n, HandleEvent(n, e, i), i.eventClock)
  {
  }

  lemma {:induction false} UrcsDoNotMove(n: Net, us: seq<Urc>)
    ensures HandleUrcs(n, us).state == n.state && HandleUrcs(n, us).clockwork == n.clockwork
    decreases |us|
  {
    if us != [] { UrcsDoNotMove(HandleUrc(n, us[0]), us[1..]); }
  }

  lemma {:induction false} SpentPush(visits: seq<Visit>, v: Visit, s: State)
    ensures Spent(visits + [v], s) == Spent(visits, s) + if v.state == s then Duration(v) else 0
  {
    assert (visits + [v])[..|visits|] == visits;
  }

  lemma ModularSum(a: nat, d: nat)
    ensures (a % U32 + d % U32) % U32 == (a + d) % U32
  {
  }

  ghost predicate CountersOk(c: Clockwork) {
    forall s :: Timed(s) ==> CounterOf(c, s) == Spent(c.visits, s) % U32
  }

  lemma {:induction false} LeavingCounts(c: Clockwork, from: State, now: nat)
    requires Timed(from) && CounterOf(c, from) == Spent(c.visits, from) % U32 && c.timer.start == c.enteredAt
    ensures CounterOf(LeaveTimed(c, from, now), from)
         == (Spent(c.visits, from) + Duration(Visit(from, c.enteredAt, now))) % U32
  {
    var v := Visit(from, c.enteredAt, now);
    assert Elapsed(c.timer.start, now) == Duration(v) % U32;
    ModularSum(Spent(c.visits, from), Duration(v));
  }

  lemma {:induction false} LeavingSparesOthers(c: Clockwork, from: State, now: nat, s: State)
    requires Timed(from) && Timed(s) && s != from
    ensures CounterOf(LeaveTimed(c, from, now), s) == CounterOf(c, s)
  {
  }

  /** A completed stay adds its length to the counter of its state and leaves the other counters alone. */
  lemma {:induction false} LeavingKeepsCounters(c: Clockwork, from: State, now: nat)
    requires CountersOk(c) && Timed(from) && c.timer.start == c.enteredAt
    ensures CountersOk(LeaveTimed(c, from, now))
  {
    var c' := LeaveTimed(c, from, now);
    var v := Visit(from, c.enteredAt, now);
    assert c'.visits == c.visits + [v];
    forall s | Timed(s) ensures CounterOf(c', s) == Spent(c'.visits, s) % U32 {
      SpentPush(c.visits, v, s);
      if s == from { LeavingCounts(c, from, now); } else { LeavingSparesOthers(c, from, now, s); }
    }
  }

  /** Whatever state is left and entered: the timer is idle when it is armed, and the counters stay exact. */
  lemma {:induction false} MovingKeepsClock(c: Clockwork, from: State, to: State, at: Clock, notifies: bool)
    requires ClockOk(c, from) && from != to
    ensures ClockOk(EnterTimed(LeaveTimed(c, from, at.exit), to, at.enter, notifies), to)
    ensures !LeaveTimed(c, from, at.exit).timer.running
  {
    if Timed(from) { LeavingKeepsCounters(c, from, at.exit); }
    var c' := LeaveTimed(c, from, at.exit);
    assert CountersOk(c');
    var c2 := EnterTimed(c', to, at.enter, notifies);
    assert c2.counters == c'.counters && c2.visits == c'.visits;
  }

  lemma {:induction false} MovesKeepClock(n: Net, r: Net, at: Clock)
    requires ClockOk(n.clockwork, n.state) && Moves(n, r, at)
    ensures ClockOk(r.clockwork, r.state)
  {
    if r.state != n.state {
      MovingKeepsClock(n.clockwork, n.state, r.state, at, NotifiesIn(r.state, n.config));
    }
  }

  lemma {:induction false} LoopKeepsClock(n: Net, target: State, i: Inputs)
    requires ClockOk(n.clockwork, n.state)
    ensures ClockOk(Loop(n, target, i).clockwork, Loop(n, target, i).state)
  {
    UrcsDoNotMove(n, i.urcs);
    var n1 := Listen(n, i);
    var n2 := React(n, i);
    HandleEventMoves(n1.(event := NoEvent), n1.event, i);
    MovesKeepClock(n1.(event := NoEvent), n2, i.eventClock);
    PerformMoves(n2.(action := NoAction), n2.action, i);
    MovesKeepClock(n2.(action := NoAction), ExecuteActions(n2, i), i.actionClock);
  }

  lemma {:induction false} NextKeepsClock(n: Net, s: Step)
    requires Core(n) && ClockOk(n.clockwork, n.state)
    requires s.TryForcePsm? ==> n.state != DataReady
    ensures ClockOk(Next(n, s).clockwork, Next(n, s).state)
  {
    if Minor(s) {
      MinorSteps(n, s);
      return;
    }
    match s
    case LoopStep(target, i) => LoopKeepsClock(n, target, i);
    case GoToStep(target, i) => LoopKeepsClock(Kick(n, target), target, i);
    case DisconnectNetwork(_, at) =>
      ChangeMoves(n, NetworkDetached, at);
      MovesKeepClock(n, ChangeState(n, NetworkDetached, at), at);
    case QuitTransparent(i) =>
      var n1 := CallAction(n, LeaveTransparent);
      PerformMoves(n1.(action := NoAction), LeaveTransparent, i);
      MovesKeepClock(n1.(action := NoAction), ExecuteActions(n1, i), i.actionClock);
    case StateTimerExpires =>
      assert forall s :: CounterOf(TimerExpires(n).clockwork, s) == CounterOf(n.clockwork, s);
    case _ =>
  }

  /** PSM is not forced in data_ready anywhere in the run. */
  ghost predicate PsmNotForced(n: Net, run: seq<Step>)
    decreases |run|
  {
    run != [] ==>
      (run[0].TryForcePsm? ==> n.state != DataReady) && PsmNotForced(Next(n, run[0]), run[1..])
  }

  lemma {:induction false} RunKeepsClock(n: Net, run: seq<Step>)
    requires Core(n) && ClockOk(n.clockwork, n.state) && PsmNotForced(n, run)
    ensures ClockOk(After(n, run).clockwork, After(n, run).state)
    decreases |run|
  {
    if run != [] {
      NextKeepsClock(n, run[0]);
      NextKeepsCore(n, run[0]);
      RunKeepsClock(Next(n, run[0]), run[1..]);
    }
  }

  /** On every run without forced PSM the counters tell how long the machine has been in each timed state. */
  lemma {:induction false} CountersAreExact(config: Config, run: seq<Step>, s: State)
    requires PsmNotForced(Initial(config), run) && Timed(s)
    ensures var n := After(Initial(config), run);
            && CounterOf(n.clockwork, s) == Spent(n.clockwork.visits, s) % U32
            && (n.clockwork.timer.running ==> Timed(n.state))
  {
    RunKeepsClock(Initial(config), run);
  }

  // ---------------------------------------------------------------------------
  // Forced PSM
  // ---------------------------------------------------------------------------

  /** Leaving a timed state by detaching: what is booked, and what the stay was. */
  lemma {:induction false} LeftByDetaching(n: Net, leave: Clock)
    requires Timed(n.state) && |n.links.servers| == MAX_CONNECTIONS
    ensures var r := Next(n, DisconnectNetwork(ReplyOk, leave)).clockwork;
            && CounterOf(r, n.state)
               == (CounterOf(n.clockwork, n.state) + Elapsed(n.clockwork.timer.start, leave.exit)) % U32
            && r.visits == n.clockwork.visits + [Visit(n.state, n.clockwork.enteredAt, leave.exit)]
  {
  }

  lemma {:induction false} AcceptedPsm(n: Net, at: Clock, rearm: nat, urcOk: bool) returns (r: Net)
    requires n.state == DataReady && |n.links.servers| == MAX_CONNECTIONS
    ensures r == Next(n, TryForcePsm(true, at, rearm, urcOk))
    ensures r.state == DataReady && |r.links.servers| == MAX_CONNECTIONS && r.clockwork.timer.start == rearm
    ensures r.clockwork.counters == n.clockwork.counters && r.clockwork.visits == n.clockwork.visits
    ensures r.clockwork.enteredAt == n.clockwork.enteredAt
  {
    r := Next(n, TryForcePsm(true, at, rearm, urcOk));
  }

  /** A refused one books the stay that ends, and leaves the timer running in idle_mode, which has none. */
  lemma {:induction false} RefusedPsm(n: Net, at: Clock, rearm: nat, urcOk: bool) returns (r: Net)
    requires n.state == DataReady && |n.links.servers| == MAX_CONNECTIONS
    ensures r == Next(n, TryForcePsm(false, at, rearm, urcOk))
    ensures r.state == IdleMode && |r.links.servers| == MAX_CONNECTIONS
    ensures r.clockwork.timer.running && r.clockwork.timer.start == rearm
    ensures r.clockwork.counters == LeaveTimed(n.clockwork, DataReady, at.exit).counters
    ensures r.clockwork.visits == LeaveTimed(n.clockwork, DataReady, at.exit).visits
  {
    r := Next(n, TryForcePsm(false, at, rearm, urcOk));
  }

  /** The modem reports that it has entered PSM; nothing else happens. */
  predicate FallsAsleep(i: Inputs) { i.urcs == [PsmEntered] && !i.lastTimedOut }

  /** In idle_mode with a running timer, going to sleep does not arm it anew. */
  lemma {:induction false} SleepsOnRunningTimer(n: Net, i: Inputs) returns (r: Net)
    requires n.state == IdleMode && n.clockwork.timer.running && |n.links.servers| == MAX_CONNECTIONS && FallsAsleep(i)
    ensures r == Next(n, LoopStep(SleepMode, i))
    ensures r.state == SleepMode && |r.links.servers| == MAX_CONNECTIONS
    ensures r.clockwork == n.clockwork.(enteredAt := i.eventClock.enter)
  {
    r := Next(n, LoopStep(SleepMode, i));
    var u := OnEvent(n, PsmEnter);
    assert HandleUrcs(n, [PsmEntered]) == u by { assert HandleUrcs(u, [PsmEntered][1..]) == u; }
    assert Listen(n, i) == u;
    assert React(n, i) == ChangeState(u.(event := NoEvent), SleepMode, i.eventClock);
    assert r == React(n, i);
  }

  lemma ModularDiffer(a: nat, x: nat, y: nat)
    requires x % U32 != y % U32
    ensures (a + x) % U32 != (a + y) % U32
  {
    ModularSum(a, x);
    ModularSum(a, y);
  }

  /** A stay booked with another length than it had, modulo 2^32, makes the counters wrong. */
  lemma {:induction false} WronglyBooked(c: Clockwork, r: Clockwork, v: Visit, booked: nat)
    requires CountersOk(c) && Timed(v.state) && r.visits == c.visits + [v]
    requires CounterOf(r, v.state) == (CounterOf(c, v.state) + booked) % U32
    requires booked % U32 != Duration(v) % U32
    ensures !CountersOk(r)
  {
    var total := Spent(c.visits, v.state);
    SpentPush(c.visits, v, v.state);
    Rebook(total, booked);
    ModularDiffer(total, booked, Duration(v));
  }

  lemma Rebook(total: nat, booked: nat)
    ensures (total % U32 + booked) % U32 == (total + booked) % U32
  {
  }

  lemma DifferByMultiple(a: nat, b: nat)
    requires a <= b && a % U32 != b % U32
    ensures (b - a) % U32 != 0
  {
  }

  /** Every continuation in which PSM is not forced keeps all counters exact. */
  ghost predicate StaysExact(n: Net) {
    forall run :: PsmNotForced(n, run) ==> CountersOk(After(n, run).clockwork)
  }

  /** A run on which the counters go wrong. */
  ghost predicate GoesWrong(n: Net, run: seq<Step>) { PsmNotForced(n, run) && !CountersOk(After(n, run).clockwork) }

  /** A timer that was not armed when the state was entered makes the counters wrong when the state is left. */
  lemma {:induction false} SkewedTimerMiscounts(n: Net) returns (run: seq<Step>)
    requires Timed(n.state) && |n.links.servers| == MAX_CONNECTIONS && CountersOk(n.clockwork)
    requires n.clockwork.timer.start % U32 != n.clockwork.enteredAt % U32
    ensures GoesWrong(n, run)
  {
    var c := n.clockwork;
    var end := if c.timer.start < c.enteredAt then c.enteredAt else c.timer.start;
    var s := DisconnectNetwork(ReplyOk, Clock(end, end));
    run := [s];
    LeftByDetaching(n, Clock(end, end));
    After1(n, s);
    if c.timer.start < c.enteredAt {
      DifferByMultiple(c.timer.start, c.enteredAt);
    } else {
      DifferByMultiple(c.enteredAt, c.timer.start);
    }
    WronglyBooked(c, Next(n, s).clockwork, Visit(n.state, c.enteredAt, end), Elapsed(c.timer.start, end));
    assert PsmNotForced(Next(n, s), run[1..]);
  }

  lemma {:induction false} GoesWrongLater(n: Net, a: Step, m: Net, rest: seq<Step>)
    requires m == Next(n, a) && !a.TryForcePsm? && GoesWrong(m, rest)
    ensures GoesWrong(n, [a] + rest)
  {
    assert ([a] + rest)[1..] == rest;
  }

  /** A timer that runs in idle_mode makes the next sleep be booked from when it was armed. */
  lemma {:induction false} IdleTimerOvercounts(n: Net, i: Inputs) returns (run: seq<Step>)
    requires n.state == IdleMode && n.clockwork.timer.running && |n.links.servers| == MAX_CONNECTIONS
    requires CountersOk(n.clockwork) && FallsAsleep(i) && i.eventClock.enter == n.clockwork.timer.start + 1
    ensures GoesWrong(n, run)
  {
    var asleep := SleepsOnRunningTimer(n, i);
    assert CountersOk(asleep.clockwork) by {
      assert forall s :: CounterOf(asleep.clockwork, s) == CounterOf(n.clockwork, s);
    }
    var rest := SkewedTimerMiscounts(asleep);
    GoesWrongLater(n, LoopStep(SleepMode, i), asleep, rest);
    run := [LoopStep(SleepMode, i)] + rest;
  }

  /** After an accepted forced PSM, the part of the stay before it is never booked. */
  lemma {:induction false} AcceptedPsmLosesTime(n: Net, at: Clock, rearm: nat, urcOk: bool) returns (run: seq<Step>)
    requires Core(n) && ClockOk(n.clockwork, n.state) && n.state == DataReady
    requires rearm % U32 != n.clockwork.enteredAt % U32
    ensures GoesWrong(Next(n, TryForcePsm(true, at, rearm, urcOk)), run)
  {
    var r := AcceptedPsm(n, at, rearm, urcOk);
    assert CountersOk(r.clockwork) by { assert forall s :: CounterOf(r.clockwork, s) == CounterOf(n.clockwork, s); }
    run := SkewedTimerMiscounts(r);
  }

  /** After a refused one, the next sleep is booked from the refusal on. */
  lemma {:induction false} RefusedPsmOvercounts(n: Net, at: Clock, rearm: nat, urcOk: bool, i: Inputs)
      returns (run: seq<Step>)
    requires Core(n) && ClockOk(n.clockwork, n.state) && n.state == DataReady
    requires FallsAsleep(i) && i.eventClock.enter == rearm + 1
    ensures GoesWrong(Next(n, TryForcePsm(false, at, rearm, urcOk)), run)
  {
    var r := RefusedPsm(n, at, rearm, urcOk);
    LeavingKeepsCounters(n.clockwork, DataReady, at.exit);
    var c := LeaveTimed(n.clockwork, DataReady, at.exit);
    assert CountersOk(r.clockwork) by { assert forall s :: CounterOf(r.clockwork, s) == CounterOf(c, s); }
    run := IdleTimerOvercounts(r, i);
  }

  /**
   Exactly when forcing PSM is harmless to the counters: when the machine is not in data_ready.  In data_ready it breaks
   them on some continuation, whether an operator accepts (unless a 32-bit clock shows the instant of entry again) or
   none does.
   */
  lemma {:induction false} ForcedPsmIsHarmlessIff(n: Net, accepted: bool, at: Clock, rearm: nat, urcOk: bool)
    requires Core(n) && ClockOk(n.clockwork, n.state)
    requires accepted ==> rearm % U32 != n.clockwork.enteredAt % U32
    ensures StaysExact(Next(n, TryForcePsm(accepted, at, rearm, urcOk))) <==> n.state != DataReady
  {
    var r := Next(n, TryForcePsm(accepted, at, rearm, urcOk));
    if n.state != DataReady {
      assert r == n;
      forall run | PsmNotForced(r, run) ensures CountersOk(After(r, run).clockwork) { RunKeepsClock(r, run); }
    } else if accepted {
      var run := AcceptedPsmLosesTime(n, at, rearm, urcOk);
      assert GoesWrong(r, run);
    } else {
      var t := Clock(rearm, rearm + 1);
      var i := Inputs([PsmEntered], false, t, t, false, ReplyOk, ReplyOk, ReplyOk, ReplyOk, ReplyOk, OtherReg,
                      ReplyOk, CatM1, ReplyOk, 0, ReplyOk, false, ReplyOk, false, "", ReplyOk, false, ReplyOk, true);
      var run := RefusedPsmOvercounts(n, at, rearm, urcOk, i);
      assert GoesWrong(r, run);
    }
  }
}
