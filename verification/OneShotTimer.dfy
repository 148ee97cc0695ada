/**
 The one-shot timer as a two-sided protocol: one owner thread calls start, stop and reset, and each arming has a waiter
 thread of its own.  Steps are the stretches of code that run under the mutex; callbacks do not touch the timer.
 */
module OneShotTimer {

  /** Where the waiter thread of one arming is. */
  datatype Waiter =
    | Spawned                              // created, has not taken the lock yet
    | Waiting(snap: nat)                   // in wait_until with the deadline it saw
    | Woken(snap: nat, timedOut: bool)     // out of wait_until, about to take the lock again
    | Firing(hasCallback: bool)            // expired and detached, about to call back
    | CallingBack
    | Exited

  datatype Option = None | Some(arming: nat)

  datatype Owner = Free | Joining(arming: nat)

  datatype Call = Call(arming: nat, at: nat)

  /** `waiters`, `deadlines` are indexed by arming; `deadlines[a]` is the latest deadline given to arming a. */
  datatype Timer = Timer(
    now: nat, running: bool, cancelled: bool, deadline: nat, hasCallback: bool, thread: Option, owner: Owner,
    waiters: seq<Waiter>, deadlines: seq<nat>, calls: seq<Call>, stopped: set<nat>)

  datatype Label =
    | Tick(ms: nat)
    | Start(timeoutMs: nat, withCallback: bool)
    | Stop
    | JoinReturns
    | Reset(timeoutMs: nat)
    | Enter(arming: nat)
    | Wake(arming: nat, timedOut: bool)
    | Relock(arming: nat)
    | CallBack(arming: nat)
    | CallbackReturns(arming: nat)

  const INIT := Timer(0, false, false, 0, false, None, Free, [], [], [], {})

  // ---------------------------------------------------------------------------
  // Steps
  // ---------------------------------------------------------------------------

  /** A fresh waiter thread for the next arming. */
  function Arm(t: Timer, timeoutMs: nat): Timer {
    t.(running := true, cancelled := false, deadline := t.now + timeoutMs, thread := Some(|t.waiters|),
       waiters := t.waiters + [Spawned], deadlines := t.deadlines + [t.now + timeoutMs])
  }

  function StartTimer(t: Timer, timeoutMs: nat, withCallback: bool): Timer {
    if t.running then t  // already_running
    else Arm(t.(hasCallback := withCallback), timeoutMs)
  }

  function StopTimer(t: Timer): Timer {
    if !t.running || t.thread.None? then t  // not_running
    else t.(running := false, cancelled := true, thread := None, owner := Joining(t.thread.arming))
  }

  function ResetTimer(t: Timer, timeoutMs: nat): Timer {
    if t.running then
      var d := t.now + timeoutMs;
      if t.thread.Some? && t.thread.arming < |t.deadlines|
      then t.(deadline := d, deadlines := t.deadlines[t.thread.arming := d])
      else t.(deadline := d)
    else if !t.hasCallback then t  // not_running
    else Arm(t, timeoutMs)
  }

  function SetWaiter(t: Timer, a: nat, w: Waiter): Timer
    requires a < |t.waiters|
  {
    t.(waiters := t.waiters[a := w])
  }

  /** The waiter has the lock: cancelled, expired for good, or waiting for the (possibly new) deadline. */
  function RelockWaiter(t: Timer, a: nat): Timer
    requires a < |t.waiters| && t.waiters[a].Woken?
  {
    var w := t.waiters[a];
    if t.cancelled then SetWaiter(t, a, Exited)
    else if w.timedOut && t.deadline == w.snap
    then SetWaiter(t.(running := false, thread := None), a, Firing(t.hasCallback))
    else SetWaiter(t, a, Waiting(t.deadline))
  }

  /** The waiter side; a step that is not enabled leaves the timer as it is. */
  function StepWaiter(t: Timer, l: Label): Timer
    requires l.Enter? || l.Wake? || l.Relock? || l.CallBack? || l.CallbackReturns?
  {
    var a := l.arming;
    if a >= |t.waiters| then t
    else
      var w := t.waiters[a];
      match l
      case Enter(_) =>
        if !w.Spawned? then t else SetWaiter(t, a, if t.cancelled then Exited else Waiting(t.deadline))
      case Wake(_, timedOut) =>
        if !w.Waiting? || (timedOut && t.now < w.snap) then t else SetWaiter(t, a, Woken(w.snap, timedOut))
      case Relock(_) =>
        if !w.Woken? then t else RelockWaiter(t, a)
      case CallBack(_) =>
        if !w.Firing? then t
        else if !w.hasCallback then SetWaiter(t, a, Exited)
        else SetWaiter(t, a, CallingBack).(calls := t.calls + [Call(a, t.now)])
      case CallbackReturns(_) =>
        if !w.CallingBack? then t else SetWaiter(t, a, Exited)
  }

  function Step(t: Timer, l: Label): Timer {
    match l
    case Tick(ms) => t.(now := t.now + ms)
    case Start(timeoutMs, withCallback) => if t.owner.Free? then StartTimer(t, timeoutMs, withCallback) else t
    case Stop => if t.owner.Free? then StopTimer(t) else t
    case Reset(timeoutMs) => if t.owner.Free? then ResetTimer(t, timeoutMs) else t
    case JoinReturns =>
      if t.owner.Joining? && t.owner.arming < |t.waiters| && t.waiters[t.owner.arming].Exited?
      then t.(owner := Free, stopped := t.stopped + {t.owner.arming})
      else t
    case _ => StepWaiter(t, l)
  }

  function Execute(t: Timer, run: seq<Label>): Timer
    decreases |run|
  {
    if run == [] then t else Execute(Step(t, run[0]), run[1..])
  }

  // ---------------------------------------------------------------------------
  // Invariant
  // ---------------------------------------------------------------------------

  predicate Live(w: Waiter) { w.Spawned? || w.Waiting? || w.Woken? }

  /** The thread handle is held exactly while the timer runs, and then by the newest, uncancelled arming. */
  ghost predicate HandleOk(t: Timer)
    requires |t.deadlines| == |t.waiters|
  {
    && (t.running <==> t.thread.Some?)
    && (t.thread.Some? ==>
          && t.thread.arming + 1 == |t.waiters| && Live(t.waiters[t.thread.arming]) && !t.cancelled && t.owner.Free?
          && t.deadlines[t.thread.arming] == t.deadline)
    && (t.owner.Joining? ==>
          && t.owner.arming + 1 == |t.waiters| && t.cancelled
          && (Live(t.waiters[t.owner.arming]) || t.waiters[t.owner.arming].Exited?))
  }

  ghost predicate NeverCalled(t: Timer, a: nat) {
    forall i :: 0 <= i < |t.calls| ==> t.calls[i].arming != a
  }

  /** What is known of one arming from the position of its waiter. */
  ghost predicate WaiterOk(t: Timer, a: nat)
    requires a < |t.waiters| && |t.deadlines| == |t.waiters|
  {
    && (Live(t.waiters[a]) ==> t.thread == Some(a) || t.owner == Joining(a))
    && (t.waiters[a].Woken? && t.waiters[a].timedOut ==> t.waiters[a].snap <= t.now)
    && (t.waiters[a].Firing? ==> t.deadlines[a] <= t.now)
    && ((Live(t.waiters[a]) || t.waiters[a].Firing? || t.owner == Joining(a)) ==>
          NeverCalled(t, a))
  }

  ghost predicate CallsOk(t: Timer)
    requires |t.deadlines| == |t.waiters|
  {
    && (forall i :: 0 <= i < |t.calls| ==>
          t.calls[i].arming < |t.waiters| && t.deadlines[t.calls[i].arming] <= t.calls[i].at <= t.now)
    && (forall i, j :: 0 <= i < j < |t.calls| ==> t.calls[i].arming != t.calls[j].arming)
  }

  ghost predicate StoppedOk(t: Timer) {
    forall a :: a in t.stopped ==>
      a < |t.waiters| && t.waiters[a].Exited? && NeverCalled(t, a)
  }

  ghost predicate Inv(t: Timer) {
    && |t.deadlines| == |t.waiters|
    && HandleOk(t) && CallsOk(t) && StoppedOk(t)
    && (forall a :: 0 <= a < |t.waiters| ==> WaiterOk(t, a))
  }

  lemma {:induction false} OwnerKeepsInv(t: Timer, l: Label)
    requires Inv(t) && (l.Tick? || l.Start? || l.Stop? || l.Reset? || l.JoinReturns?)
    ensures Inv(Step(t, l))
  {
    var t' := Step(t, l);
    if t.thread.Some? { assert WaiterOk(t, t.thread.arming); }
    if t.owner.Joining? { assert WaiterOk(t, t.owner.arming); }
    assert t'.calls == t.calls;
    forall a | 0 <= a < |t'.waiters| ensures WaiterOk(t', a) {
      if a < |t.waiters| { assert WaiterOk(t, a); }
    }
  }

  lemma {:induction false} QuietWaiterStep(t: Timer, a: nat, w: Waiter)
    requires Inv(t) && a < |t.waiters|
    requires Live(w) ==> Live(t.waiters[a])
    requires w.Woken? && w.timedOut ==> w.snap <= t.now
    requires !w.Firing?
    requires t.thread == Some(a) ==> Live(w)
    requires t.owner == Joining(a) ==> Live(w) || w.Exited?
    requires w.Exited? || a !in t.stopped
    ensures Inv(SetWaiter(t, a, w))
  {
    var t' := SetWaiter(t, a, w);
    assert WaiterOk(t, a);
    forall b | 0 <= b < |t'.waiters| ensures WaiterOk(t', b) {
      assert WaiterOk(t, b);
    }
  }

  lemma {:induction false} FiringKeepsInv(t: Timer, a: nat)
    requires Inv(t) && a < |t.waiters| && t.waiters[a].Woken? && t.waiters[a].timedOut
    requires !t.cancelled && t.deadline == t.waiters[a].snap
    ensures Inv(RelockWaiter(t, a))
  {
    var t' := RelockWaiter(t, a);
    assert WaiterOk(t, a);
    assert t.thread == Some(a);
    forall b | 0 <= b < |t'.waiters| ensures WaiterOk(t', b) {
      assert WaiterOk(t, b);
    }
  }

  lemma {:induction false} CallingBackKeepsInv(t: Timer, a: nat)
    requires Inv(t) && a < |t.waiters| && t.waiters[a] == Firing(true)
    ensures Inv(StepWaiter(t, CallBack(a)))
  {
    var t' := StepWaiter(t, CallBack(a));
    assert WaiterOk(t, a);
    forall b | 0 <= b < |t'.waiters| ensures WaiterOk(t', b) {
      assert WaiterOk(t, b);
    }
  }

  lemma {:induction false} WaiterKeepsInv(t: Timer, l: Label)
    requires Inv(t) && (l.Enter? || l.Wake? || l.Relock? || l.CallBack? || l.CallbackReturns?)
    ensures Inv(StepWaiter(t, l))
  {
    var a := l.arming;
    if a < |t.waiters| && StepWaiter(t, l) != t {
      var w := t.waiters[a];
      assert WaiterOk(t, a);
      if l.Relock? && !t.cancelled && w.timedOut && t.deadline == w.snap {
        FiringKeepsInv(t, a);
      } else if l.CallBack? && w.hasCallback {
        CallingBackKeepsInv(t, a);
      } else {
        QuietWaiterStep(t, a, StepWaiter(t, l).waiters[a]);
      }
    }
  }

  lemma {:induction false} RunsKeepInv(t: Timer, run: seq<Label>)
    requires Inv(t)
    ensures Inv(Execute(t, run))
    decreases |run|
  {
    if run != [] {
      StepKeepsInv(t, run[0]);
      RunsKeepInv(Step(t, run[0]), run[1..]);
    }
  }

  // ---------------------------------------------------------------------------
  // What callers rely on, on every run
  // ---------------------------------------------------------------------------

  /** The handle `thread_` is non-empty exactly while `running_`, so no arming ever overwrites a joinable thread. */
  lemma {:induction false} HandleHeldWhileRunning(run: seq<Label>)
    ensures Execute(INIT, run).running <==> Execute(INIT, run).thread.Some?
  {
    RunsKeepInv(INIT, run);
  }

  /** Each arming calls back at most once, and never before the latest deadline it was given. */
  lemma {:induction false} FiresOnceAndNotEarly(run: seq<Label>, i: nat)
    requires i < |Execute(INIT, run).calls|
    ensures var t := Execute(INIT, run);
            && t.calls[i].arming < |t.deadlines| && t.deadlines[t.calls[i].arming] <= t.calls[i].at
            && forall j :: 0 <= j < |t.calls| && j != i ==> t.calls[j].arming != t.calls[i].arming
  {
    RunsKeepInv(INIT, run);
  }

  lemma {:induction false} StoppedStays(t: Timer, run: seq<Label>)
    ensures t.stopped <= Execute(t, run).stopped
    decreases |run|
  {
    if run != [] { StoppedStays(Step(t, run[0]), run[1..]); }
  }

  lemma {:induction false} ExecuteConcat(t: Timer, a: seq<Label>, b: seq<Label>)
    ensures Execute(t, a + b) == Execute(Execute(t, a), b)
    decreases |a|
  {
    if a == [] {
      assert a + b == b;
    } else {
      assert (a + b)[1..] == a[1..] + b;
      ExecuteConcat(Step(t, a[0]), a[1..], b);
    }
  }

  /** Once stop has returned ok for an arming, no continuation of the run ever calls that arming back. */
  lemma {:induction false} StopIsFinal(before: seq<Label>, after: seq<Label>, a: nat)
    requires a in Execute(INIT, before).stopped
    ensures NeverCalled(Execute(INIT, before + after), a)
  {
    ExecuteConcat(INIT, before, after);
    StoppedStays(Execute(INIT, before), after);
    RunsKeepInv(INIT, before + after);
  }

  /** The waiter's own steps still needed before a stop can return. */
  function StepsLeft(w: Waiter): nat {
    match w
    case Spawned => 1
    case Waiting(_) => 2
    case Woken(_, _) => 1
    case _ => 0
  }

  lemma {:induction false} JoinUnblocks(t: Timer) returns (own: seq<Label>)
    requires Inv(t) && t.owner.Joining?
    ensures forall l :: l in own ==>
              l in {Enter(t.owner.arming), Wake(t.owner.arming, false), Relock(t.owner.arming), JoinReturns}
    ensures |own| <= StepsLeft(t.waiters[t.owner.arming]) + 1
    ensures Execute(t, own).owner.Free? && t.owner.arming in Execute(t, own).stopped
    ensures var r := Execute(t, own); r.running == t.running && r.thread == t.thread && r.calls == t.calls
    decreases StepsLeft(t.waiters[t.owner.arming])
  {
    var a := t.owner.arming;
    var l := match t.waiters[a]
      case Spawned => Enter(a)
      case Waiting(_) => Wake(a, false)
      case Woken(_, _) => Relock(a)
      case _ => JoinReturns;
    var t1 := Step(t, l);
    if l.JoinReturns? {
      own := [l];
      assert Execute(t, own) == t1;
    } else {
      WaiterKeepsInv(t, l);
      var rest := JoinUnblocks(t1);
      own := [l] + rest;
      assert own[1..] == rest;
    }
  }

  /** Stop never hangs: on every run, at most two steps of the waiter itself let the join return. */
  lemma {:induction false} StopCompletes(before: seq<Label>, t: Timer) returns (own: seq<Label>)
    requires t == Execute(INIT, before) && t.owner.Joining?
    ensures |own| <= 3
    ensures Execute(INIT, before + own).owner.Free?
    ensures t.owner.arming in Execute(INIT, before + own).stopped
  {
    assert Inv(t) by { RunsKeepInv(INIT, before); }
    own := JoinUnblocks(t);
    assert Execute(INIT, before + own) == Execute(t, own) by { ExecuteConcat(INIT, before, own); }
  }

  // ---------------------------------------------------------------------------
  // A stop that comes too late
  // ---------------------------------------------------------------------------

  /** Nobody arms the timer in this run. */
  predicate NotArmed(run: seq<Label>) { forall l :: l in run ==> !l.Start? && !l.Reset? }

  /** Some waiter has expired and is about to call back. */
  ghost predicate AboutToCall(t: Timer) { exists a :: 0 <= a < |t.waiters| && t.waiters[a] == Firing(true) }

  /** Without a running timer and a waiter about to call back, nothing but an arming can lead to a callback. */
  ghost predicate Silent(t: Timer) {
    !t.running && forall a :: 0 <= a < |t.waiters| ==> !Live(t.waiters[a]) && t.waiters[a] != Firing(true)
  }

  lemma {:induction false} SilentStays(t: Timer, l: Label)
    requires Inv(t) && Silent(t) && !l.Start? && !l.Reset?
    ensures Silent(Step(t, l)) && Step(t, l).calls == t.calls
  {
  }

  lemma {:induction false} SilentForever(t: Timer, run: seq<Label>)
    requires Inv(t) && Silent(t) && NotArmed(run)
    ensures Execute(t, run).calls == t.calls
    decreases |run|
  {
    if run != [] {
      assert run[0] in run;
      SilentStays(t, run[0]);
      StepKeepsInv(t, run[0]);
      SilentForever(Step(t, run[0]), run[1..]);
    }
  }

  lemma {:induction false} StepKeepsInv(t: Timer, l: Label)
    requires Inv(t)
    ensures Inv(Step(t, l))
  {
    if l.Enter? || l.Wake? || l.Relock? || l.CallBack? || l.CallbackReturns? {
      WaiterKeepsInv(t, l);
    } else {
      OwnerKeepsInv(t, l);
    }
  }

  /**
   A stop that finds the timer not running changes nothing.  Exactly when it is final all the same, that is when no
   callback follows without a new arming: when no waiter is about to call back.
   */
  lemma {:induction false} RefusedStopIsFinalIff(t: Timer)
    requires Inv(t) && t.owner.Free? && !t.running
    ensures Step(t, Stop) == t
    ensures (forall run :: NotArmed(run) ==> Execute(t, run).calls == t.calls) <==> !AboutToCall(t)
  {
    if AboutToCall(t) {
      var a :| 0 <= a < |t.waiters| && t.waiters[a] == Firing(true);
      var run := [CallBack(a)];
      assert Execute(t, run) == Step(t, CallBack(a));
      assert NotArmed(run) && Execute(t, run).calls == t.calls + [Call(a, t.now)];
    } else {
      forall a | 0 <= a < |t.waiters| ensures !Live(t.waiters[a]) { assert WaiterOk(t, a); }
      forall run | NotArmed(run) ensures Execute(t, run).calls == t.calls { SilentForever(t, run); }
    }
  }

  /** The run: the timer expires, the owner stops it and is told that it is not running, and then it calls back. */
  lemma {:induction false} StopTooLate(now: Timer, late: Timer)
    requires now == Execute(INIT, [Start(0, true), Enter(0)] + [Wake(0, true), Relock(0)])
    requires late == Execute(now, [Stop, CallBack(0)])
    ensures now.owner.Free? && !now.running && now.calls == [] && Step(now, Stop) == now
    ensures late.calls == [Call(0, 0)]
  {
    ExecuteConcat(INIT, [Start(0, true), Enter(0)], [Wake(0, true), Relock(0)]);
    Unfold2(INIT, Start(0, true), Enter(0));
    var t := Execute(INIT, [Start(0, true), Enter(0)]);
    assert t.waiters == [Waiting(0)] && t.deadline == 0 && t.hasCallback && !t.cancelled;
    Unfold2(t, Wake(0, true), Relock(0));
    assert now.waiters == [Firing(true)];
    Unfold2(now, Stop, CallBack(0));
  }

  lemma {:induction false} Unfold2(t: Timer, a: Label, b: Label)
    ensures Execute(t, [a, b]) == Step(Step(t, a), b)
  {
    assert [a, b][1..] == [b] && [b][1..] == [];
    assert Execute(Step(t, a), [b]) == Step(Step(t, a), b);
  }

  // ---------------------------------------------------------------------------
  // The time that was asked for, from the run alone
  // ---------------------------------------------------------------------------

  /** Milliseconds that have passed in a run. */
  function Elapsed(run: seq<Label>): nat {
    if run == [] then 0
    else
      var last := run[|run| - 1];
      Elapsed(run[..|run| - 1]) + if last.Tick? then last.ms else 0
  }

  /** In this state, this label gives arming a its timeout: a start or reset that arms it, or a reset while it runs. */
  predicate Asks(t: Timer, l: Label, a: nat) {
    && t.owner.Free?
    && ((l.Start? && !t.running && a == |t.waiters|)
        || (l.Reset? && !t.running && t.hasCallback && a == |t.waiters|)
        || (l.Reset? && t.running && t.thread == Some(a)))
  }

  /** When arming a was last asked to fire: the time of that request plus its timeout. */
  ghost function AskedFor(run: seq<Label>, a: nat): nat {
    if run == [] then 0
    else
      var before, l := run[..|run| - 1], run[|run| - 1];
      if Asks(Execute(INIT, before), l, a) then Elapsed(before) + l.timeoutMs else AskedFor(before, a)
  }

  lemma {:induction false} Snoc(run: seq<Label>, l: Label)
    ensures Execute(INIT, run + [l]) == Step(Execute(INIT, run), l)
    ensures Elapsed(run + [l]) == Elapsed(run) + if l.Tick? then l.ms else 0
  {
    ExecuteConcat(INIT, run, [l]);
    assert Execute(Execute(INIT, run), [l]) == Step(Execute(INIT, run), l);
    assert (run + [l])[..|run|] == run && (run + [l])[|run|] == l;
  }

  lemma {:induction false} AskedSnoc(run: seq<Label>, l: Label, a: nat)
    ensures AskedFor(run + [l], a)
         == if Asks(Execute(INIT, run), l, a) then Elapsed(run) + l.timeoutMs else AskedFor(run, a)
  {
    assert (run + [l])[..|run|] == run && (run + [l])[|run|] == l;
  }

  lemma {:induction false} DeadlineStep(t: Timer, l: Label, a: nat)
    requires Inv(t) && a < |Step(t, l).waiters|
    ensures Step(t, l).now == t.now + if l.Tick? then l.ms else 0
    ensures |Step(t, l).deadlines| == |Step(t, l).waiters|
    ensures if Asks(t, l, a) then Step(t, l).deadlines[a] == t.now + l.timeoutMs
            else a < |t.waiters| && Step(t, l).deadlines[a] == t.deadlines[a]
  {
  }

  /** On every run the clock shows the time that has passed, and each arming's deadline is the one it was asked for. */
  lemma {:induction false} DeadlinesAreAskedFor(run: seq<Label>, a: nat)
    requires a < |Execute(INIT, run).waiters|
    ensures var t := Execute(INIT, run);
            t.now == Elapsed(run) && a < |t.deadlines| && t.deadlines[a] == AskedFor(run, a)
    decreases |run|
  {
    if run != [] {
      var before, l := run[..|run| - 1], run[|run| - 1];
      assert run == before + [l];
      Snoc(before, l);
      AskedSnoc(before, l, a);
      RunsKeepInv(INIT, before);
      var t := Execute(INIT, before);
      DeadlineStep(t, l, a);
      ClockShowsElapsed(before);
      if !Asks(t, l, a) { DeadlinesAreAskedFor(before, a); }
    }
  }

  lemma {:induction false} ClockShowsElapsed(run: seq<Label>)
    ensures Execute(INIT, run).now == Elapsed(run)
    decreases |run|
  {
    if run != [] {
      var before, l := run[..|run| - 1], run[|run| - 1];
      assert run == before + [l];
      Snoc(before, l);
      ClockShowsElapsed(before);
    }
  }

  /** Some step of the run was the callback of this arming, at this time. */
  ghost predicate CalledIn(run: seq<Label>, c: Call) {
    exists k :: 0 <= k < |run| && run[k] == CallBack(c.arming) && c.at == Elapsed(run[..k])
  }

  lemma {:induction false} StepCalls(t: Timer, l: Label)
    ensures var t' := Step(t, l);
            t'.calls == t.calls || (l.CallBack? && t'.calls == t.calls + [Call(l.arming, t.now)])
  {
  }

  lemma {:induction false} CalledStays(run: seq<Label>, l: Label, c: Call)
    requires CalledIn(run, c)
    ensures CalledIn(run + [l], c)
  {
    var k :| 0 <= k < |run| && run[k] == CallBack(c.arming) && c.at == Elapsed(run[..k]);
    assert (run + [l])[k] == run[k] && (run + [l])[..k] == run[..k];
  }

  lemma {:induction false} CalledNow(run: seq<Label>, a: nat)
    ensures CalledIn(run + [CallBack(a)], Call(a, Elapsed(run)))
  {
    var run' := run + [CallBack(a)];
    assert run'[|run|] == CallBack(a) && run'[..|run|] == run;
  }

  lemma {:induction false} CallsAreSteps(run: seq<Label>, i: nat)
    requires i < |Execute(INIT, run).calls|
    ensures CalledIn(run, Execute(INIT, run).calls[i])
    decreases |run|
  {
    if run != [] {
      var before, l := run[..|run| - 1], run[|run| - 1];
      assert run == before + [l];
      Snoc(before, l);
      ClockShowsElapsed(before);
      var t := Execute(INIT, before);
      StepCalls(t, l);
      if i < |t.calls| {
        CallsAreSteps(before, i);
        CalledStays(before, l, t.calls[i]);
      } else {
        CalledNow(before, l.arming);
      }
    }
  }

  /** So no callback starts before the time its arming was last asked for, whatever the interleaving. */
  lemma {:induction false} NeverBeforeAskedFor(run: seq<Label>, i: nat)
    requires i < |Execute(INIT, run).calls|
    ensures var c := Execute(INIT, run).calls[i];
            AskedFor(run, c.arming) <= c.at && CalledIn(run, c)
  {
    RunsKeepInv(INIT, run);
    FiresOnceAndNotEarly(run, i);
    DeadlinesAreAskedFor(run, Execute(INIT, run).calls[i].arming);
    CallsAreSteps(run, i);
  }

  // ---------------------------------------------------------------------------
  // And it does fire
  // ---------------------------------------------------------------------------

  /** A start on a timer that does not run arms it with its callback; on a running one it does nothing. */
  lemma {:induction false} StartArms(t: Timer, timeoutMs: nat, withCallback: bool)
    requires Inv(t) && t.owner.Free?
    ensures var r := Step(t, Start(timeoutMs, withCallback));
            if t.running then r == t
            else r.running && r.thread == Some(|t.waiters|) && r.hasCallback == withCallback && r.calls == t.calls
                 && r.waiters == t.waiters + [Spawned]
  {
  }

  /** How far the waiter of the armed timer is from its callback. */
  function Rank(t: Timer, w: Waiter): nat {
    match w
    case Spawned => 4
    case Waiting(snap) => if snap == t.deadline then 3 else 5
    case Woken(snap, timedOut) => if timedOut && snap == t.deadline then 2 else 4
    case Firing(_) => 1
    case _ => 0
  }

  /** The waiter's next step of its own. */
  function OwnStep(t: Timer, a: nat, w: Waiter): Label {
    match w
    case Spawned => Enter(a)
    case Waiting(snap) => Wake(a, snap == t.deadline)
    case Woken(_, _) => Relock(a)
    case _ => CallBack(a)
  }

  lemma {:induction false} OwnStepAdvances(t: Timer, a: nat)
    requires Inv(t) && t.thread == Some(a) && t.hasCallback && t.deadline <= t.now
    ensures var t' := Step(t, OwnStep(t, a, t.waiters[a]));
            && t'.calls == t.calls && t'.now == t.now && a < |t'.waiters|
            && Rank(t', t'.waiters[a]) < Rank(t, t.waiters[a])
            && ((t'.thread == Some(a) && t'.hasCallback && t'.deadline <= t'.now) || t'.waiters[a] == Firing(true))
  {
    assert WaiterOk(t, a);
  }

  /**
   Once the time asked for has passed, at most five steps of the waiter itself, whatever it was doing, call back, and
   they do so without the clock moving on.
   */
  lemma {:induction false} ExpiredCallsBack(t: Timer, a: nat) returns (own: seq<Label>)
    requires Inv(t) && a < |t.waiters|
    requires (t.thread == Some(a) && t.hasCallback && t.deadline <= t.now) || t.waiters[a] == Firing(true)
    ensures |own| <= Rank(t, t.waiters[a]) <= 5
    ensures Execute(t, own).calls == t.calls + [Call(a, t.now)]
    decreases Rank(t, t.waiters[a])
  {
    if t.waiters[a] == Firing(true) {
      own := [CallBack(a)];
      assert Execute(t, own) == Step(t, CallBack(a));
    } else {
      var l := OwnStep(t, a, t.waiters[a]);
      OwnStepAdvances(t, a);
      StepKeepsInv(t, l);
      var rest := ExpiredCallsBack(Step(t, l), a);
      own := [l] + rest;
      assert own[1..] == rest;
    }
  }

  lemma {:induction false} Started(timeoutMs: nat) returns (t: Timer)
    ensures t == Execute(INIT, [Start(timeoutMs, true), Tick(timeoutMs)])
    ensures t.calls == [] && t.now == t.deadline == timeoutMs && t.thread == Some(0) && t.hasCallback
    ensures |t.waiters| == 1 && Inv(t)
  {
    Unfold2(INIT, Start(timeoutMs, true), Tick(timeoutMs));
    t := Execute(INIT, [Start(timeoutMs, true), Tick(timeoutMs)]);
    assert t.now == timeoutMs && t.thread == Some(0);
    RunsKeepInv(INIT, [Start(timeoutMs, true), Tick(timeoutMs)]);
  }

  /** From the start: a timer started with a callback fires as soon as its time has passed. */
  lemma {:induction false} StartedFires(timeoutMs: nat) returns (own: seq<Label>)
    ensures Execute(INIT, [Start(timeoutMs, true), Tick(timeoutMs)]).calls == []
    ensures Execute(INIT, [Start(timeoutMs, true), Tick(timeoutMs)] + own).calls == [Call(0, timeoutMs)]
  {
    var t := Started(timeoutMs);
    own := ExpiredCallsBack(t, 0);
    ExecuteConcat(INIT, [Start(timeoutMs, true), Tick(timeoutMs)], own);
  }

  /** A reset arms a timer that does not run but has a callback, and keeps its callback; a running one stays armed. */
  lemma {:induction false} ResetArms(t: Timer, timeoutMs: nat)
    requires Inv(t) && t.owner.Free?
    ensures var r := Step(t, Reset(timeoutMs));
            && r.hasCallback == t.hasCallback && r.calls == t.calls
            && (t.running ==> r.running && r.thread == t.thread && r.waiters == t.waiters)
            && (!t.running && t.hasCallback ==>
                  r.running && r.thread == Some(|t.waiters|) && r.waiters == t.waiters + [Spawned])
            && (!t.running && !t.hasCallback ==> r == t)
  {
  }

  /** Stopping a running timer takes its arming out for good, at most three steps of waiter and join later. */
  lemma {:induction false} StopStops(t: Timer, a: nat) returns (own: seq<Label>)
    requires Inv(t) && t.owner.Free? && t.thread == Some(a)
    ensures |own| <= 4 && own != [] && own[0] == Stop
    ensures var r := Execute(t, own);
            a in r.stopped && r.owner.Free? && !r.running && r.thread.None? && r.calls == t.calls
  {
    var t1 := Step(t, Stop);
    StepKeepsInv(t, Stop);
    var rest := JoinUnblocks(t1);
    own := [Stop] + rest;
    assert own[1..] == rest;
  }
}
