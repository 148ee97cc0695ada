/** The laws of the state machine, stated of the fields of the object after any list of calls, turns and expiries. */
module NetworkRuns {
  import opened MessageQueues
  import opened NetworkModel
  import opened NetworkInvariants
  import opened NetworkReach
  import opened NetworkLteMachine
  import Attach = NetworkAttachLaw
  import Clock = NetworkClock
  import Traffic = NetworkTraffic

  /** The object is where a run from the start has brought it. */
  ghost predicate Reached(net: NetworkLte, config: Config, steps: seq<Step>)
    reads net, net.servers, net.queue, net.ring, net.ring.buffer
  {
    net.Valid() && net.View() == After(Initial(config), steps)
  }

  /** A fresh object that takes a list of steps is where the run model says. */
  method Run(config: Config, steps: seq<Step>) returns (net: NetworkLte)
    ensures fresh(net) && Reached(net, config, steps)
  {
    net := new NetworkLte(config);
    assert steps[..0] == [];
    for k := 0 to |steps|
      invariant fresh(net) && fresh(net.servers) && fresh(net.queue) && fresh(net.ring) && fresh(net.ring.buffer)
      invariant Reached(net, config, steps[..k])
    {
      Advance(net, config, steps[..k], steps[k]);
      assert steps[..k + 1] == steps[..k] + [steps[k]];
    }
    assert steps[..|steps|] == steps;
  }

  method Advance(net: NetworkLte, ghost config: Config, ghost done: seq<Step>, s: Step)
    requires Reached(net, config, done)
    modifies net, net.servers, net.queue, net.ring, net.ring.buffer
    ensures Reached(net, config, done + [s])
  {
    AfterConcat(Initial(config), done, [s]);
    After1(After(Initial(config), done), s);
    net.Do(s);
  }

  /** Detached or without a context: the stored address is empty and all five slots are disconnected. */
  lemma {:induction false} OfflineObject(net: NetworkLte, config: Config, steps: seq<Step>)
    requires Reached(net, config, steps)
    ensures net.state == NetworkDetached || net.state == PdpContextClosed ==>
              net.ip == "" && forall k :: 0 <= k < MAX_CONNECTIONS ==> net.servers[k].state == Disconnected
    ensures net.state !in {NoState, SetupMode, PdpContextOpening, ModemFota}
  {
    OfflineMeansDisconnected(config, steps);
    UnreachableStates(config, steps);
    assert forall k :: 0 <= k < MAX_CONNECTIONS ==> net.servers[k] == net.View().links.servers[k];
  }

  /** The attach attempts since the last registration are within the bound exactly up to 256 increments. */
  lemma {:induction false} BoundedObject(net: NetworkLte, config: Config, steps: seq<Step>)
    requires Reached(net, config, steps) && forall k :: 0 <= k < |steps| ==> !steps[k].SetConfig?
    ensures net.attempts <= Attach.Bound(config) <==> net.increments <= U8
    ensures net.attachRetries == net.increments % U8
  {
    Attach.AttemptsAreBounded(config, steps);
    Attach.RunKeepsLaw(Initial(config), steps);
  }

  /** The state changes in the ring are a contiguous tail of the state path, ending in the present state. */
  lemma {:induction false} TracedObject(net: NetworkLte, config: Config, steps: seq<Step>) returns (from: State)
    requires Reached(net, config, steps)
    ensures |net.ring.Contents()| <= TRACE_CAPACITY && Linked(Changes(net.ring.Contents()), from, net.state)
  {
    from := TraceIsTailOfPath(config, steps);
    assert Held(net.ring.trace) == net.ring.Contents();
  }

  /** The counters are exact, and the timer runs only in timed states, unless PSM was forced in data_ready. */
  lemma {:induction false} TimedObject(net: NetworkLte, config: Config, steps: seq<Step>, s: State)
    requires Reached(net, config, steps) && Clock.PsmNotForced(Initial(config), steps) && Timed(s)
    ensures CounterOf(net.ClockView(), s) == Clock.Spent(net.visits, s) % U32
    ensures net.timer.running ==> Timed(net.state)
  {
    Clock.CountersAreExact(config, steps, s);
  }

  /** The messages handed to the modem are, in order, some of the accepted writes that have left the queue. */
  lemma {:induction false} SendingObject(net: NetworkLte, config: Config, steps: seq<Step>)
      returns (taken: seq<Message>)
    requires Reached(net, config, steps)
    ensures taken + net.queue.fifo == Traffic.Written(Initial(config), steps)
    ensures Traffic.Subsequence(net.sent, taken)
  {
    taken := Traffic.SentInOrder(Initial(config), steps, []);
    var written := Traffic.Written(Initial(config), steps);
    assert [] + taken == taken && [] + written == written;
  }
}
