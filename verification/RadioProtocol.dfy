/**
 The request / ACK / completion protocol between the network thread and one client thread.

 Every enqueue and every flag-set is a step of its own, so all interleavings of the two threads are runs here.
 A receive checks nothing but the length of the frame.  A `bool` response, an enumeration response and a completion
 notice all take two bytes, so the length cannot tell them apart: that a client never takes one for the other is a
 property of the whole protocol.
 */
module RadioProtocol {
  import opened EventFlags

  const QUEUE_DEPTH: nat := 8

  datatype RequestType =
    | GetRegistrationInfo | GetSignalQuality | GetIccid | GetImsi | GetClock | GetModemInfo | GetSimStatus
    | GetRadioTech | GetRegStatus | GetNetworkInfo | GetPsmMode | GetCpsmsConfig | GetTelitCpsmsConfig
    | GetTelitCpsmsStatus | GetNetworkSurveyResult | GetAvailableOperators | GetCsurvResult | ScanNetworks
    | GetServerInfoArray | GetConfig | SetConfig | NetworkConnect | NetworkDisconnect | ServerConnect
    | ServerDisconnect | ForcePsm | GetTimers | GetGnssPosition | AcquireGnssPosition

  /** A request; `wellSized` says whether its frame has the length the dispatcher wants for its type. */
  datatype Request = Request(id: nat, kind: RequestType, wellSized: bool)

  datatype Frame =
    | Reply(req: Request, accepted: bool)
    | Complete(req: Request, result: bool)

  datatype NetPc =
    | Polling
    | Publishing(req: Request)
    | RaisingResponse(req: Request)
    | Working(req: Request)
    | PublishingDone(req: Request, result: bool)
    | RaisingDone

  datatype ClientPc =
    | Ready
    | RaisingRequest(req: Request)
    | AwaitingResponse(req: Request)
    | ReceivingResponse(req: Request)
    | AwaitingDone(req: Request)
    | ReceivingDone(req: Request)

  /** A receive finds no frame, takes one, or consumes one and refuses it for its length. */
  datatype Receipt = Nothing | Received(frame: Frame) | Refused(frame: Frame)

  /** What the client's receives returned, in order. */
  datatype Observation =
    | ReplyRead(req: Request, receipt: Receipt)
    | DoneRead(req: Request, receipt: Receipt)

  datatype System = System(
    tx: seq<Request>, rx: seq<Frame>, flags: set<Bit>,
    net: NetPc, client: ClientPc, nextId: nat, log: seq<Observation>)

  datatype Label =
    | NetworkStep(result: bool)
    | ClientStep(kind: RequestType, wellSized: bool, truth: bool)
    | ClientTimeout

  const INIT := System([], [], {}, Polling, Ready, 0, [])

  predicate Blocking(k: RequestType) {
    k in {ScanNetworks, NetworkConnect, NetworkDisconnect, ServerConnect, ServerDisconnect, ForcePsm,
          AcquireGnssPosition}
  }

  // ---------------------------------------------------------------------------
  // Wire sizes
  // ---------------------------------------------------------------------------

  /** The message types on the response channel, by layout. */
  datatype Shape =
    | OneByte | ShortText | Registration | Signal | Network | Cpsms | TelitConfig | TelitStatus | ServerPointer
    | Configuration | Timers | Position | Oversized

  /** What a typed response of this kind carries. */
  function PayloadOf(k: RequestType): Shape {
    match k
    case GetRegistrationInfo => Registration
    case GetSignalQuality => Signal
    case GetIccid => ShortText
    case GetImsi => ShortText
    case GetClock => ShortText
    case GetNetworkInfo => Network
    case GetCpsmsConfig => Cpsms
    case GetTelitCpsmsConfig => TelitConfig
    case GetTelitCpsmsStatus => TelitStatus
    case GetServerInfoArray => ServerPointer
    case GetConfig => Configuration
    case GetTimers => Timers
    case GetGnssPosition => Position
    case GetModemInfo => Oversized
    case GetNetworkSurveyResult => Oversized
    case GetAvailableOperators => Oversized
    case GetCsurvResult => Oversized
    case _ => OneByte
  }

  const FRAME_MAX: nat := 512

  /** Bytes on the wire, with the layout of a 64-bit target: the flag `ok`, padding, and the payload. */
  function WireSize(s: Shape): nat {
    match s
    case OneByte => 2
    case ServerPointer => 16
    case Signal => 20
    case TelitStatus => 28
    case Timers => 32
    case TelitConfig => 44
    case ShortText => 56
    case Network => 80
    case Cpsms => 208
    case Configuration => 280
    case Position => 376
    case Registration => 432
    case Oversized => FRAME_MAX + 1
  }

  /** A request of the wrong length is answered by a `bool`; a completion has the size of one. */
  function ShapeOf(f: Frame): Shape {
    match f
    case Reply(r, _) => if r.wellSized then PayloadOf(r.kind) else OneByte
    case Complete(_, _) => OneByte
  }

  /** A receive of a message of the wanted shape, given the frame it consumes. */
  function Take(f: Frame, wanted: Shape): Receipt {
    if WireSize(ShapeOf(f)) == WireSize(wanted) then Received(f) else Refused(f)
  }

  lemma {:induction false} SizesDiffer(a: Shape, b: Shape)
    ensures WireSize(a) == WireSize(b) <==> a == b
  {
  }

  /** A reply that is larger than one channel frame is never enqueued. */
  predicate ReplyFits(r: Request) { WireSize(ShapeOf(Reply(r, r.wellSized))) <= FRAME_MAX }

  /** A completion is due for exactly the accepted blocking requests. */
  predicate NeedsCompletion(r: Request) { r.wellSized && Blocking(r.kind) }

  // ---------------------------------------------------------------------------
  // The two threads
  // ---------------------------------------------------------------------------

  /** One step of `process_radio_requests`; `result` is what the radio operation returned. */
  function StepNetwork(s: System, result: bool): System {
    match s.net
    case Polling =>
      if s.tx == [] then s else s.(tx := s.tx[1..], net := Publishing(s.tx[0]))
    case Publishing(r) =>
      var next := if NeedsCompletion(r) then Working(r) else Polling;
      if ReplyFits(r) && |s.rx| < QUEUE_DEPTH
      then s.(rx := s.rx + [Reply(r, r.wellSized)], net := RaisingResponse(r))
      else s.(net := next)
    case RaisingResponse(r) =>
      s.(flags := s.flags + {EvtResponse}, net := if NeedsCompletion(r) then Working(r) else Polling)
    case Working(r) =>
      s.(net := PublishingDone(r, result))
    case PublishingDone(r, res) =>
      if |s.rx| < QUEUE_DEPTH
      then s.(rx := s.rx + [Complete(r, res)], net := RaisingDone)
      else s.(net := Polling)
    case RaisingDone =>
      s.(flags := s.flags + {EvtActionDone}, net := Polling)
  }

  function Receive(rx: seq<Frame>, wanted: Shape): (Receipt, seq<Frame>) {
    if rx == [] then (Nothing, []) else (Take(rx[0], wanted), rx[1..])
  }

  /**
   Whether a frame that was taken for an ACK says yes: the value of a `bool` response, the result of a completion, and
   for an enumeration whatever its byte is (`truth`).
   */
  predicate SaysYes(f: Frame, truth: bool) {
    match f
    case Reply(r, accepted) => if Blocking(r.kind) || r.kind == SetConfig || !r.wellSized then accepted else truth
    case Complete(_, result) => result
  }

  /**
   One step of the client; `kind` and `wellSized` are used when it starts a new request, `truth` when it takes an
   enumeration for an ACK.
   */
  function StepClient(s: System, kind: RequestType, wellSized: bool, truth: bool): System {
    match s.client
    case Ready =>
      var r := Request(s.nextId, kind, wellSized);
      if |s.tx| < QUEUE_DEPTH
      then s.(tx := s.tx + [r], client := RaisingRequest(r), nextId := s.nextId + 1)
      else s
    case RaisingRequest(r) =>
      s.(flags := s.flags + {EvtRequest}, client := AwaitingResponse(r))
    case AwaitingResponse(r) =>
      if EvtResponse in s.flags then s.(flags := s.flags - {EvtResponse}, client := ReceivingResponse(r)) else s
    case ReceivingResponse(r) =>
      var (got, rx') := Receive(s.rx, PayloadOf(r.kind));
      var waits := Blocking(r.kind) && got.Received? && SaysYes(got.frame, truth);
      s.(rx := rx', log := s.log + [ReplyRead(r, got)], client := if waits then AwaitingDone(r) else Ready)
    case AwaitingDone(r) =>
      if EvtActionDone in s.flags then s.(flags := s.flags - {EvtActionDone}, client := ReceivingDone(r)) else s
    case ReceivingDone(r) =>
      var (got, rx') := Receive(s.rx, OneByte);
      s.(rx := rx', log := s.log + [DoneRead(r, got)], client := Ready)
  }

  /** The client is in a wait whose flag is not set. */
  predicate Stalled(s: System) {
    || (s.client.AwaitingResponse? && EvtResponse !in s.flags)
    || (s.client.AwaitingDone? && EvtActionDone !in s.flags)
  }

  /** A bounded wait of the client runs out. */
  function GiveUp(s: System): System {
    if Stalled(s) then s.(client := Ready) else s
  }

  function Step(s: System, l: Label): System {
    match l
    case NetworkStep(result) => StepNetwork(s, result)
    case ClientStep(kind, wellSized, truth) => StepClient(s, kind, wellSized, truth)
    case ClientTimeout => GiveUp(s)
  }

  function Execute(s: System, run: seq<Label>): System
    decreases |run|
  {
    if run == [] then s else Execute(Step(s, run[0]), run[1..])
  }

  // ---------------------------------------------------------------------------
  // The invariant
  // ---------------------------------------------------------------------------

  /** How far the network thread is with request r, once its reply has been signalled; `before` is what is unread. */
  ghost predicate Signalled(s: System, r: Request, before: seq<Frame>) {
    && s.tx == [] && ReplyFits(r)
    && (match s.net
        case Polling =>
          if NeedsCompletion(r)
          then EvtActionDone in s.flags && exists res :: s.rx == before + [Complete(r, res)]
          else EvtActionDone !in s.flags && s.rx == before
        case Working(r') => r' == r && NeedsCompletion(r) && EvtActionDone !in s.flags && s.rx == before
        case PublishingDone(r', _) => r' == r && NeedsCompletion(r) && EvtActionDone !in s.flags && s.rx == before
        case RaisingDone =>
          NeedsCompletion(r) && EvtActionDone !in s.flags && exists res :: s.rx == before + [Complete(r, res)]
        case _ => false)
  }

  /** Requests the client has given up on; they are harmless because their replies are never enqueued. */
  predicate AllLost(q: seq<Request>) { forall x :: x in q ==> !ReplyFits(x) }

  ghost predicate Quiet(s: System) {
    && s.rx == [] && EvtResponse !in s.flags && EvtActionDone !in s.flags
    && (s.net.Polling? || (s.net.Publishing? && !ReplyFits(s.net.req)))
  }

  ghost predicate Unsignalled(s: System, r: Request) {
    || (Quiet(s) && s.tx != [] && s.tx[|s.tx| - 1] == r && AllLost(s.tx[..|s.tx| - 1]))
    || (Quiet(s) && AllLost(s.tx) && !ReplyFits(r))
    || (&& EvtResponse !in s.flags && EvtActionDone !in s.flags && s.tx == []
        && ((s.net == Publishing(r) && s.rx == [])
            || (s.net == RaisingResponse(r) && s.rx == [Reply(r, r.wellSized)] && ReplyFits(r))))
  }

  ghost predicate ReplyUnread(s: System, r: Request) {
    Signalled(s, r, [Reply(r, r.wellSized)])
  }

  ghost predicate Synchronised(s: System) {
    match s.client
    case Ready => Quiet(s) && AllLost(s.tx)
    case RaisingRequest(r) => Unsignalled(s, r) || (EvtResponse in s.flags && ReplyUnread(s, r))
    case AwaitingResponse(r) => Unsignalled(s, r) || (EvtResponse in s.flags && ReplyUnread(s, r))
    case ReceivingResponse(r) => EvtResponse !in s.flags && ReplyUnread(s, r)
    case AwaitingDone(r) => NeedsCompletion(r) && EvtResponse !in s.flags && Signalled(s, r, [])
    case ReceivingDone(r) =>
      && NeedsCompletion(r) && s.tx == [] && s.net == Polling && EvtResponse !in s.flags && EvtActionDone !in s.flags
      && exists res :: s.rx == [Complete(r, res)]
  }

  function Current(c: ClientPc): seq<Request> {
    match c
    case Ready => []
    case RaisingRequest(r) => [r]
    case AwaitingResponse(r) => [r]
    case ReceivingResponse(r) => [r]
    case AwaitingDone(r) => [r]
    case ReceivingDone(r) => [r]
  }

  /**
   The receive consumed the frame of its own request, and took it unless the request was of the wrong length and its
   answer therefore is; completions are read only where one is due.
   */
  ghost predicate GoodRead(o: Observation) {
    match o
    case ReplyRead(r, got) => got == Take(Reply(r, r.wellSized), PayloadOf(r.kind))
    case DoneRead(r, got) => NeedsCompletion(r) && (exists res :: got == Received(Complete(r, res)))
  }

  /** After the ACK of a request that needs a completion comes that completion; after anything else, a new reply. */
  predicate Follows(a: Observation, b: Observation) {
    if a.ReplyRead? && NeedsCompletion(a.req) then b.DoneRead? && b.req == a.req else b.ReplyRead?
  }

  /** The log as a whole: good reads, in the right order, ending where the client stands. */
  ghost predicate Faithful(log: seq<Observation>, c: ClientPc) {
    && (forall i :: 0 <= i < |log| ==> GoodRead(log[i]))
    && (forall i :: 0 < i < |log| ==> Follows(log[i - 1], log[i]))
    && (log != [] ==> log[0].ReplyRead?)
    && var owed := log != [] && log[|log| - 1].ReplyRead? && NeedsCompletion(log[|log| - 1].req);
       && owed == (c.AwaitingDone? || c.ReceivingDone?)
       && (owed ==> log[|log| - 1].req == c.req)
  }

  /** Requests are answered once: the ids of the read replies increase and stay below the next id. */
  ghost predicate Fresh(log: seq<Observation>, c: ClientPc, nextId: nat) {
    && (forall i, j :: 0 <= i < j < |log| && log[i].ReplyRead? && log[j].ReplyRead? ==> log[i].req.id < log[j].req.id)
    && (forall i :: 0 <= i < |log| ==> log[i].req.id < nextId)
    && (forall r :: r in Current(c) ==> r.id < nextId)
    && (c.RaisingRequest? || c.AwaitingResponse? || c.ReceivingResponse? ==>
          forall i :: 0 <= i < |log| ==> log[i].req.id < c.req.id)
  }

  ghost predicate Inv(s: System) {
    Synchronised(s) && Faithful(s.log, s.client) && Fresh(s.log, s.client, s.nextId)
  }

  lemma {:induction false} NetworkKeepsSync(s: System, result: bool)
    requires Synchronised(s)
    ensures Synchronised(StepNetwork(s, result))
  {
    var s' := StepNetwork(s, result);
    match s.net
    case PublishingDone(r, res) =>
      assert s'.rx == s.rx + [Complete(r, res)];
      assert [] + [Complete(r, res)] == [Complete(r, res)];
    case _ =>
  }

  lemma {:induction false} NetworkKeepsInv(s: System, result: bool)
    requires Inv(s)
    ensures Inv(StepNetwork(s, result))
  {
    NetworkKeepsSync(s, result);
    var s' := StepNetwork(s, result);
    assert s'.log == s.log && s'.client == s.client && s'.nextId == s.nextId;
  }

  lemma {:induction false} ClientKeepsSync(s: System, kind: RequestType, wellSized: bool, truth: bool)
    requires Synchronised(s)
    ensures Synchronised(StepClient(s, kind, wellSized, truth))
  {
    var s' := StepClient(s, kind, wellSized, truth);
    match s.client
    case ReceivingResponse(r) =>
      if NeedsCompletion(r) && (s.net.Polling? || s.net.RaisingDone?) {
        var res :| s.rx == [Reply(r, r.wellSized)] + [Complete(r, res)];
        assert s'.rx == [] + [Complete(r, res)];
      }
    case AwaitingDone(r) =>
      if EvtActionDone in s.flags {
        var res :| s.rx == [] + [Complete(r, res)];
        assert s'.rx == [Complete(r, res)];
      }
    case _ =>
  }

  lemma {:induction false} ClientReads(s: System, kind: RequestType, wellSized: bool, truth: bool)
    requires Synchronised(s)
    ensures s.client.ReceivingResponse? ==>
              var r := s.client.req;
              StepClient(s, kind, wellSized, truth).log
                  == s.log + [ReplyRead(r, Take(Reply(r, r.wellSized), PayloadOf(r.kind)))]
    ensures s.client.ReceivingDone? ==>
              exists res :: StepClient(s, kind, wellSized, truth).log
                            == s.log + [DoneRead(s.client.req, Received(Complete(s.client.req, res)))]
  {
    if s.client.ReceivingDone? {
      var r := s.client.req;
      var res :| s.rx == [Complete(r, res)];
      assert Receive(s.rx, OneByte).0 == Received(Complete(r, res));
    }
  }

  /** What a client step does to log and program counter; the frames read are the right ones. */
  ghost predicate Proceeds(s: System, s': System) {
    match s.client
    case Ready =>
      && s'.log == s.log
      && (s' == s || (s'.client.RaisingRequest? && s'.client.req.id == s.nextId == s'.nextId - 1))
    case RaisingRequest(r) => s'.log == s.log && s'.client == AwaitingResponse(r) && s'.nextId == s.nextId
    case AwaitingResponse(r) =>
      s'.log == s.log && (s'.client == s.client || s'.client == ReceivingResponse(r)) && s'.nextId == s.nextId
    case ReceivingResponse(r) =>
      && s'.log == s.log + [ReplyRead(r, Take(Reply(r, r.wellSized), PayloadOf(r.kind)))] && s'.nextId == s.nextId
      && s'.client == if NeedsCompletion(r) then AwaitingDone(r) else Ready
    case AwaitingDone(r) =>
      s'.log == s.log && (s'.client == s.client || s'.client == ReceivingDone(r)) && s'.nextId == s.nextId
    case ReceivingDone(r) =>
      && NeedsCompletion(r) && s'.client == Ready && s'.nextId == s.nextId
      && exists res :: s'.log == s.log + [DoneRead(r, Received(Complete(r, res)))]
  }

  lemma {:induction false} ClientProceeds(s: System, kind: RequestType, wellSized: bool, truth: bool)
    requires Synchronised(s)
    ensures Proceeds(s, StepClient(s, kind, wellSized, truth))
  {
    ClientReads(s, kind, wellSized, truth);
  }

  lemma {:induction false} ReadReply(log: seq<Observation>, c: ClientPc, r: Request, o: Observation, c': ClientPc)
    requires Faithful(log, c) && !c.AwaitingDone? && !c.ReceivingDone?
    requires o.ReplyRead? && o.req == r && GoodRead(o)
    requires c' == if NeedsCompletion(r) then AwaitingDone(r) else Ready
    ensures Faithful(log + [o], c')
  {
    var log' := log + [o];
    assert forall i :: 0 <= i < |log| ==> log'[i] == log[i];
    assert log != [] ==> Follows(log[|log| - 1], o);
  }

  lemma {:induction false} ReadDone(log: seq<Observation>, r: Request, o: Observation)
    requires Faithful(log, ReceivingDone(r)) && o.DoneRead? && o.req == r && GoodRead(o)
    ensures Faithful(log + [o], Ready)
  {
  }

  lemma {:induction false} ProceedingKeepsFaithful(s: System, s': System)
    requires Proceeds(s, s') && Faithful(s.log, s.client)
    ensures Faithful(s'.log, s'.client)
  {
    match s.client
    case ReceivingResponse(r) =>
      ReadReply(s.log, s.client, r, ReplyRead(r, Take(Reply(r, r.wellSized), PayloadOf(r.kind))), s'.client);
    case ReceivingDone(r) =>
      var res :| s'.log == s.log + [DoneRead(r, Received(Complete(r, res)))];
      var o := DoneRead(r, Received(Complete(r, res)));
      assert GoodRead(o);
      ReadDone(s.log, r, o);
    case _ =>
  }

  lemma {:induction false} ProceedingKeepsFresh(s: System, s': System)
    requires Proceeds(s, s') && Fresh(s.log, s.client, s.nextId)
    ensures Fresh(s'.log, s'.client, s'.nextId)
  {
    assert s.client.Ready? || s.client.req in Current(s.client);
  }

  lemma {:induction false} ClientKeepsInv(s: System, kind: RequestType, wellSized: bool, truth: bool)
    requires Inv(s)
    ensures Inv(StepClient(s, kind, wellSized, truth))
  {
    ClientKeepsSync(s, kind, wellSized, truth);
    ClientProceeds(s, kind, wellSized, truth);
    ProceedingKeepsFaithful(s, StepClient(s, kind, wellSized, truth));
    ProceedingKeepsFresh(s, StepClient(s, kind, wellSized, truth));
  }

  lemma {:induction false} LostTimeoutKeepsInv(s: System)
    requires Inv(s)
    requires Stalled(s) ==> s.client.AwaitingResponse? && !ReplyFits(s.client.req)
    ensures Inv(GiveUp(s))
  {
    if Stalled(s) && s.tx != [] && AllLost(s.tx[..|s.tx| - 1]) && s.tx[|s.tx| - 1] == s.client.req {
      assert s.tx == s.tx[..|s.tx| - 1] + [s.client.req];
    }
  }

  /** In this run every wait that runs out was for a reply that is too large to be published. */
  ghost predicate OnlyLostWaitsRunOut(s: System, run: seq<Label>)
    decreases |run|
  {
    run != [] ==>
      && (run[0].ClientTimeout? && Stalled(s) ==> s.client.AwaitingResponse? && !ReplyFits(s.client.req))
      && OnlyLostWaitsRunOut(Step(s, run[0]), run[1..])
  }

  /**
   Every interleaving of the two threads keeps the protocol synchronised, as long as the client waits out every reply
   that can be published: each signalled receive finds the frame of its own request.
   */
  lemma {:induction false} RunsAreFaithful(s: System, run: seq<Label>)
    requires Inv(s)
    requires OnlyLostWaitsRunOut(s, run)
    ensures Inv(Execute(s, run))
    decreases |run|
  {
    if run != [] {
      match run[0] {
        case NetworkStep(result) => NetworkKeepsInv(s, result);
        case ClientStep(kind, wellSized, truth) => ClientKeepsInv(s, kind, wellSized, truth);
        case ClientTimeout => LostTimeoutKeepsInv(s);
      }
      RunsAreFaithful(Step(s, run[0]), run[1..]);
    }
  }

  /** From the start, whatever the interleaving: each read is good and the reads come in protocol order. */
  lemma {:induction false} EveryReadIsItsOwn(run: seq<Label>, i: nat)
    requires OnlyLostWaitsRunOut(INIT, run)
    requires i < |Execute(INIT, run).log|
    ensures GoodRead(Execute(INIT, run).log[i])
    ensures Execute(INIT, run).log[i].req.wellSized ==> Execute(INIT, run).log[i].receipt.Received?
    ensures i > 0 ==> Follows(Execute(INIT, run).log[i - 1], Execute(INIT, run).log[i])
    ensures forall j :: i < j < |Execute(INIT, run).log| && Execute(INIT, run).log[i].ReplyRead?
                        && Execute(INIT, run).log[j].ReplyRead? ==>
                          Execute(INIT, run).log[i].req.id < Execute(INIT, run).log[j].req.id
  {
    RunsAreFaithful(INIT, run);
  }

  /** The response channel holds at most an ACK and its completion, so neither is ever refused. */
  lemma {:induction false} RepliesAreNeverRefused(run: seq<Label>)
    requires OnlyLostWaitsRunOut(INIT, run)
    ensures |Execute(INIT, run).rx| <= 2
  {
    RunsAreFaithful(INIT, run);
  }

  // ---------------------------------------------------------------------------
  // The condition is exact: after any other timeout a later request can take a frame that is not its own
  // ---------------------------------------------------------------------------

  lemma {:induction false} ExecuteConcat(s: System, a: seq<Label>, b: seq<Label>)
    ensures Execute(s, a + b) == Execute(Execute(s, a), b)
    decreases |a|
  {
    if a == [] {
      assert a + b == b;
    } else {
      assert (a + b)[1..] == a[1..] + b;
      ExecuteConcat(Step(s, a[0]), a[1..], b);
    }
  }

  /** A foreign frame was taken: it passed the length check of another request's receive. */
  predicate Misread(o: Observation) { o.receipt.Received? && o.receipt.frame.req != o.req }

  ghost predicate AFrameIsMisread(s: System) { exists i :: 0 <= i < |s.log| && Misread(s.log[i]) }

  predicate Waitless(run: seq<Label>) { ClientTimeout !in run }

  lemma {:induction false} WaitlessConcat(a: seq<Label>, b: seq<Label>)
    requires Waitless(a) && Waitless(b)
    ensures Waitless(a + b)
  {
  }

  lemma {:induction false} GoodIsNotMisread(o: Observation)
    requires GoodRead(o)
    ensures !Misread(o)
  {
  }

  /** Left alone, the network thread gets to the point where the reply of a publishable r is first and signalled. */
  lemma {:induction false} ReplyGetsSignalled(s: System, r: Request) returns (run: seq<Label>)
    requires s.client.Ready? && Unsignalled(s, r) && ReplyFits(r)
    ensures Waitless(run)
    ensures var s' := Execute(s, run);
            && s'.client.Ready? && s'.log == s.log && s'.nextId == s.nextId && s'.tx == []
            && EvtResponse in s'.flags && s'.rx == [Reply(r, r.wellSized)]
    decreases 2 * |s.tx| + if s.net.Publishing? then 1 else 0
  {
    var l := NetworkStep(true);
    var s1 := Step(s, l);
    if s.net == RaisingResponse(r) {
      run := [l];
      assert Execute(s, [l]) == s1;
    } else {
      var rest := ReplyGetsSignalled(s1, r);
      run := [l] + rest;
      ExecuteConcat(s, [l], rest);
      assert Execute(s, [l]) == s1;
    }
  }

  /** A step of a client that asks for `kind` with a request of the right length. */
  function Ask(kind: RequestType): Label { ClientStep(kind, true, true) }

  const SERVE := NetworkStep(true)

  lemma {:induction false} Unfold2(s: System, a: Label, b: Label)
    ensures Execute(s, [a, b]) == Step(Step(s, a), b)
  {
    ExecuteConcat(s, [a], [b]);
    assert [a, b] == [a] + [b];
  }

  /** The last thing that happened: a request of this kind consumed frame f, with this outcome. */
  ghost predicate JustRead(s: System, log: seq<Observation>, id: nat, kind: RequestType, f: Frame) {
    s.log == log + [ReplyRead(Request(id, kind, true), Take(f, PayloadOf(kind)))]
  }

  /** The last read is of this kind, consumed frame f, and took it exactly when the shapes agree. */
  ghost predicate LastRead(t: System, kind: RequestType, f: Frame) {
    && t.log != []
    && var o := t.log[|t.log| - 1];
       && o.req.kind == kind && o.req != f.req
       && o.receipt == if PayloadOf(kind) == ShapeOf(f) then Received(f) else Refused(f)
  }

  lemma {:induction false} JustReadIsLast(t: System, log: seq<Observation>, id: nat, kind: RequestType, f: Frame)
    requires JustRead(t, log, id, kind, f) && f.req.id != id
    ensures LastRead(t, kind, f)
  {
    SizesDiffer(ShapeOf(f), PayloadOf(kind));
  }

  function Asking(kind: RequestType): (run: seq<Label>)
    ensures Waitless(run)
  {
    [Ask(kind), Ask(kind)] + [Ask(kind), Ask(kind)]
  }

  /**
   A client that asks anew while a foreign frame is first in the channel and a response is signalled reads that frame.
   */
  lemma {:induction false} AskingReads(s: System, kind: RequestType)
    requires s.client.Ready? && s.tx == [] && EvtResponse in s.flags && s.rx != []
    ensures JustRead(Execute(s, Asking(kind)), s.log, s.nextId, kind, s.rx[0])
  {
    var a := Ask(kind);
    ExecuteConcat(s, [a, a], [a, a]);
    Unfold2(s, a, a);
    var r := Request(s.nextId, kind, true);
    var s2 := Execute(s, [a, a]);
    assert s2.client == AwaitingResponse(r) && EvtResponse in s2.flags && s2.rx == s.rx && s2.log == s.log;
    Unfold2(s2, a, a);
  }

  function AskingPast(kind: RequestType): (run: seq<Label>)
    ensures Waitless(run)
  {
    [Ask(kind), Ask(kind)] + ([SERVE, SERVE] + ([SERVE, Ask(kind)] + [Ask(kind)]))
  }

  /** The same without a signal, once the new request is answered behind that frame. */
  lemma {:induction false} AskingPastReads(s: System, kind: RequestType)
    requires s.client.Ready? && s.tx == [] && s.net.Polling? && |s.rx| == 1
    requires ReplyFits(Request(s.nextId, kind, true))
    ensures JustRead(Execute(s, AskingPast(kind)), s.log, s.nextId, kind, s.rx[0])
  {
    var r := Request(s.nextId, kind, true);
    var a := Ask(kind);
    Unfold2(s, a, a);
    var s2 := Execute(s, [a, a]);
    Unfold2(s2, SERVE, SERVE);
    var s3 := Execute(s2, [SERVE, SERVE]);
    assert s3.net == RaisingResponse(r) && s3.rx == s.rx + [Reply(r, true)];
    Unfold2(s3, SERVE, a);
    var s4 := Execute(s3, [SERVE, a]);
    assert Execute(s4, [a]) == Step(s4, a);
    ExecuteConcat(s3, [SERVE, a], [a]);
    ExecuteConcat(s2, [SERVE, SERVE], [SERVE, a] + [a]);
    ExecuteConcat(s, [a, a], [SERVE, SERVE] + ([SERVE, a] + [a]));
  }

  /**
   A wait for a publishable reply that runs out can be followed, without any further timeout, by a request of any kind
   that reads the abandoned reply; it takes it if and only if the two have the same shape, and refuses it otherwise.
   */
  lemma {:induction false} AbandonedReplyIsRead(s: System, kind: RequestType) returns (run: seq<Label>)
    requires Inv(s) && Stalled(s) && s.client.AwaitingResponse? && ReplyFits(s.client.req)
    ensures Waitless(run) && LastRead(Execute(GiveUp(s), run), kind, Reply(s.client.req, s.client.req.wellSized))
  {
    var r := s.client.req;
    var g := GiveUp(s);
    assert r in Current(s.client);
    var p := ReplyGetsSignalled(g, r);
    var s1 := Execute(g, p);
    AskingReads(s1, kind);
    run := p + Asking(kind);
    WaitlessConcat(p, Asking(kind));
    ExecuteConcat(g, p, Asking(kind));
    JustReadIsLast(Execute(g, run), s1.log, s1.nextId, kind, Reply(r, r.wellSized));
  }

  /** Left alone, the network thread publishes and signals the completion it is working on. */
  lemma {:induction false} CompletionGetsPublished(s: System, r: Request) returns (run: seq<Label>)
    requires s.client.Ready? && Signalled(s, r, []) && NeedsCompletion(r) && EvtActionDone !in s.flags
    ensures Waitless(run)
    ensures var s' := Execute(s, run);
            && s'.client.Ready? && s'.log == s.log && s'.nextId == s.nextId && s'.tx == [] && s'.net.Polling?
            && exists res :: s'.rx == [Complete(r, res)]
    decreases s.net.Working?, s.net.PublishingDone?
  {
    var l := NetworkStep(true);
    var s1 := Step(s, l);
    assert Execute(s, [l]) == s1;
    if s.net.RaisingDone? {
      run := [l];
      var res :| s.rx == [] + [Complete(r, res)];
      assert s1.rx == [Complete(r, res)];
    } else {
      if s.net.PublishingDone? { assert s1.rx == [] + [Complete(r, s.net.result)]; }
      var rest := CompletionGetsPublished(s1, r);
      run := [l] + rest;
      ExecuteConcat(s, [l], rest);
    }
  }

  lemma {:induction false} CompletionIsFirst(s: System) returns (run: seq<Label>, s': System)
    requires Inv(s) && Stalled(s) && s.client.AwaitingDone?
    ensures Waitless(run) && Execute(GiveUp(s), run) == s'
    ensures s'.client.Ready? && s'.tx == [] && s'.net.Polling? && |s'.rx| == 1
    ensures s'.rx[0].Complete? && s'.rx[0].req == s.client.req && s.client.req.id < s'.nextId
  {
    assert s.client.req in Current(s.client);
    run := CompletionGetsPublished(GiveUp(s), s.client.req);
    s' := Execute(GiveUp(s), run);
  }

  /**
   The same for a wait for a completion: a later publishable request takes the abandoned notice for its own response if
   and only if that response is of two bytes, and refuses it otherwise.
   */
  lemma {:induction false} AbandonedCompletionIsRead(s: System, kind: RequestType) returns (run: seq<Label>, f: Frame)
    requires Inv(s) && Stalled(s) && s.client.AwaitingDone? && PayloadOf(kind) != Oversized
    ensures Waitless(run)
    ensures f.Complete? && f.req == s.client.req && LastRead(Execute(GiveUp(s), run), kind, f)
  {
    var p, s1 := CompletionIsFirst(s);
    f := s1.rx[0];
    AskingPastReads(s1, kind);
    run := p + AskingPast(kind);
    WaitlessConcat(p, AskingPast(kind));
    ExecuteConcat(GiveUp(s), p, AskingPast(kind));
    JustReadIsLast(Execute(GiveUp(s), run), s1.log, s1.nextId, kind, f);
  }

  /**
   A kind whose response has the shape of the abandoned reply: its own, or a `bool` for a request of the wrong length.
   */
  function SameShape(r: Request): (k: RequestType)
    ensures PayloadOf(k) == ShapeOf(Reply(r, r.wellSized))
  {
    if r.wellSized then r.kind else NetworkConnect
  }

  /**
   Exactly when giving up is safe: a wait that runs out leaves every later run without timeouts free of misread frames
   if and only if it was waiting for a reply too large to be published.
   */
  lemma {:induction false} GivingUpIsSafeIffReplyIsLost(s: System)
    requires Inv(s) && Stalled(s)
    ensures (forall run :: Waitless(run) ==> !AFrameIsMisread(Execute(GiveUp(s), run)))
            <==> (s.client.AwaitingResponse? && !ReplyFits(s.client.req))
  {
    if s.client.AwaitingResponse? && !ReplyFits(s.client.req) {
      forall run | Waitless(run) ensures !AFrameIsMisread(Execute(GiveUp(s), run)) { LostIsSafe(s, run); }
    } else if s.client.AwaitingResponse? {
      var run := ReplyIsMisread(s);
    } else {
      var run := CompletionIsMisread(s);
    }
  }

  lemma {:induction false} LostIsSafe(s: System, run: seq<Label>)
    requires Inv(s) && Stalled(s) && s.client.AwaitingResponse? && !ReplyFits(s.client.req) && Waitless(run)
    ensures !AFrameIsMisread(Execute(GiveUp(s), run))
  {
    LostTimeoutKeepsInv(s);
    WaitlessIsAllowed(GiveUp(s), run);
    RunsAreFaithful(GiveUp(s), run);
    NoMisreads(Execute(GiveUp(s), run));
  }

  lemma {:induction false} ReplyIsMisread(s: System) returns (run: seq<Label>)
    requires Inv(s) && Stalled(s) && s.client.AwaitingResponse? && ReplyFits(s.client.req)
    ensures Waitless(run) && AFrameIsMisread(Execute(GiveUp(s), run))
  {
    var r := s.client.req;
    var k := SameShape(r);
    run := AbandonedReplyIsRead(s, k);
    LastIsMisread(Execute(GiveUp(s), run), k, Reply(r, r.wellSized));
  }

  lemma {:induction false} CompletionIsMisread(s: System) returns (run: seq<Label>)
    requires Inv(s) && Stalled(s) && s.client.AwaitingDone?
    ensures Waitless(run) && AFrameIsMisread(Execute(GiveUp(s), run))
  {
    var f: Frame;
    run, f := AbandonedCompletionIsRead(s, NetworkConnect);
    LastIsMisread(Execute(GiveUp(s), run), NetworkConnect, f);
  }

  lemma {:induction false} LastIsMisread(s: System, kind: RequestType, f: Frame)
    requires LastRead(s, kind, f) && PayloadOf(kind) == ShapeOf(f)
    ensures AFrameIsMisread(s)
  {
    assert Misread(s.log[|s.log| - 1]);
  }

  lemma {:induction false} NoMisreads(s: System)
    requires Inv(s)
    ensures !AFrameIsMisread(s)
  {
    forall i | 0 <= i < |s.log| ensures !Misread(s.log[i]) { GoodIsNotMisread(s.log[i]); }
  }

  lemma {:induction false} WaitlessIsAllowed(s: System, run: seq<Label>)
    requires Waitless(run)
    ensures OnlyLostWaitsRunOut(s, run)
    decreases |run|
  {
    if run != [] {
      assert run[0] in run;
      WaitlessIsAllowed(Step(s, run[0]), run[1..]);
    }
  }

  // ---------------------------------------------------------------------------
  // Both kinds of stalled wait are reached from the start
  // ---------------------------------------------------------------------------

  lemma {:induction false} InvAfter(run: seq<Label>)
    requires Waitless(run)
    ensures Inv(Execute(INIT, run))
  {
    WaitlessIsAllowed(INIT, run);
    RunsAreFaithful(INIT, run);
  }

  /** Two steps of the client, whatever it asks for. */
  lemma {:induction false} StallsForReply(kind: RequestType)
    ensures var s := Execute(INIT, [Ask(kind), Ask(kind)]);
            Inv(s) && Stalled(s) && s.client == AwaitingResponse(Request(0, kind, true))
  {
    Unfold2(INIT, Ask(kind), Ask(kind));
    InvAfter([Ask(kind), Ask(kind)]);
  }

  lemma {:induction false} Acknowledged(kind: RequestType, a: Label) returns (s: System)
    requires Blocking(kind) && a == Ask(kind)
    ensures Execute(INIT, [a, a] + [SERVE, SERVE]) == s
    ensures var r := Request(0, kind, true);
            && s.rx == [Reply(r, true)] && s.net == RaisingResponse(r) && s.client == AwaitingResponse(r)
            && s.flags <= {EvtRequest} && s.log == [] && s.tx == []
  {
    ExecuteConcat(INIT, [a, a], [SERVE, SERVE]);
    Unfold2(INIT, a, a);
    Unfold2(Execute(INIT, [a, a]), SERVE, SERVE);
    s := Execute(INIT, [a, a] + [SERVE, SERVE]);
  }

  lemma {:induction false} AckTaken(s: System, kind: RequestType, a: Label) returns (s': System)
    requires Blocking(kind) && a == Ask(kind)
    requires var r := Request(0, kind, true);
             && s.rx == [Reply(r, true)] && s.net == RaisingResponse(r) && s.client == AwaitingResponse(r)
             && s.flags <= {EvtRequest} && s.log == [] && s.tx == []
    ensures Execute(s, [SERVE, a] + [a]) == s' && Stalled(s') && s'.client == AwaitingDone(Request(0, kind, true))
    ensures var r := Request(0, kind, true);
            s'.net == Working(r) && s'.rx == [] && s'.tx == [] && s'.log == [ReplyRead(r, Received(Reply(r, true)))]
  {
    ExecuteConcat(s, [SERVE, a], [a]);
    Unfold2(s, SERVE, a);
    var s1 := Execute(s, [SERVE, a]);
    assert Execute(s1, [a]) == Step(s1, a);
    s' := Execute(s, [SERVE, a] + [a]);
  }

  /** A blocking request up to its ACK: the wait for the completion stalls. */
  lemma {:induction false} StallsForCompletion(kind: RequestType, a: Label)
    requires Blocking(kind) && a == Ask(kind)
    ensures var s := Execute(INIT, ([a, a] + [SERVE, SERVE]) + ([SERVE, a] + [a]));
            Inv(s) && Stalled(s) && s.client == AwaitingDone(Request(0, kind, true))
  {
    var s1 := Acknowledged(kind, a);
    var s2 := AckTaken(s1, kind, a);
    ExecuteConcat(INIT, [a, a] + [SERVE, SERVE], [SERVE, a] + [a]);
    InvAfter(([a, a] + [SERVE, SERVE]) + ([SERVE, a] + [a]));
  }

  // ---------------------------------------------------------------------------
  // Where requests, replies and results come from
  // ---------------------------------------------------------------------------

  /** Some step of the run sent this request: the client was ready, had reached this id, and chose this kind. */
  ghost predicate SentIn(run: seq<Label>, r: Request) {
    exists k :: 0 <= k < |run| && SentBy(Execute(INIT, run[..k]), run[k], r)
  }

  predicate SentBy(s: System, l: Label, r: Request) {
    s.client.Ready? && r.id == s.nextId && l.ClientStep? && l.kind == r.kind && l.wellSized == r.wellSized
  }

  /** Some step of the run was the radio operation of this request, and it returned this result. */
  ghost predicate ReturnedIn(run: seq<Label>, r: Request, result: bool) {
    exists k :: 0 <= k < |run| && Execute(INIT, run[..k]).net == Working(r) && run[k] == NetworkStep(result)
  }

  ghost predicate FrameHasOrigin(run: seq<Label>, f: Frame) {
    match f
    case Reply(r, accepted) => SentIn(run, r) && accepted == r.wellSized
    case Complete(r, result) => SentIn(run, r) && ReturnedIn(run, r, result)
  }

  ghost predicate NetHasOrigin(run: seq<Label>, n: NetPc) {
    match n
    case Polling => true
    case Publishing(r) => SentIn(run, r)
    case RaisingResponse(r) => SentIn(run, r)
    case Working(r) => SentIn(run, r)
    case PublishingDone(r, result) => SentIn(run, r) && ReturnedIn(run, r, result)
    case RaisingDone => true
  }

  ghost predicate ReadHasOrigin(run: seq<Label>, o: Observation) {
    SentIn(run, o.req) && (!o.receipt.Nothing? ==> FrameHasOrigin(run, o.receipt.frame))
  }

  ghost predicate HasOrigins(run: seq<Label>, s: System) {
    && (forall i :: 0 <= i < |s.tx| ==> SentIn(run, s.tx[i]))
    && (forall i :: 0 <= i < |s.rx| ==> FrameHasOrigin(run, s.rx[i]))
    && (forall i :: 0 <= i < |s.log| ==> ReadHasOrigin(run, s.log[i]))
    && NetHasOrigin(run, s.net) && (forall r :: r in Current(s.client) ==> SentIn(run, r))
  }

  lemma {:induction false} SentStays(run: seq<Label>, l: Label, r: Request)
    requires SentIn(run, r)
    ensures SentIn(run + [l], r)
  {
    var k :| 0 <= k < |run| && SentBy(Execute(INIT, run[..k]), run[k], r);
    assert (run + [l])[..k] == run[..k] && (run + [l])[k] == run[k];
  }

  lemma {:induction false} ReturnedStays(run: seq<Label>, l: Label, r: Request, result: bool)
    requires ReturnedIn(run, r, result)
    ensures ReturnedIn(run + [l], r, result)
  {
    var k :| 0 <= k < |run| && Execute(INIT, run[..k]).net == Working(r) && run[k] == NetworkStep(result);
    assert (run + [l])[..k] == run[..k] && (run + [l])[k] == run[k];
  }

  lemma {:induction false} FrameStays(run: seq<Label>, l: Label, f: Frame)
    requires FrameHasOrigin(run, f)
    ensures FrameHasOrigin(run + [l], f)
  {
    SentStays(run, l, f.req);
    if f.Complete? { ReturnedStays(run, l, f.req, f.result); }
  }

  lemma {:induction false} OriginsStay(run: seq<Label>, l: Label, s: System)
    requires HasOrigins(run, s)
    ensures HasOrigins(run + [l], s)
  {
    var run' := run + [l];
    forall i | 0 <= i < |s.tx| ensures SentIn(run', s.tx[i]) { SentStays(run, l, s.tx[i]); }
    forall i | 0 <= i < |s.rx| ensures FrameHasOrigin(run', s.rx[i]) { FrameStays(run, l, s.rx[i]); }
    forall i | 0 <= i < |s.log| ensures ReadHasOrigin(run', s.log[i]) {
      SentStays(run, l, s.log[i].req);
      if !s.log[i].receipt.Nothing? { FrameStays(run, l, s.log[i].receipt.frame); }
    }
    forall r | r in Current(s.client) ensures SentIn(run', r) { SentStays(run, l, r); }
    match s.net
    case Polling =>
    case RaisingDone =>
    case Publishing(r) => SentStays(run, l, r);
    case RaisingResponse(r) => SentStays(run, l, r);
    case Working(r) => SentStays(run, l, r);
    case PublishingDone(r, result) =>
      SentStays(run, l, r);
      ReturnedStays(run, l, r, result);
  }

  /** The step just taken is the last of the run. */
  lemma {:induction false} JustTaken(run: seq<Label>, l: Label)
    ensures forall r :: SentBy(Execute(INIT, run), l, r) ==> SentIn(run + [l], r)
    ensures forall r, result :: Execute(INIT, run).net == Working(r) && l == NetworkStep(result) ==>
              ReturnedIn(run + [l], r, result)
  {
    var k := |run|;
    assert (run + [l])[..k] == run && (run + [l])[k] == l;
  }

  lemma {:induction false} NetworkHasOrigins(run: seq<Label>, s: System, l: Label)
    requires s == Execute(INIT, run) && HasOrigins(run, s) && l.NetworkStep?
    ensures HasOrigins(run + [l], Step(s, l))
  {
    OriginsStay(run, l, s);
    JustTaken(run, l);
  }

  lemma {:induction false} ClientHasOrigins(run: seq<Label>, s: System, l: Label)
    requires s == Execute(INIT, run) && HasOrigins(run, s) && !l.NetworkStep?
    ensures HasOrigins(run + [l], Step(s, l))
  {
    OriginsStay(run, l, s);
    JustTaken(run, l);
    assert s.client.Ready? || s.client.req in Current(s.client);
  }

  lemma {:induction false} RunsHaveOrigins(run: seq<Label>)
    ensures HasOrigins(run, Execute(INIT, run))
    decreases |run|
  {
    if run != [] {
      var before, l := run[..|run| - 1], run[|run| - 1];
      RunsHaveOrigins(before);
      assert run == before + [l];
      ExecuteConcat(INIT, before, [l]);
      var s := Execute(INIT, before);
      assert Execute(s, [l]) == Step(s, l);
      if l.NetworkStep? { NetworkHasOrigins(before, s, l); } else { ClientHasOrigins(before, s, l); }
    }
  }

  /**
   On every run, also with timeouts: every frame that is read answers a request that was sent with that kind and length,
   an ACK says whether the length was right, and a completion carries what that request's own radio operation returned.
   */
  lemma {:induction false} ResultsAreGenuine(run: seq<Label>, i: nat)
    requires i < |Execute(INIT, run).log|
    ensures var o := Execute(INIT, run).log[i];
            && SentIn(run, o.req)
            && (!o.receipt.Nothing? ==>
                  match o.receipt.frame
                  case Reply(r, accepted) => SentIn(run, r) && accepted == r.wellSized
                  case Complete(r, result) => SentIn(run, r) && ReturnedIn(run, r, result))
  {
    RunsHaveOrigins(run);
    assert ReadHasOrigin(run, Execute(INIT, run).log[i]);
  }

  /** In particular, under the protocol's discipline, the result a client is told is that of its own operation. */
  lemma {:induction false} ToldItsOwnResult(run: seq<Label>, i: nat)
    requires OnlyLostWaitsRunOut(INIT, run) && i < |Execute(INIT, run).log| && Execute(INIT, run).log[i].DoneRead?
    ensures var o := Execute(INIT, run).log[i];
            && o.receipt.Received? && o.receipt.frame.Complete? && o.receipt.frame.req == o.req
            && ReturnedIn(run, o.req, o.receipt.frame.result)
  {
    EveryReadIsItsOwn(run, i);
    ResultsAreGenuine(run, i);
  }

  // ---------------------------------------------------------------------------
  // A whole exchange
  // ---------------------------------------------------------------------------

  /** The network thread's part of a blocking request that has been acknowledged: work, enqueue, signal. */
  lemma {:induction false} WorkIsDone(s: System, r: Request, result: bool) returns (s': System)
    requires s.net == Working(r) && s.client == AwaitingDone(r) && s.rx == []
    ensures Execute(s, [NetworkStep(result), SERVE] + [SERVE]) == s'
    ensures s'.rx == [Complete(r, result)] && EvtActionDone in s'.flags && s'.client == s.client && s'.log == s.log
    ensures s'.tx == s.tx
  {
    ExecuteConcat(s, [NetworkStep(result), SERVE], [SERVE]);
    Unfold2(s, NetworkStep(result), SERVE);
    var s1 := Execute(s, [NetworkStep(result), SERVE]);
    assert Execute(s1, [SERVE]) == Step(s1, SERVE);
    s' := Step(s1, SERVE);
    assert [] + [Complete(r, result)] == [Complete(r, result)];
  }

  lemma {:induction false} ResultTaken(s: System, r: Request, result: bool, a: Label)
    requires s.client == AwaitingDone(r) && EvtActionDone in s.flags && s.rx == [Complete(r, result)] && a.ClientStep?
    ensures var s' := Execute(s, [a, a]);
            && s'.log == s.log + [DoneRead(r, Received(Complete(r, result)))] && s'.client == Ready && s'.rx == []
            && s'.tx == s.tx
  {
    Unfold2(s, a, a);
  }

  /** A blocking request from the start, whatever its operation returns: ACK, result, and the client is ready again. */
  lemma {:induction false} BlockingRoundTrip(kind: RequestType, result: bool, a: Label)
    requires kind in {ScanNetworks, NetworkConnect, NetworkDisconnect, ServerConnect, ServerDisconnect, ForcePsm,
                      AcquireGnssPosition}
    requires a == Ask(kind)
    ensures var acknowledged := ([a, a] + [SERVE, SERVE]) + ([SERVE, a] + [a]);
            var run := acknowledged + (([NetworkStep(result), SERVE] + [SERVE]) + [a, a]);
            var r := Request(0, kind, true);
            var s := Execute(INIT, run);
            && s.client == Ready && s.tx == [] && s.rx == []
            && s.log == [ReplyRead(r, Received(Reply(r, true))), DoneRead(r, Received(Complete(r, result)))]
  {
    var r := Request(0, kind, true);
    var s1 := Acknowledged(kind, a);
    var s2 := AckTaken(s1, kind, a);
    var s3 := WorkIsDone(s2, r, result);
    ResultTaken(s3, r, result, a);
    ExecuteConcat(INIT, [a, a] + [SERVE, SERVE], [SERVE, a] + [a]);
    var acknowledged, work := ([a, a] + [SERVE, SERVE]) + ([SERVE, a] + [a]), [NetworkStep(result), SERVE] + [SERVE];
    ExecuteConcat(INIT, acknowledged, work + [a, a]);
    ExecuteConcat(s2, work, [a, a]);
  }

  lemma {:induction false} PlainAnswered(s: System, kind: RequestType, a: Label)
    requires !Blocking(kind) && PayloadOf(kind) != Oversized && a == Ask(kind)
    requires var r := Request(0, kind, true);
             && s.rx == [Reply(r, true)] && s.net == RaisingResponse(r) && s.client == AwaitingResponse(r)
             && s.log == [] && s.tx == []
    ensures var r := Request(0, kind, true);
            var s' := Execute(s, [SERVE, a] + [a]);
            && s'.client == Ready && s'.net == Polling && s'.tx == [] && s'.rx == []
            && s'.log == [ReplyRead(r, Received(Reply(r, true)))]
  {
    ExecuteConcat(s, [SERVE, a], [a]);
    Unfold2(s, SERVE, a);
    var s1 := Execute(s, [SERVE, a]);
    assert Execute(s1, [a]) == Step(s1, a);
  }

  lemma {:induction false} PlainPublished(kind: RequestType, a: Label) returns (s: System)
    requires !Blocking(kind) && PayloadOf(kind) != Oversized && a == Ask(kind)
    ensures Execute(INIT, [a, a] + [SERVE, SERVE]) == s
    ensures var r := Request(0, kind, true);
            && s.rx == [Reply(r, true)] && s.net == RaisingResponse(r) && s.client == AwaitingResponse(r)
            && s.log == [] && s.tx == []
  {
    ExecuteConcat(INIT, [a, a], [SERVE, SERVE]);
    Unfold2(INIT, a, a);
    Unfold2(Execute(INIT, [a, a]), SERVE, SERVE);
    s := Execute(INIT, [a, a] + [SERVE, SERVE]);
  }

  /** Any other request whose answer fits a frame: one reply, and both threads are back where they started. */
  lemma {:induction false} PlainRoundTrip(kind: RequestType, a: Label)
    requires kind !in {ScanNetworks, NetworkConnect, NetworkDisconnect, ServerConnect, ServerDisconnect, ForcePsm,
                       AcquireGnssPosition}
    requires kind !in {GetModemInfo, GetNetworkSurveyResult, GetAvailableOperators, GetCsurvResult}
    requires a == Ask(kind)
    ensures var r := Request(0, kind, true);
            var s := Execute(INIT, ([a, a] + [SERVE, SERVE]) + ([SERVE, a] + [a]));
            && s.client == Ready && s.net == Polling && s.tx == [] && s.rx == []
            && s.log == [ReplyRead(r, Received(Reply(r, true)))]
  {
    var s1 := PlainPublished(kind, a);
    PlainAnswered(s1, kind, a);
    ExecuteConcat(INIT, [a, a] + [SERVE, SERVE], [SERVE, a] + [a]);
  }

  /** The kinds whose answers cannot be told from a completion, and those whose answers never fit a frame. */
  lemma {:induction false} SizesOfAnswers(kind: RequestType)
    ensures WireSize(PayloadOf(kind)) == 2 <==>
              kind in {GetSimStatus, GetRadioTech, GetRegStatus, GetPsmMode, SetConfig, ScanNetworks, NetworkConnect,
                       NetworkDisconnect, ServerConnect, ServerDisconnect, ForcePsm, AcquireGnssPosition}
    ensures WireSize(PayloadOf(kind)) > 512 <==>
              kind in {GetModemInfo, GetNetworkSurveyResult, GetAvailableOperators, GetCsurvResult}
  {
  }

  /**
   What a blocking client makes of the two-byte frame it takes for its ACK: it waits for a completion exactly when an
   ACK accepts, a completion is of a success, or an enumeration is not zero.
   */
  lemma {:induction false} WaitsIffYes(s: System, r: Request, kind: RequestType, wellSized: bool, truth: bool)
    requires s.client == ReceivingResponse(r) && Blocking(r.kind) && s.rx != [] && ShapeOf(s.rx[0]) == OneByte
    ensures StepClient(s, kind, wellSized, truth).client == AwaitingDone(r) <==>
              match s.rx[0]
              case Complete(_, result) => result
              case Reply(q, accepted) =>
                if q.wellSized && q.kind in {GetSimStatus, GetRadioTech, GetRegStatus, GetPsmMode} then truth
                else accepted
  {
  }
}
