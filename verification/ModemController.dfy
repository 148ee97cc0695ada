/** The modem controller: URC polling, the command deadline and the retry rule. */
module ModemControllers {
  import opened Text
  import opened UrcStream
  import opened Leftovers
  import At = AtResponses

  const MAX_AT_RETRIES: nat := 3

  datatype UartError = UartOk | UartTimeout | UartFailed

  datatype ModemStatus = Ok | Busy | UartProblem | NotConnected | AtError | Timeout

  /** What one read of the serial line returned, and how long it took. */
  datatype Read = Read(error: UartError, data: string, ms: nat)

  /** The environment of one command: lock, port, write result and the reads that follow, by number. */
  datatype Exchange = Exchange(locked: bool, isOpen: bool, writeOk: bool, read: nat -> Read)

  predicate IsAnswer(r: Read) { r.error != UartOk || r.data != "" }

  ghost predicate Answers(x: Exchange, n: nat) { IsAnswer(x.read(n)) }

  /** A read that returns nothing has waited; all reads fit the receive buffer. */
  ghost predicate Timely(x: Exchange) {
    forall n: nat :: |x.read(n).data| <= READ_MAX && (!Answers(x, n) ==> x.read(n).ms > 0)
  }

  /** Time taken by the first n reads. */
  ghost function Elapsed(x: Exchange, n: nat): nat {
    if n == 0 then 0 else Elapsed(x, n - 1) + x.read(n - 1).ms
  }

  class ModemController {
    var urcBuffer: string

    ghost predicate Valid()
      reads this
    {
      |urcBuffer| <= URC_RX_BUFFER_MAX
    }

    constructor ()
      ensures Valid() && urcBuffer == ""
    {
      urcBuffer := "";
    }

    /** The trim of a buffer above 1024 characters, at the end of the source's poll, is dead: `Valid` rules it out. */
    method PollUrc(locked: bool, isOpen: bool, read: Read) returns (urcs: seq<string>)
      requires Valid()
      modifies this
      ensures Valid()
      ensures !locked || !isOpen || read.error == UartFailed ==> urcs == [] && urcBuffer == old(urcBuffer)
      ensures locked && isOpen && read.error != UartFailed ==>
                var chunk := if read.error == UartOk then read.data else "";
                urcs == PollOutput(old(urcBuffer), chunk) && urcBuffer == PollBuffer(old(urcBuffer), chunk)
    {
      urcs := [];
      if !locked || !isOpen { return; }
      if read.error == UartOk && |read.data| > 0 {
        urcBuffer := Append(urcBuffer, read.data, URC_RX_BUFFER_MAX);
      } else if read.error != UartTimeout && read.error != UartOk {
        return;
      } else {
        assert Append(urcBuffer, "", URC_RX_BUFFER_MAX) == urcBuffer;
      }
      urcs := DrainLines();
    }

    /** Takes every newline-terminated line out of the buffer. */
    method DrainLines() returns (urcs: seq<string>)
      requires Valid()
      modifies this
      ensures urcs == Capped(Recognised(Complete(old(urcBuffer))))
      ensures urcBuffer == Rest(old(urcBuffer))
    {
      urcs := [];
      ghost var found: seq<string> := [];
      var end := Find(urcBuffer, '\n', 0);
      while end < |urcBuffer|
        invariant end == Find(urcBuffer, '\n', 0)
        invariant Recognised(Complete(old(urcBuffer))) == found + Recognised(Complete(urcBuffer))
        invariant Rest(old(urcBuffer)) == Rest(urcBuffer)
        invariant urcs == Capped(found)
        decreases |urcBuffer|
      {
        var line := Tidy(urcBuffer[..end]);
        LineTaken(found, urcBuffer, end, line);
        urcBuffer := urcBuffer[end + 1..];
        end := Find(urcBuffer, '\n', 0);
        found := found + Kept(line);
        if line == "" { continue; }
        var known := IsKnown(line);
        if known && |urcs| < MAX_URC_LINES {
          urcs := urcs + [line];
        }
      }
      assert Complete(urcBuffer) == [] && Rest(urcBuffer) == urcBuffer;
      assert found + [] == found;
    }

    method SendCommand(totalMs: nat, x: Exchange)
      returns (status: ModemStatus, response: At.Response, budgets: seq<nat>)
      requires Valid() && Timely(x)
      modifies this
      ensures Valid() && Budgeted(x, budgets, totalMs)
      ensures forall i :: 0 <= i < |budgets| - 1 ==> !Answers(x, i)
      ensures status == Verdict(x, budgets)
      ensures status == Ok || status == AtError ==>
                response == At.Meaning(x.read(|budgets| - 1).data)
                && var kept := Leftover(x.read(|budgets| - 1).data, response.status);
                   urcBuffer == Append(old(urcBuffer), kept, URC_RX_BUFFER_MAX)
      ensures status != Ok && status != AtError ==> urcBuffer == old(urcBuffer)
      ensures status == Timeout && (budgets == [] || !Answers(x, |budgets| - 1)) ==> Elapsed(x, |budgets|) >= totalMs
    {
      response := At.Response(At.Error, "");
      budgets := [];
      if !x.locked { return Busy, response, budgets; }
      if !x.isOpen { return NotConnected, response, budgets; }
      if !x.writeOk { return UartProblem, response, budgets; }
      budgets := AwaitAnswer(totalMs, x);
      if budgets == [] || !IsAnswer(x.read(|budgets| - 1)) { return Timeout, response, budgets; }
      assert |x.read(|budgets| - 1).data| <= READ_MAX by { assert Timely(x); }
      status, response := Conclude(x.read(|budgets| - 1));
    }

    /** The read that ends the waiting decides. */
    method Conclude(last: Read) returns (status: ModemStatus, response: At.Response)
      requires Valid() && |last.data| <= READ_MAX
      modifies this
      ensures Valid() && status == Ending(last)
      ensures status == Ok || status == AtError ==>
                response == At.Meaning(last.data)
                && urcBuffer == Append(old(urcBuffer), Leftover(last.data, response.status), URC_RX_BUFFER_MAX)
      ensures status != Ok && status != AtError ==> urcBuffer == old(urcBuffer)
    {
      response := At.Response(At.Error, "");
      if last.error == UartTimeout { return Timeout, response; }
      if last.error != UartOk { return UartProblem, response; }
      status, response := TakeAnswer(last.data);
    }

    /** What a non-empty read means; its leftover is kept for the next poll. */
    method TakeAnswer(data: string) returns (status: ModemStatus, response: At.Response)
      requires Valid() && |data| <= READ_MAX
      modifies this
      ensures Valid() && response == At.Meaning(data) && status == (if response.status == At.Ok then Ok else AtError)
      ensures urcBuffer == Append(old(urcBuffer), Leftover(data, response.status), URC_RX_BUFFER_MAX)
    {
      var accumulated := Append("", data, At.AT_RESPONSE_MAX);
      assert accumulated == data;
      response := At.ParseResponse(accumulated);
      urcBuffer := Append(urcBuffer, Leftover(accumulated, response.status), URC_RX_BUFFER_MAX);
      status := if response.status == At.Ok then Ok else AtError;
    }

    /** Sends at most three times, and again only after a timeout, that is when nothing had come back. */
    method SendRaw(timeoutMs: nat, retry: bool, tries: seq<Exchange>)
      returns (status: ModemStatus, response: At.Response, attempts: seq<Attempt>)
      requires Valid() && |tries| == MAX_AT_RETRIES && forall k :: 0 <= k < |tries| ==> Timely(tries[k])
      modifies this
      ensures Valid()
      ensures 1 <= |attempts| <= if retry then 3 else 1
      ensures forall k :: 0 <= k < |attempts| ==> attempts[k].x == tries[k] && Sound(attempts[k], timeoutMs)
      ensures forall k :: 0 <= k < |attempts| - 1 ==> attempts[k].status == Timeout
      ensures status == attempts[|attempts| - 1].status && response == attempts[|attempts| - 1].response
      ensures status == Timeout ==> |attempts| == if retry then 3 else 1
    {
      var a := Try(timeoutMs, tries[0]);
      attempts := [a];
      while retry && |attempts| < MAX_AT_RETRIES && a.status == Timeout
        invariant Valid()
        invariant 1 <= |attempts| <= if retry then MAX_AT_RETRIES else 1
        invariant a == attempts[|attempts| - 1]
        invariant forall k :: 0 <= k < |attempts| ==> attempts[k].x == tries[k] && Sound(attempts[k], timeoutMs)
        invariant forall k :: 0 <= k < |attempts| - 1 ==> attempts[k].status == Timeout
        decreases MAX_AT_RETRIES - |attempts|
      {
        a := Try(timeoutMs, tries[|attempts|]);
        attempts := attempts + [a];
      }
      status, response := a.status, a.response;
    }

    method Try(timeoutMs: nat, x: Exchange) returns (a: Attempt)
      requires Valid() && Timely(x)
      modifies this
      ensures Valid() && a.x == x && Sound(a, timeoutMs)
    {
      var status, response, budgets := SendCommand(timeoutMs, x);
      a := Attempt(x, budgets, status, response);
    }
  }

  /** One sending of a command: its environment, the time given to each read, and how it ended. */
  datatype Attempt = Attempt(x: Exchange, budgets: seq<nat>, status: ModemStatus, response: At.Response)

  ghost predicate Sound(a: Attempt, timeoutMs: nat) {
    && Budgeted(a.x, a.budgets, timeoutMs) && a.status == Verdict(a.x, a.budgets)
    && (a.budgets != [] && (a.status == Ok || a.status == AtError) ==>
          a.response == At.Meaning(a.x.read(|a.budgets| - 1).data))
  }

  /** How a command ends, from what the line gave it. */
  ghost function Verdict(x: Exchange, budgets: seq<nat>): ModemStatus {
    if !x.locked then Busy
    else if !x.isOpen then NotConnected
    else if !x.writeOk then UartProblem
    else if budgets == [] || !Answers(x, |budgets| - 1) then Timeout
    else Ending(x.read(|budgets| - 1))
  }

  /** How the read that ends the waiting decides. */
  ghost function Ending(last: Read): ModemStatus {
    if last.error == UartTimeout then Timeout
    else if last.error == UartFailed then UartProblem
    else if At.Meaning(last.data).status == At.Ok then Ok
    else AtError
  }

  /** Every read is given what is left of the deadline, and that is never nothing. */
  ghost predicate Budgeted(x: Exchange, budgets: seq<nat>, totalMs: nat) {
    forall i {:trigger budgets[i]} :: 0 <= i < |budgets| ==> budgets[i] > 0 && budgets[i] + Elapsed(x, i) == totalMs
  }

  /** Reads until something comes back; stops at the first read that answers, or at the deadline. */
  method AwaitAnswer(totalMs: nat, x: Exchange) returns (budgets: seq<nat>)
    requires Timely(x)
    ensures Budgeted(x, budgets, totalMs)
    ensures forall i :: 0 <= i < |budgets| - 1 ==> !Answers(x, i)
    ensures (budgets != [] && Answers(x, |budgets| - 1)) || Elapsed(x, |budgets|) >= totalMs
  {
    budgets := [];
    var elapsed := 0;
    while elapsed < totalMs
      invariant elapsed == Elapsed(x, |budgets|)
      invariant forall i :: 0 <= i < |budgets| ==> !Answers(x, i)
      invariant Budgeted(x, budgets, totalMs)
      decreases totalMs - elapsed
    {
      var read := x.read(|budgets|);
      assert !Answers(x, |budgets|) ==> read.ms > 0;
      budgets := budgets + [totalMs - elapsed];
      if IsAnswer(read) { return; }
      elapsed := elapsed + read.ms;
    }
  }

  /** What one more line adds to the recognised ones. */
  function Kept(line: string): seq<string> { if line != "" && Known(line) then [line] else [] }

  lemma {:induction false} LineTaken(found: seq<string>, buf: string, end: nat, line: string)
    requires end == Find(buf, '\n', 0) < |buf|
    requires line == Tidy(buf[..end])
    ensures found + Recognised(Complete(buf)) == (found + Kept(line)) + Recognised(Complete(buf[end + 1..]))
    ensures Rest(buf) == Rest(buf[end + 1..])
  {
    SplitStep(buf, end);
    RecognisedAppend([buf[..end]], Complete(buf[end + 1..]));
    assert Recognised([buf[..end]]) == Kept(line);
    Associates(found, Kept(line), Recognised(Complete(buf[end + 1..])));
  }

  method IsKnown(line: string) returns (known: bool)
    ensures known == Known(line)
  {
    known := false;
    for p := 0 to |PREFIXES|
      invariant known == exists i :: 0 <= i < p && StartsWith(line, PREFIXES[i])
    {
      if StartsWith(line, PREFIXES[p]) { known := true; }
    }
  }

  /** A non-empty answer always has a decided status, so one non-empty read ends a command. */
  lemma {:induction false} AnswersAreDecided(raw: string)
    requires raw != ""
    ensures At.Meaning(raw).status != At.Timeout
  {
    NeverTimeout(At.Lines(raw), At.Error);
  }

  lemma {:induction false} NeverTimeout(ls: seq<string>, was: At.AtStatus)
    requires was != At.Timeout
    ensures At.LastStatus(ls, was) != At.Timeout
  {
    if ls != [] {
      NeverTimeout(ls[1..], if At.Kind(ls[0]).Status? then At.Kind(ls[0]).status else was);
    }
  }

  // ---------------------------------------------------------------------------
  // Deadlines
  // ---------------------------------------------------------------------------

  /** Reads that come back within the time they were given. */
  ghost predicate Honours(x: Exchange, budgets: seq<nat>) {
    forall i {:trigger budgets[i]} :: 0 <= i < |budgets| ==> x.read(i).ms <= budgets[i]
  }

  /** With reads that honour their timeout, the attempt is over by its deadline. */
  lemma ReturnsByDeadline(x: Exchange, budgets: seq<nat>, totalMs: nat)
    requires Budgeted(x, budgets, totalMs)
    requires Honours(x, budgets)
    ensures Elapsed(x, |budgets|) <= totalMs
  {
    if budgets != [] {
      var n := |budgets| - 1;
      assert x.read(n).ms <= budgets[n];
    }
  }

  ghost function TotalElapsed(attempts: seq<Attempt>): nat {
    if attempts == [] then 0 else Elapsed(attempts[0].x, |attempts[0].budgets|) + TotalElapsed(attempts[1..])
  }

  /** So a command, retries included, takes at most three times its timeout. */
  lemma {:induction false} RetriesAreBounded(attempts: seq<Attempt>, timeoutMs: nat)
    requires forall a :: a in attempts ==> Sound(a, timeoutMs) && Honours(a.x, a.budgets)
    requires |attempts| <= 3
    ensures TotalElapsed(attempts) <= |attempts| * timeoutMs <= 3 * timeoutMs
  {
    if attempts != [] {
      assert attempts[0] in attempts && forall a :: a in attempts[1..] ==> a in attempts;
      RetriesAreBounded(attempts[1..], timeoutMs);
      ReturnsByDeadline(attempts[0].x, attempts[0].budgets, timeoutMs);
    }
  }

  /** How a command ends, case by case. */
  lemma {:induction false} Verdicts(x: Exchange, budgets: seq<nat>)
    ensures !x.locked ==> Verdict(x, budgets) == Busy
    ensures x.locked && !x.isOpen ==> Verdict(x, budgets) == NotConnected
    ensures x.locked && x.isOpen && !x.writeOk ==> Verdict(x, budgets) == UartProblem
    ensures x.locked && x.isOpen && x.writeOk && budgets != [] && Answers(x, |budgets| - 1) ==>
              var last := x.read(|budgets| - 1);
              && (last.error == UartTimeout ==> Verdict(x, budgets) == Timeout)
              && (last.error == UartFailed ==> Verdict(x, budgets) == UartProblem)
              && (last.error == UartOk && At.Meaning(last.data).status == At.Ok ==> Verdict(x, budgets) == Ok)
              && (last.error == UartOk && At.Meaning(last.data).status != At.Ok ==> Verdict(x, budgets) == AtError)
    ensures x.locked && x.isOpen && x.writeOk && (budgets == [] || !Answers(x, |budgets| - 1)) ==>
              Verdict(x, budgets) == Timeout
  {
  }
}
