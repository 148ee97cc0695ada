/** Splitting a raw modem answer into status and body. */
module AtResponses {
  import opened Buffers
  import opened Text

  const AT_RESPONSE_MAX: nat := 2048
  const TERMINATOR := "\r\n"

  datatype AtStatus = Ok | Error | Timeout | Busy

  datatype Response = Response(status: AtStatus, body: string)

  datatype LineKind = Plain | Status(status: AtStatus)

  function Kind(line: string): LineKind {
    if line == "OK" then Status(Ok)
    else if line == "ERROR" || StartsWith(line, "+CME ERROR:") || StartsWith(line, "+CMS ERROR:") then Status(Error)
    else if line == "BUSY" then Status(Busy)
    else Plain
  }

  predicate TerminatorAt(s: string, i: nat) { i + 2 <= |s| && s[i] == '\r' && s[i + 1] == '\n' }

  /** Index of the first terminator in s at or after i, or |s|. */
  function FindTerminator(s: string, i: nat): (k: nat)
    requires i <= |s|
    ensures i <= k <= |s|
    ensures k < |s| ==> TerminatorAt(s, k)
    decreases |s| - i
  {
    if i == |s| || TerminatorAt(s, i) then i else FindTerminator(s, i + 1)
  }

  /** The pieces of s between terminators; no piece for what would be empty after a final terminator. */
  function Lines(s: string): seq<string>
    decreases |s|
  {
    if s == "" then []
    else
      var k := FindTerminator(s, 0);
      if k == |s| then [s] else [s[..k]] + Lines(s[k + 2..])
  }

  /** The status named by the last status line, or `was` when there is none. */
  function LastStatus(ls: seq<string>, was: AtStatus): AtStatus {
    if ls == [] then was
    else LastStatus(ls[1..], if Kind(ls[0]).Status? then Kind(ls[0]).status else was)
  }

  /** The non-empty lines that are not status lines, in order. */
  function BodyLines(ls: seq<string>): seq<string> {
    if ls == [] then []
    else if ls[0] != "" && Kind(ls[0]).Plain? then [ls[0]] + BodyLines(ls[1..])
    else BodyLines(ls[1..])
  }

  function Join(ls: seq<string>): string {
    if ls == [] then "" else if |ls| == 1 then ls[0] else ls[0] + TERMINATOR + Join(ls[1..])
  }

  /** What the answer means: the last status line wins, and the body is the other lines, cut to the buffer. */
  function Meaning(raw: string): Response {
    if raw == "" then Response(Timeout, "")
    else Response(LastStatus(Lines(raw), Error), Clip(Join(BodyLines(Lines(raw))), AT_RESPONSE_MAX))
  }

  // ---------------------------------------------------------------------------
  // The parser
  // ---------------------------------------------------------------------------

  /** Extends a joined body by one more line. */
  function Extend(body: string, line: string): string {
    if body == "" then line else body + TERMINATOR + line
  }

  lemma {:induction false} JoinExtend(ls: seq<string>, line: string)
    requires forall l :: l in ls ==> l != ""
    ensures Join(ls + [line]) == Extend(Join(ls), line)
    ensures ls != [] ==> Join(ls) != ""
  {
    if |ls| > 1 {
      assert (ls + [line])[1..] == ls[1..] + [line];
      assert forall l :: l in ls[1..] ==> l in ls;
      JoinExtend(ls[1..], line);
      assert ls[0] in ls;
      assert Join(ls + [line]) == ls[0] + TERMINATOR + (Join(ls[1..]) + TERMINATOR + line);
    } else if |ls| == 1 {
      assert ls[0] in ls;
      assert (ls + [line])[1..] == [line];
    }
  }

  lemma {:induction false} BodyLinesAppend(ls: seq<string>, line: string)
    ensures BodyLines(ls + [line]) == if line != "" && Kind(line).Plain? then BodyLines(ls) + [line] else BodyLines(ls)
    ensures LastStatus(ls + [line], Error) == if Kind(line).Status? then Kind(line).status else LastStatus(ls, Error)
    ensures forall l :: l in BodyLines(ls) ==> l != ""
  {
    LastStatusAppend(ls, line, Error);
    if ls != [] {
      assert (ls + [line])[1..] == ls[1..] + [line];
      BodyLinesAppend(ls[1..], line);
    }
  }

  lemma {:induction false} LastStatusAppend(ls: seq<string>, line: string, was: AtStatus)
    ensures LastStatus(ls + [line], was) == if Kind(line).Status? then Kind(line).status else LastStatus(ls, was)
  {
    if ls != [] {
      assert (ls + [line])[1..] == ls[1..] + [line];
      LastStatusAppend(ls[1..], line, if Kind(ls[0]).Status? then Kind(ls[0]).status else was);
    }
  }

  /** Cutting the body as it grows gives the cut of the whole body. */
  lemma ExtendClipped(body: string, line: string)
    requires line != ""
    ensures var b := Clip(body, AT_RESPONSE_MAX);
            var b' := if b != "" then Append(b, TERMINATOR, AT_RESPONSE_MAX) else b;
            Append(b', line, AT_RESPONSE_MAX) == Clip(Extend(body, line), AT_RESPONSE_MAX)
  {
    if body != "" {
      ClipClip(body, TERMINATOR, AT_RESPONSE_MAX);
      ClipClip(body + TERMINATOR, line, AT_RESPONSE_MAX);
    }
  }

  /** The body buffer after one more line. */
  function NewBody(b: string, line: string): (r: string)
    requires |b| <= AT_RESPONSE_MAX
    ensures |r| <= AT_RESPONSE_MAX
  {
    if line == "" || Kind(line).Status? then b
    else Append(if b != "" then Append(b, TERMINATOR, AT_RESPONSE_MAX) else b, line, AT_RESPONSE_MAX)
  }

  /** What one line does to status and body buffer. */
  method AbsorbLine(line: string, was: AtStatus, b: string) returns (status: AtStatus, body: string)
    requires |b| <= AT_RESPONSE_MAX
    ensures status == (if Kind(line).Status? then Kind(line).status else was)
    ensures body == NewBody(b, line)
  {
    status, body := was, b;
    if line == "" { return; }
    if Kind(line).Status? {
      status := Kind(line).status;
    } else {
      if body != "" { body := Append(body, TERMINATOR, AT_RESPONSE_MAX); }
      body := Append(body, line, AT_RESPONSE_MAX);
    }
  }

  /** One more line: how status and (cut) body follow. */
  lemma {:induction false} AddLine(seen: seq<string>, line: string)
    ensures LastStatus(seen + [line], Error) == if Kind(line).Status? then Kind(line).status
            else LastStatus(seen, Error)
    ensures Clip(Join(BodyLines(seen + [line])), AT_RESPONSE_MAX)
         == NewBody(Clip(Join(BodyLines(seen)), AT_RESPONSE_MAX), line)
  {
    BodyLinesAppend(seen, line);
    JoinExtend(BodyLines(seen), line);
    if line != "" && Kind(line).Plain? {
      ExtendClipped(Join(BodyLines(seen)), line);
    } else {
      assert BodyLines(seen + [line]) == BodyLines(seen);
    }
  }

  method ParseResponse(raw: string) returns (r: Response)
    ensures r == Meaning(raw)
  {
    if raw == "" { return Response(Timeout, ""); }
    var status, body := Error, "";
    var start := 0;
    ghost var seen: seq<string> := [];
    assert raw[0..] == raw;
    while start < |raw|
      invariant 0 <= start <= |raw|
      invariant Lines(raw) == seen + Lines(raw[start..])
      invariant status == LastStatus(seen, Error)
      invariant body == Clip(Join(BodyLines(seen)), AT_RESPONSE_MAX)
    {
      var end := FindTerminator(raw, start);
      var line := raw[start..end];
      LinesFrom(raw, start, end);
      AddLine(seen, line);
      start := if end == |raw| then |raw| else end + 2;
      status, body := AbsorbLine(line, status, body);
      Associates(seen, [line], Lines(raw[start..]));
      seen := seen + [line];
    }
    assert raw[start..] == "" && Lines(raw) == seen;
    r := Response(status, body);
  }

  /** The search from `start` sees what a search of the remaining text sees. */
  lemma {:induction false} FindTerminatorShift(s: string, start: nat, i: nat)
    requires start + i <= |s|
    ensures FindTerminator(s, start + i) == start + FindTerminator(s[start..], i)
    decreases |s| - i
  {
    if start + i < |s| {
      assert TerminatorAt(s[start..], i) == TerminatorAt(s, start + i);
      if !TerminatorAt(s, start + i) {
        FindTerminatorShift(s, start, i + 1);
      }
    }
  }

  lemma {:induction false} FindTerminatorIs(s: string, i: nat, k: nat)
    requires i <= k < |s| && TerminatorAt(s, k)
    requires forall j :: i <= j < k ==> !TerminatorAt(s, j)
    ensures FindTerminator(s, i) == k
    decreases k - i
  {
    if i < k { FindTerminatorIs(s, i + 1, k); }
  }

  lemma {:induction false} LinesHead(t: string, k: nat)
    requires t != "" && k == FindTerminator(t, 0)
    ensures Lines(t) == if k == |t| then [t] else [t[..k]] + Lines(t[k + 2..])
  {
  }

  lemma {:induction false} LinesFrom(s: string, start: nat, end: nat)
    requires start < |s| && end == FindTerminator(s, start)
    ensures Lines(s[start..]) == [s[start..end]] + Lines(s[if end == |s| then |s| else end + 2..])
  {
    if end < |s| { LinesMiddle(s, start, end); } else { LinesEnd(s, start); }
  }

  lemma {:induction false} LinesMiddle(s: string, start: nat, end: nat)
    requires start < |s| && end == FindTerminator(s, start) < |s|
    ensures Lines(s[start..]) == [s[start..end]] + Lines(s[end + 2..])
  {
    var t := s[start..];
    assert t[end - start + 2..] == s[end + 2..] && t[..end - start] == s[start..end];
    FindTerminatorShift(s, start, 0);
    LinesHead(t, end - start);
  }

  lemma {:induction false} LinesEnd(s: string, start: nat)
    requires start < |s| == FindTerminator(s, start)
    ensures Lines(s[start..]) == [s[start..|s|]] + Lines(s[|s|..])
  {
    var t := s[start..];
    assert s[start..|s|] == t && Lines(s[|s|..]) == [];
    FindTerminatorShift(s, start, 0);
    LinesHead(t, |t|);
  }

  // ---------------------------------------------------------------------------
  // What the meaning promises
  // ---------------------------------------------------------------------------

  lemma {:induction false} BodyFits(ls: seq<string>)
    ensures |Join(BodyLines(ls))| <= Total(ls)
  {
    if ls != [] {
      BodyFits(ls[1..]);
      if ls[0] != "" && Kind(ls[0]).Plain? {
        assert BodyLines(ls)[1..] == BodyLines(ls[1..]);
        assert ls[1..] == [] ==> BodyLines(ls[1..]) == [];
      } else {
        assert BodyLines(ls) == BodyLines(ls[1..]);
      }
    }
  }

  /** The length of a text with these lines, terminators between them. */
  function Total(ls: seq<string>): nat {
    if ls == [] then 0 else if |ls| == 1 then |ls[0]| else |ls[0]| + 2 + Total(ls[1..])
  }

  lemma {:induction false} LinesTotal(s: string)
    ensures Total(Lines(s)) <= |s|
    decreases |s|
  {
    if s != "" {
      var k := FindTerminator(s, 0);
      if k < |s| {
        LinesTotal(s[k + 2..]);
        assert Lines(s)[1..] == Lines(s[k + 2..]);
      }
    }
  }

  /** An answer no longer than the response buffer never loses a character of its body. */
  lemma BodyIsNotTruncated(raw: string)
    requires 0 < |raw| <= 2048
    ensures Meaning(raw).body == Join(BodyLines(Lines(raw)))
  {
    LinesTotal(raw);
    BodyFits(Lines(raw));
  }

  function Render(ls: seq<string>): string {
    if ls == [] then "" else ls[0] + TERMINATOR + Render(ls[1..])
  }

  ghost predicate TerminatorFree(s: string) { forall i :: 0 <= i < |s| ==> !TerminatorAt(s, i) }

  lemma {:induction false} RenderedHead(ls: seq<string>)
    requires ls != [] && TerminatorFree(ls[0])
    ensures var s := Render(ls);
            FindTerminator(s, 0) == |ls[0]| < |s| && s[..|ls[0]|] == ls[0] && s[|ls[0]| + 2..] == Render(ls[1..])
  {
    var s, n := Render(ls), |ls[0]|;
    assert TerminatorAt(s, n);
    forall j | 0 <= j < n ensures !TerminatorAt(s, j) {
      assert !TerminatorAt(ls[0], j);
    }
    FindTerminatorIs(s, 0, n);
  }

  lemma {:induction false} LinesOfRendered(ls: seq<string>)
    requires forall l :: l in ls ==> TerminatorFree(l)
    ensures Lines(Render(ls)) == ls
  {
    if ls != [] {
      assert ls[0] in ls && forall l :: l in ls[1..] ==> l in ls;
      RenderedHead(ls);
      LinesOfRendered(ls[1..]);
    }
  }

  lemma {:induction false} AllPlain(ls: seq<string>, was: AtStatus)
    requires forall l :: l in ls ==> l != "" && Kind(l).Plain?
    ensures BodyLines(ls) == ls && LastStatus(ls, was) == was
  {
    if ls != [] {
      assert ls[0] in ls && forall l :: l in ls[1..] ==> l in ls;
      AllPlain(ls[1..], was);
    }
  }

  /** Round trip: the lines of a rendered answer come back as its body, with the status the final line gives. */
  lemma {:induction false} ParsesRendered(ls: seq<string>, last: string)
    requires forall l :: l in ls ==> l != "" && TerminatorFree(l) && Kind(l).Plain?
    requires TerminatorFree(last) && Kind(last).Status?
    ensures Meaning(Render(ls + [last])) == Response(Kind(last).status, Clip(Join(ls), AT_RESPONSE_MAX))
    ensures |Render(ls + [last])| <= AT_RESPONSE_MAX ==>
              Meaning(Render(ls + [last])) == Response(Kind(last).status, Join(ls))
  {
    var all := ls + [last];
    LinesOfRendered(all);
    BodyLinesAppend(ls, last);
    AllPlain(ls, Error);
    assert BodyLines(all) == ls;
    assert all[0] in all;
    assert Render(all) != "";
    if |Render(all)| <= AT_RESPONSE_MAX { BodyIsNotTruncated(Render(all)); }
  }

  /** Whatever the answer holds, the last status line in it decides; without one the status is an error. */
  lemma {:induction false} LastStatusLineWins(raw: string, k: nat)
    requires raw != "" && k <= |Lines(raw)|
    requires forall i :: k < i < |Lines(raw)| ==> Kind(Lines(raw)[i]).Plain?
    ensures k < |Lines(raw)| && Kind(Lines(raw)[k]).Status? ==> Meaning(raw).status == Kind(Lines(raw)[k]).status
    ensures (forall i :: 0 <= i < |Lines(raw)| ==> Kind(Lines(raw)[i]).Plain?) ==> Meaning(raw).status == Error
  {
    LastStatusAt(Lines(raw), k, Error);
  }

  lemma {:induction false} LastStatusAt(ls: seq<string>, k: nat, was: AtStatus)
    requires k <= |ls|
    requires forall i :: k < i < |ls| ==> Kind(ls[i]).Plain?
    ensures k < |ls| && Kind(ls[k]).Status? ==> LastStatus(ls, was) == Kind(ls[k]).status
    ensures (forall i :: 0 <= i < |ls| ==> Kind(ls[i]).Plain?) ==> LastStatus(ls, was) == was
  {
    if ls != [] {
      LastStatusAt(ls[1..], if k == 0 then 0 else k - 1, if Kind(ls[0]).Status? then Kind(ls[0]).status else was);
      if k == 0 && Kind(ls[0]).Status? {
        assert forall i :: 0 <= i < |ls[1..]| ==> Kind(ls[1..][i]).Plain?;
      }
    }
  }

  /** The status lines: exactly these, and nothing that merely starts with OK, ERROR or BUSY. */
  lemma {:induction false} StatusLines(line: string)
    ensures Kind(line) == Status(Ok) <==> line == "OK"
    ensures Kind(line) == Status(Busy) <==> line == "BUSY"
    ensures Kind(line) == Status(Error) <==> line == "ERROR" || "+CME ERROR:" <= line || "+CMS ERROR:" <= line
    ensures Kind(line) != Status(Timeout)
  {
    assert "OK"[0] == 'O' && "BUSY"[0] == 'B' && "ERROR"[0] == 'E';
    assert "+CME ERROR:"[0] == '+' && "+CMS ERROR:"[0] == '+';
  }

  /** Nothing read is a timeout, and two lines of a body stay apart by CR LF. */
  lemma {:induction false} JoinedLines(a: string, b: string)
    ensures Meaning("") == Response(Timeout, "")
    ensures Join([]) == "" && Join([a]) == a && Join([a, b]) == a + "\r\n" + b
  {
    assert [a, b][1..] == [b];
  }
}
