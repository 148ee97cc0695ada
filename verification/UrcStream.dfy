/** The URC line assembler: splitting a byte stream, however it is chopped into reads, into recognised lines. */
module UrcStream {
  import opened Buffers
  import opened Text

  const URC_RX_BUFFER_MAX: nat := 1024
  const URC_LINE_MAX: nat := 256
  const MAX_URC_LINES: nat := 8
  const READ_MAX: nat := 511

  const PREFIXES: seq<string> :=
    ["+CREG:", "+CGREG:", "+CEREG:", "+CGEV:", "%STATEV:", "%NOTIFYEV:", "#PSMURC:", "+CME ERROR:", "+CMS ERROR:",
     "#CSURV:", "SRING:", "RING", "NO CARRIER", "BUSY", "NO DIALTONE", "$GPGGA,", "$GPGSA,", "$GPGSV,", "$GPRMC,"]

  // ---------------------------------------------------------------------------
  // Batch meaning of a stream
  // ---------------------------------------------------------------------------

  /** The newline-terminated lines of s. */
  function Complete(s: string): seq<string>
    decreases |s|
  {
    var k := Find(s, '\n', 0);
    if k == |s| then [] else [s[..k]] + Complete(s[k + 1..])
  }

  /** What follows the last newline of s. */
  function Rest(s: string): (r: string)
    ensures |r| <= |s|
    decreases |s|
  {
    var k := Find(s, '\n', 0);
    if k == |s| then s else Rest(s[k + 1..])
  }

  /** A line without its trailing CR, cut to one URC. */
  function Tidy(line: string): string {
    Clip(if line != "" && line[|line| - 1] == '\r' then line[..|line| - 1] else line, URC_LINE_MAX)
  }

  predicate Known(line: string) { exists i :: 0 <= i < |PREFIXES| && StartsWith(line, PREFIXES[i]) }

  /** The tidied lines that are not empty and start with a known prefix. */
  function Recognised(ls: seq<string>): seq<string> {
    if ls == [] then []
    else if Tidy(ls[0]) != "" && Known(Tidy(ls[0])) then [Tidy(ls[0])] + Recognised(ls[1..])
    else Recognised(ls[1..])
  }

  // ---------------------------------------------------------------------------
  // One poll
  // ---------------------------------------------------------------------------

  /** A poll hands out at most eight URCs; further recognised lines of that poll are lost. */
  function Capped(urcs: seq<string>): (r: seq<string>)
    ensures r <= urcs && |r| <= MAX_URC_LINES
  {
    if |urcs| <= MAX_URC_LINES then urcs else urcs[..MAX_URC_LINES]
  }

  function PollOutput(buf: string, chunk: string): seq<string>
    requires |buf| <= URC_RX_BUFFER_MAX
  {
    Capped(Recognised(Complete(Append(buf, chunk, URC_RX_BUFFER_MAX))))
  }

  function PollBuffer(buf: string, chunk: string): (r: string)
    requires |buf| <= URC_RX_BUFFER_MAX
    ensures |r| <= URC_RX_BUFFER_MAX
  {
    Rest(Append(buf, chunk, URC_RX_BUFFER_MAX))
  }

  lemma {:induction false} RecognisedAppend(ls: seq<string>, ms: seq<string>)
    ensures Recognised(ls + ms) == Recognised(ls) + Recognised(ms)
  {
    if ls == [] {
      assert ls + ms == ms;
    } else {
      assert (ls + ms)[1..] == ls[1..] + ms;
      RecognisedAppend(ls[1..], ms);
    }
  }

  lemma {:induction false} FindPrefix(a: string, b: string, i: nat)
    requires i <= |a| && Find(a, '\n', i) < |a|
    ensures Find(a + b, '\n', i) == Find(a, '\n', i)
    decreases |a| - i
  {
    if a[i] != '\n' { FindPrefix(a, b, i + 1); }
  }

  lemma {:induction false} SplitStep(s: string, k: nat)
    requires k == Find(s, '\n', 0) < |s|
    ensures Complete(s) == [s[..k]] + Complete(s[k + 1..])
    ensures Rest(s) == Rest(s[k + 1..])
  {
  }

  lemma {:induction false} NoNewline(s: string)
    requires '\n' !in s
    ensures Complete(s) == [] && Rest(s) == s
  {
    FindIs(s, '\n', |s|);
  }

  /** The leftover holds no newline and is the end of the text, directly behind a newline unless it is all of it. */
  lemma {:induction false} RestIsTail(s: string)
    ensures '\n' !in Rest(s)
    ensures Rest(s) == s[|s| - |Rest(s)|..]
    ensures |Rest(s)| < |s| ==> s[|s| - |Rest(s)| - 1] == '\n'
    decreases |s|
  {
    var k := Find(s, '\n', 0);
    if k == |s| {
      forall j | 0 <= j < |s| ensures s[j] != '\n' { FindSkips(s, '\n', 0, j); }
    } else {
      var t := s[k + 1..];
      RestIsTail(t);
      SplitStep(s, k);
      var r := Rest(t);
      assert |t| - |r| + k + 1 == |s| - |r|;
      assert t[|t| - |r|..] == s[|s| - |r|..];
      assert |r| == |t| ==> s[|s| - |r| - 1] == s[k];
    }
  }

  /** Splitting can be resumed: the lines of a + b are those of a, then those of a's leftover followed by b. */
  lemma {:induction false} SplitResumes(a: string, b: string)
    ensures Complete(a + b) == Complete(a) + Complete(Rest(a) + b)
    ensures Rest(a + b) == Rest(Rest(a) + b)
    decreases |a|
  {
    var k := Find(a, '\n', 0);
    if k == |a| {
      assert Complete(a) == [] && Rest(a) == a;
    } else {
      var a' := a[k + 1..];
      assert Complete(a + b) == [a[..k]] + Complete(a' + b) && Rest(a + b) == Rest(a' + b) by {
        FindPrefix(a, b, 0);
        SplitStep(a + b, k);
        assert (a + b)[..k] == a[..k] && (a + b)[k + 1..] == a' + b;
      }
      assert Complete(a) == [a[..k]] + Complete(a') && Rest(a) == Rest(a') by {
        SplitStep(a, k);
      }
      SplitResumes(a', b);
      Associates([a[..k]], Complete(a'), Complete(Rest(a') + b));
    }
  }

  // ---------------------------------------------------------------------------
  // Any chopping of the stream
  // ---------------------------------------------------------------------------

  function Concat(chunks: seq<string>): string {
    if chunks == [] then "" else chunks[0] + Concat(chunks[1..])
  }

  function Outputs(buf: string, chunks: seq<string>): seq<string>
    requires |buf| <= URC_RX_BUFFER_MAX
    decreases |chunks|
  {
    if chunks == [] then [] else PollOutput(buf, chunks[0]) + Outputs(PollBuffer(buf, chunks[0]), chunks[1..])
  }

  function FinalBuffer(buf: string, chunks: seq<string>): string
    requires |buf| <= URC_RX_BUFFER_MAX
    decreases |chunks|
  {
    if chunks == [] then buf else FinalBuffer(PollBuffer(buf, chunks[0]), chunks[1..])
  }

  /** No read overruns the buffer. */
  predicate FitsBuffer(buf: string, chunks: seq<string>)
    requires |buf| <= URC_RX_BUFFER_MAX
    decreases |chunks|
  {
    chunks != [] ==>
      |buf| + |chunks[0]| <= URC_RX_BUFFER_MAX && FitsBuffer(PollBuffer(buf, chunks[0]), chunks[1..])
  }

  /** No poll meets more recognised lines than it can hand out. */
  predicate FitsPolls(buf: string, chunks: seq<string>)
    requires |buf| <= URC_RX_BUFFER_MAX
    decreases |chunks|
  {
    chunks != [] ==>
      && |Recognised(Complete(Append(buf, chunks[0], URC_RX_BUFFER_MAX)))| <= MAX_URC_LINES
      && FitsPolls(PollBuffer(buf, chunks[0]), chunks[1..])
  }

  lemma CappedLosesNothingIff(r: seq<string>, out: seq<string>, batch: seq<string>)
    requires |out| <= |batch|
    ensures Capped(r) + out == r + batch <==> |r| <= MAX_URC_LINES && out == batch
  {
    if Capped(r) + out == r + batch {
      assert |Capped(r)| == |r|;
      assert out == (r + batch)[|r|..] == batch;
    }
  }

  /**
   However a stream is chopped into reads: without overrun the leftover is the text after the last newline, and the
   URCs handed out are exactly those of the whole stream if and only if no poll meets more than eight.
   */
  lemma {:induction false} ChoppingDoesNotMatter(buf: string, chunks: seq<string>)
    requires |buf| <= URC_RX_BUFFER_MAX && '\n' !in buf
    requires FitsBuffer(buf, chunks)
    ensures FinalBuffer(buf, chunks) == Rest(buf + Concat(chunks))
    ensures |Outputs(buf, chunks)| <= |Recognised(Complete(buf + Concat(chunks)))|
    ensures Outputs(buf, chunks) == Recognised(Complete(buf + Concat(chunks))) <==> FitsPolls(buf, chunks)
    decreases |chunks|
  {
    if chunks == [] {
      assert buf + Concat(chunks) == buf;
      NoNewline(buf);
    } else {
      var c, more := chunks[0], Concat(chunks[1..]);
      var s := buf + c;
      assert Append(buf, c, URC_RX_BUFFER_MAX) == s;
      assert buf + Concat(chunks) == s + more;
      SplitResumes(s, more);
      RecognisedAppend(Complete(s), Complete(Rest(s) + more));
      RestIsTail(s);
      ChoppingDoesNotMatter(Rest(s), chunks[1..]);
      CappedLosesNothingIff(Recognised(Complete(s)), Outputs(Rest(s), chunks[1..]),
          Recognised(Complete(Rest(s) + more)));
    }
  }

  /** The same line n times. */
  function Repeated(line: string, n: nat): string { if n == 0 then "" else line + "\n" + Repeated(line, n - 1) }

  lemma {:induction false} FirstLine(s: string, line: string, rest: string)
    requires s == line + "\n" + rest && '\n' !in line
    ensures Complete(s) == [line] + Complete(rest)
  {
    var k := |line|;
    assert s[k] == '\n' && s[..k] == line && s[k + 1..] == rest;
    assert forall j :: 0 <= j < k ==> s[j] == line[j];
    FindIs(s, '\n', k);
    SplitStep(s, k);
  }

  function Copies(line: string, n: nat): seq<string> { if n == 0 then [] else [line] + Copies(line, n - 1) }

  lemma {:induction false} LinesOfRepeated(line: string, n: nat)
    requires '\n' !in line
    ensures Complete(Repeated(line, n)) == Copies(line, n)
  {
    if n == 0 {
      NoNewline("");
    } else {
      LinesOfRepeated(line, n - 1);
      FirstLine(Repeated(line, n), line, Repeated(line, n - 1));
    }
  }

  lemma {:induction false} CopiesAreRecognised(line: string, n: nat)
    requires Recognised([line]) == [line]
    ensures |Recognised(Copies(line, n))| == n
  {
    if n > 0 {
      CopiesAreRecognised(line, n - 1);
      RecognisedAppend([line], Copies(line, n - 1));
    }
  }

  lemma {:induction false} RepeatedLength(line: string, n: nat)
    requires |line| == 4
    ensures |Repeated(line, n)| == 5 * n
  {
    if n > 0 { RepeatedLength(line, n - 1); }
  }

  lemma {:induction false} RingIsRecognised(line: string)
    requires line == "RING"
    ensures Recognised([line]) == [line]
  {
    assert line[3] == 'G' && Tidy(line) == line;
    assert StartsWith(line, PREFIXES[11]);
    assert [line][1..] == [];
  }

  /** Nine calls ringing in one read: one report is lost. */
  lemma {:induction false} NinthReportIsLost(line: string, s: string)
    requires line == "RING" && s == Repeated(line, 9)
    ensures FitsBuffer("", [s])
    ensures |Outputs("", [s])| == 8 && |Recognised(Complete("" + Concat([s])))| == 9
  {
    RingIsRecognised(line);
    LinesOfRepeated(line, 9);
    CopiesAreRecognised(line, 9);
    RepeatedLength(line, 9);
    OneChunk(s);
  }

  lemma {:induction false} OneChunk(s: string)
    requires |s| <= URC_RX_BUFFER_MAX
    ensures FitsBuffer("", [s]) && "" + Concat([s]) == s
    ensures Outputs("", [s]) == Capped(Recognised(Complete(s)))
  {
    assert [s][1..] == [] && s + "" == s && "" + s == s;
    assert Append("", s, URC_RX_BUFFER_MAX) == s;
    assert PollOutput("", s) + [] == PollOutput("", s);
  }

  /** A full buffer without a newline is a dead end: no later read changes it or produces a URC. */
  lemma {:induction false} FullBufferIsStuck(buf: string, chunks: seq<string>)
    requires |buf| == 1024 && '\n' !in buf
    ensures FinalBuffer(buf, chunks) == buf && Outputs(buf, chunks) == []
    decreases |chunks|
  {
    if chunks != [] {
      assert Append(buf, chunks[0], URC_RX_BUFFER_MAX) == buf;
      NoNewline(buf);
      FullBufferIsStuck(buf, chunks[1..]);
    }
  }

  /** The reports that are recognised: exactly the lines with one of these beginnings. */
  lemma {:induction false} KnownBeginnings(line: string)
    ensures Known(line) <==>
              || "+CREG:" <= line || "+CGREG:" <= line || "+CEREG:" <= line || "+CGEV:" <= line || "%STATEV:" <= line
              || "%NOTIFYEV:" <= line || "#PSMURC:" <= line || "+CME ERROR:" <= line || "+CMS ERROR:" <= line
              || "#CSURV:" <= line || "SRING:" <= line || "RING" <= line || "NO CARRIER" <= line || "BUSY" <= line
              || "NO DIALTONE" <= line || "$GPGGA," <= line || "$GPGSA," <= line || "$GPGSV," <= line
              || "$GPRMC," <= line
  {
    var p := PREFIXES;
    assert |p| == 19;
    assert p[0] == "+CREG:" && p[1] == "+CGREG:" && p[2] == "+CEREG:" && p[3] == "+CGEV:" && p[4] == "%STATEV:";
    assert p[5] == "%NOTIFYEV:" && p[6] == "#PSMURC:" && p[7] == "+CME ERROR:" && p[8] == "+CMS ERROR:";
    assert p[9] == "#CSURV:";
    assert p[10] == "SRING:" && p[11] == "RING" && p[12] == "NO CARRIER" && p[13] == "BUSY" && p[14] == "NO DIALTONE";
    assert p[15] == "$GPGGA," && p[16] == "$GPGSA," && p[17] == "$GPGSV," && p[18] == "$GPRMC,";
    if Known(line) {
      var i :| 0 <= i < |p| && StartsWith(line, p[i]);
    }
  }

  /** One trailing CR is trimmed and no more than 256 characters are kept. */
  lemma {:induction false} TidyLines(line: string)
    ensures Tidy(line + "\r") == Clip(line, 256)
    ensures line == "" || line[|line| - 1] != '\r' ==> Tidy(line) == Clip(line, 256)
  {
    assert (line + "\r")[..|line|] == line;
  }

  /** A line is handed out, tidied, exactly when it is not empty and has a known beginning. */
  lemma {:induction false} HandedOutIff(line: string)
    ensures Recognised([line]) == if Tidy(line) != "" && Known(Tidy(line)) then [Tidy(line)] else []
  {
    assert [line][1..] == [];
  }
}
