/** What a command leaves in the report buffer of the answer it has read. */
module Leftovers {
  import opened Text
  import opened AtResponses
  import U = UrcStream

  /** Index of the first occurrence of t in s at or after i, or |s| + 1. */
  function FindText(s: string, t: string, i: nat): (k: nat)
    requires i <= |s|
    ensures i <= k <= |s| + 1
    decreases |s| - i
  {
    if t <= s[i..] then i else if i == |s| then |s| + 1 else FindText(s, t, i + 1)
  }

  /** What follows the first terminator at or after a position; nothing when there is none. */
  function CutAt(s: string, at: nat): (r: string)
    ensures |r| <= |s|
  {
    if at > |s| then ""
    else
      var end := FindTerminator(s, at);
      if end == |s| then "" else s[end + 2..]
  }

  /** What follows the first terminator behind the first occurrence of t. */
  function CutBehind(s: string, t: string): (r: string)
    ensures |r| <= |s|
  {
    CutAt(s, FindText(s, t, 0))
  }

  function Word(status: AtStatus): string {
    match status
    case Ok => "OK"
    case Error => "ERROR"
    case _ => "BUSY"
  }

  /** The part of an answer that is kept for the next poll. */
  function Leftover(text: string, status: AtStatus): (r: string)
    ensures |r| <= |text|
  {
    CutBehind(text, Word(status))
  }

  /** The text behind its first n lines. */
  function DropLines(s: string, n: nat): string
    decreases n
  {
    if n == 0 || s == "" then s
    else
      var k := FindTerminator(s, 0);
      if k == |s| then "" else DropLines(s[k + 2..], n - 1)
  }

  predicate At(s: string, t: string, i: nat) { i <= |s| && t <= s[i..] }

  ghost predicate Occurs(t: string, s: string) { exists i: nat :: At(s, t, i) }

  ghost predicate PlainWord(t: string) { t != "" && '\r' !in t && '\n' !in t }

  // ---------------------------------------------------------------------------
  // Searching
  // ---------------------------------------------------------------------------

  lemma {:induction false} FindTextSkips(s: string, t: string, i: nat, k: nat)
    requires i <= k <= |s| && forall j :: i <= j < k ==> !At(s, t, j)
    ensures FindText(s, t, i) == FindText(s, t, k)
    decreases k - i
  {
    if i < k {
      assert !At(s, t, i);
      FindTextSkips(s, t, i + 1, k);
    }
  }

  lemma {:induction false} FindTextHits(s: string, t: string, i: nat, q: nat)
    requires i <= q && At(s, t, q)
    ensures i <= FindText(s, t, i) <= q && At(s, t, FindText(s, t, i))
    decreases q - i
  {
    if !At(s, t, i) { FindTextHits(s, t, i + 1, q); }
  }

  lemma {:induction false} FindTextMisses(s: string, t: string, i: nat)
    requires i <= |s| && forall j :: i <= j <= |s| ==> !At(s, t, j)
    ensures FindText(s, t, i) == |s| + 1
    decreases |s| - i
  {
    assert !At(s, t, i);
    if i < |s| { FindTextMisses(s, t, i + 1); }
  }

  lemma {:induction false} FindTextShift(s: string, t: string, b: nat, i: nat)
    requires b + i <= |s|
    ensures FindText(s, t, b + i) == b + FindText(s[b..], t, i)
    decreases |s| - i
  {
    assert s[b..][i..] == s[b + i..];
    if !(t <= s[b + i..]) && b + i < |s| { FindTextShift(s, t, b, i + 1); }
  }

  lemma {:induction false} FindTerminatorSkips(s: string, i: nat, p: nat)
    requires i <= |s| && i <= p <= FindTerminator(s, i)
    ensures FindTerminator(s, p) == FindTerminator(s, i)
    decreases p - i
  {
    if i < p { FindTerminatorSkips(s, i + 1, p); }
  }

  // ---------------------------------------------------------------------------
  // Line by line
  // ---------------------------------------------------------------------------

  lemma {:induction false} AtInPrefix(s: string, t: string, j: nat, e: nat)
    requires j + |t| <= e <= |s|
    ensures At(s, t, j) <==> At(s[..e], t, j)
  {
    assert s[..e][j..][..|t|] == s[j..][..|t|];
  }

  lemma {:induction false} CharOf(s: string, t: string, j: nat, k: nat)
    requires At(s, t, j) && j <= k < j + |t|
    ensures k < |s| && s[k] in t
  {
    assert s[k] == s[j..][k - j] == t[k - j];
  }

  /** The word occurs in the first line: the cut is behind that line. */
  lemma {:induction false} CutInFirst(s: string, t: string)
    requires s != "" && PlainWord(t) && Occurs(t, s[..FindTerminator(s, 0)])
    ensures CutBehind(s, t) == DropLines(s, 1)
  {
    var e := FindTerminator(s, 0);
    var q: nat :| At(s[..e], t, q);
    AtInPrefix(s, t, q, e);
    FindTextHits(s, t, 0, q);
    FindTerminatorSkips(s, 0, FindText(s, t, 0));
    if e < |s| { assert DropLines(s[e + 2..], 0) == s[e + 2..]; }
  }

  /** A plain word has no occurrence that reaches into a terminator. */
  lemma {:induction false} NoneAcross(s: string, t: string, e: nat, j: nat)
    requires PlainWord(t) && e <= |s| && !Occurs(t, s[..e]) && (e < |s| ==> TerminatorAt(s, e))
    requires j < e + 2
    ensures !At(s, t, j)
  {
    if At(s, t, j) {
      if j + |t| <= e {
        AtInPrefix(s, t, j, e);
      } else {
        CharOf(s, t, j, if j <= e then e else e + 1);
      }
    }
  }

  lemma {:induction false} FoundInRest(s: string, t: string, e: nat)
    requires PlainWord(t) && TerminatorAt(s, e) && !Occurs(t, s[..e])
    ensures FindText(s, t, 0) == e + 2 + FindText(s[e + 2..], t, 0)
  {
    forall j | 0 <= j < e + 2 ensures !At(s, t, j) { NoneAcross(s, t, e, j); }
    FindTextSkips(s, t, 0, e + 2);
    FindTextShift(s, t, e + 2, 0);
  }

  lemma {:induction false} CutShifts(s: string, b: nat, at: nat)
    requires b <= |s|
    ensures CutAt(s, b + at) == CutAt(s[b..], at)
  {
    var rest := s[b..];
    if at <= |rest| {
      FindTerminatorShift(s, b, at);
      var end := FindTerminator(rest, at);
      assert end < |rest| ==> s[b + end + 2..] == rest[end + 2..];
    }
  }

  /** The word does not occur in the first line: the cut is that of the remaining lines. */
  lemma {:induction false} CutInRest(s: string, t: string, e: nat)
    requires s != "" && PlainWord(t) && e == FindTerminator(s, 0) < |s| && !Occurs(t, s[..e])
    ensures CutBehind(s, t) == CutBehind(s[e + 2..], t)
  {
    FoundInRest(s, t, e);
    CutShifts(s, e + 2, FindText(s[e + 2..], t, 0));
  }

  lemma {:induction false} CutInNone(s: string, t: string)
    requires s != "" && PlainWord(t) && !Occurs(t, s[..FindTerminator(s, 0)])
    requires FindTerminator(s, 0) == |s|
    ensures CutBehind(s, t) == ""
  {
    forall j | 0 <= j <= |s| ensures !At(s, t, j) { NoneAcross(s, t, |s|, j); }
    FindTextMisses(s, t, 0);
  }

  /** The first line and the others. */
  lemma {:induction false} Unroll(s: string, e: nat)
    requires s != "" && e == FindTerminator(s, 0)
    ensures |Lines(s)| > 0 && Lines(s)[0] == s[..e]
    ensures e == |s| ==> |Lines(s)| == 1
    ensures e < |s| ==> Lines(s)[1..] == Lines(s[e + 2..])
  {
    LinesHead(s, e);
    assert s[..|s|] == s;
  }

  /** The index of the first line that holds the word, or the number of lines. */
  ghost function FirstWith(ls: seq<string>, t: string): (j: nat)
    ensures j <= |ls|
  {
    if ls == [] || Occurs(t, ls[0]) then 0 else 1 + FirstWith(ls[1..], t)
  }

  lemma {:induction false} FirstWithLaws(ls: seq<string>, t: string, i: nat)
    requires i < |ls|
    ensures i < FirstWith(ls, t) ==> !Occurs(t, ls[i])
    ensures i == FirstWith(ls, t) ==> Occurs(t, ls[i])
  {
    if !Occurs(t, ls[0]) && i > 0 { FirstWithLaws(ls[1..], t, i - 1); }
  }

  /** The cut is behind the first line that holds the word; without such a line nothing is kept. */
  lemma {:induction false} CutIsBehindFirst(s: string, t: string)
    requires PlainWord(t)
    ensures CutBehind(s, t) == DropLines(s, FirstWith(Lines(s), t) + 1)
    decreases |s|
  {
    if s != "" {
      var e := FindTerminator(s, 0);
      Unroll(s, e);
      if Occurs(t, s[..e]) {
        CutInFirst(s, t);
      } else if e == |s| {
        CutInNone(s, t);
      } else {
        CutInRest(s, t, e);
        CutIsBehindFirst(s[e + 2..], t);
      }
    }
  }

  lemma {:induction false} DropShrinks(s: string, m: nat, n: nat)
    requires m < n <= |Lines(s)|
    ensures |DropLines(s, n)| < |DropLines(s, m)|
    decreases n
  {
    var e := FindTerminator(s, 0);
    Unroll(s, e);
    if e < |s| {
      if m > 0 { DropShrinks(s[e + 2..], m - 1, n - 1); } else if n > 1 { DropShrinks(s[e + 2..], 0, n - 1); }
    }
  }

  // ---------------------------------------------------------------------------
  // When the code does what its comment says
  // ---------------------------------------------------------------------------

  lemma {:induction false} StatusLineHoldsWord(line: string)
    requires Kind(line).Status?
    ensures Occurs(Word(Kind(line).status), line) && PlainWord(Word(Kind(line).status))
  {
    if StartsWith(line, "+CME ERROR:") {
      ErrorInPrefix(line, "+CME ERROR:");
    } else if StartsWith(line, "+CMS ERROR:") {
      ErrorInPrefix(line, "+CMS ERROR:");
    } else {
      assert At(line, line, 0);
    }
  }

  lemma {:induction false} ErrorInPrefix(line: string, p: string)
    requires p <= line && |p| == 11 && p[5..10] == "ERROR"
    ensures Occurs("ERROR", line)
  {
    var t := "ERROR";
    assert p[5..][..5] == p[5..10];
    assert At(p, t, 5);
    assert line[..11] == p;
    AtInPrefix(line, t, 5, 11);
  }

  /**
   The source means to keep what follows the status line.  Exactly when it does: when the word of the status occurs in
   no line before that one.
   */
  lemma {:induction false} LeftoverIsBehindStatusIff(text: string, k: nat)
    requires k < |Lines(text)| && Kind(Lines(text)[k]).Status?
    requires forall i :: k < i < |Lines(text)| ==> Kind(Lines(text)[i]).Plain?
    ensures Leftover(text, Meaning(text).status) == DropLines(text, k + 1)
            <==> forall i :: 0 <= i < k ==> !Occurs(Word(Kind(Lines(text)[k]).status), Lines(text)[i])
  {
    LastStatusLineWins(text, k);
    StatusLineHoldsWord(Lines(text)[k]);
    CutIff(text, Word(Kind(Lines(text)[k]).status), k);
  }

  lemma {:induction false} FirstIff(ls: seq<string>, t: string, k: nat)
    requires k < |ls| && Occurs(t, ls[k])
    ensures FirstWith(ls, t) <= k
    ensures FirstWith(ls, t) == k <==> forall i :: 0 <= i < k ==> !Occurs(t, ls[i])
  {
    forall i | 0 <= i < k ensures i < FirstWith(ls, t) ==> !Occurs(t, ls[i]) { FirstWithLaws(ls, t, i); }
    FirstWithLaws(ls, t, k);
    if FirstWith(ls, t) < k { FirstWithLaws(ls, t, FirstWith(ls, t)); }
  }

  lemma {:induction false} CutIff(text: string, t: string, k: nat)
    requires PlainWord(t) && k < |Lines(text)| && Occurs(t, Lines(text)[k])
    ensures CutBehind(text, t) == DropLines(text, k + 1)
            <==> forall i :: 0 <= i < k ==> !Occurs(t, Lines(text)[i])
  {
    CutIsBehindFirst(text, t);
    FirstIff(Lines(text), t, k);
    var j := FirstWith(Lines(text), t);
    if j < k { DropShrinks(text, j + 1, k + 1); }
  }

  lemma {:induction false} DropRendered(ls: seq<string>, n: nat)
    requires n <= |ls| && forall l :: l in ls ==> TerminatorFree(l)
    ensures DropLines(Render(ls), n) == Render(ls[n..])
    decreases n
  {
    if n == 0 {
      assert ls[0..] == ls;
    } else {
      assert ls[0] in ls && forall l :: l in ls[1..] ==> l in ls;
      RenderedHead(ls);
      DropRendered(ls[1..], n - 1);
      assert ls[1..][n - 1..] == ls[n..];
    }
  }

  /** An answer with the word inside a line: the lines behind the first such line are kept, status line and all. */
  lemma {:induction false} AnswerLinesAreKept(ls: seq<string>, last: string)
    requires forall l :: l in ls ==> TerminatorFree(l)
    requires TerminatorFree(last) && Kind(last).Status?
    ensures var text := Render(ls + [last]);
            var j := FirstWith(ls + [last], Word(Kind(last).status));
            j <= |ls| && Leftover(text, Meaning(text).status) == Render((ls + [last])[j + 1..])
  {
    var all := ls + [last];
    var t := Word(Kind(last).status);
    StatusOfRendered(ls, last);
    StatusLineHoldsWord(last);
    FirstWithLaws(all, t, |ls|);
    LinesOfRendered(all);
    CutIsBehindFirst(Render(all), t);
    DropRendered(all, FirstWith(all, t) + 1);
  }

  lemma {:induction false} StatusOfRendered(ls: seq<string>, last: string)
    requires forall l :: l in ls ==> TerminatorFree(l)
    requires TerminatorFree(last) && Kind(last).Status?
    ensures Meaning(Render(ls + [last])).status == Kind(last).status
  {
    var all := ls + [last];
    LinesOfRendered(all);
    assert all[|ls|] == last;
    LastStatusLineWins(Render(all), |ls|);
  }

  /** Whatever line stands directly behind the first one with the word: the next poll takes it for a report. */
  lemma {:induction false} AnswerLineBecomesReport(ls: seq<string>, last: string, report: string)
    requires forall l :: l in ls ==> TerminatorFree(l)
    requires TerminatorFree(last) && Kind(last).Status?
    requires var j := FirstWith(ls + [last], Word(Kind(last).status)); j + 1 < |ls| && ls[j + 1] == report
    requires '\n' !in report && U.Recognised([report + "\r"]) == [report]
            && |Render(ls + [last])| <= U.URC_RX_BUFFER_MAX
    ensures var text := Render(ls + [last]);
            report in U.PollOutput("", Leftover(text, Meaning(text).status))
  {
    AnswerLinesAreKept(ls, last);
    var all := ls + [last];
    var tail := all[FirstWith(all, Word(Kind(last).status)) + 1..];
    assert tail[0] == report;
    RenderedReport(tail, report);
  }

  lemma {:induction false} RenderedReport(ls: seq<string>, report: string)
    requires ls != [] && ls[0] == report && |Render(ls)| <= U.URC_RX_BUFFER_MAX
    requires '\n' !in report && U.Recognised([report + "\r"]) == [report]
    ensures report in U.PollOutput("", Render(ls))
  {
    var line, rest := report + "\r", Render(ls[1..]);
    assert Render(ls) == line + "\n" + rest;
    U.FirstLine(Render(ls), line, rest);
    U.RecognisedAppend([line], U.Complete(rest));
    assert Append("", Render(ls), U.URC_RX_BUFFER_MAX) == Render(ls);
    assert U.PollOutput("", Render(ls))[0] == report;
  }

  lemma {:induction false} RingLine(line: string, ring: string)
    requires ring == "RING" && line == ring + "\r"
    ensures U.Recognised([line]) == [ring]
  {
    assert U.Tidy(line) == ring by { assert line[4] == '\r' && line[..4] == ring; }
    assert StartsWith(ring, U.PREFIXES[11]);
    assert [line][1..] == [];
  }

  lemma {:induction false} BookHoldsOk(book: string, ls: seq<string>)
    requires book == "BOOK" && ls != [] && ls[0] == book
    ensures FirstWith(ls, "OK") == 0
  {
    assert book[2..] == "OK";
    assert At(book, "OK", 2);
  }

  /** The answer BOOK, RING, OK: nothing follows its status line, and still a ringing is reported. */
  lemma {:induction false} BookRings(book: string, ring: string, ok: string)
    requires book == "BOOK" && ring == "RING" && ok == "OK"
    ensures var text := Render([book, ring] + [ok]);
            DropLines(text, 3) == "" && |Leftover(text, Meaning(text).status)| <= U.URC_RX_BUFFER_MAX
            && ring in U.PollOutput("", Leftover(text, Meaning(text).status))
  {
    var ls := [book, ring];
    BookHoldsOk(book, ls + [ok]);
    RingLine(ring + "\r", ring);
    ShortAnswer(book, ring, ok);
    DropRendered(ls + [ok], 3);
    assert (ls + [ok])[3..] == [];
    AnswerLineBecomesReport(ls, ok, ring);
  }

  lemma {:induction false} ShortAnswer(a: string, b: string, c: string)
    requires |a| <= 4 && |b| <= 4 && |c| <= 4
    ensures |Render([a, b] + [c])| <= 18
  {
    assert ([a, b] + [c])[1..] == [b, c] && [b, c][1..] == [c] && [c][1..] == [];
    assert |Render([c])| <= 6;
    assert |Render([b, c])| <= 12;
  }
}
