/** The shared event word: 32 bits that threads set, wait for and clear. */
module EventFlags {

  /** The events posted by the radio channels, bits 0 to 4 of the word. */
  datatype Bit = EvtRequest | EvtResponse | EvtState | EvtLog | EvtActionDone

  predicate Posts(w: bv32, b: Bit) {
    match b
    case EvtRequest => w & 1 != 0
    case EvtResponse => w & 2 != 0
    case EvtState => w & 4 != 0
    case EvtLog => w & 8 != 0
    case EvtActionDone => w & 16 != 0
  }

  /** The events posted in a word. */
  ghost function Posted(w: bv32): set<Bit> { set b: Bit | Posts(w, b) }

  lemma PostsLaws(a: bv32, b: bv32, e: Bit)
    ensures Posts(a | b, e) <==> Posts(a, e) || Posts(b, e)
    ensures Posts(a & b, e) <==> Posts(a, e) && Posts(b, e)
    ensures Posts(a & !b, e) <==> Posts(a, e) && !Posts(b, e)
  {
  }

  /** Or-ing words is the union of their events. */
  lemma {:induction false} OrIsUnion(a: bv32, b: bv32, c: bv32)
    requires c == a | b
    ensures Posted(c) == Posted(a) + Posted(b)
  {
    assert forall e: Bit :: Posts(c, e) <==> Posts(a, e) || Posts(b, e) by {
      forall e: Bit ensures Posts(c, e) <==> Posts(a, e) || Posts(b, e) { PostsLaws(a, b, e); }
    }
  }

  /** And-ing words is the intersection of their events. */
  lemma {:induction false} AndIsIntersection(a: bv32, b: bv32, c: bv32)
    requires c == a & b
    ensures Posted(c) == Posted(a) * Posted(b)
  {
    assert forall e: Bit :: Posts(c, e) <==> Posts(a, e) && Posts(b, e) by {
      forall e: Bit ensures Posts(c, e) <==> Posts(a, e) && Posts(b, e) { PostsLaws(a, b, e); }
    }
  }

  /** Masking out a word is the difference of their events. */
  lemma {:induction false} AndNotIsDifference(a: bv32, b: bv32, c: bv32)
    requires c == a & !b
    ensures Posted(c) == Posted(a) - Posted(b)
  {
    assert forall e: Bit :: Posts(c, e) <==> Posts(a, e) && !Posts(b, e) by {
      forall e: Bit ensures Posts(c, e) <==> Posts(a, e) && !Posts(b, e) { PostsLaws(a, b, e); }
    }
  }

  lemma DifferenceLaws<T>(a: set<T>, m: set<T>)
    ensures a - (a * m) == a - m
    ensures a * m == {} ==> a - m == a
  {
    if a * m == {} {
      forall x | x in a ensures x !in m { assert x in m ==> x in a * m; }
    }
  }

  lemma {:induction false} NothingPosted(w: bv32)
    requires w == 0
    ensures Posted(w) == {}
  {
  }

  /** Clearing only what matched clears all that was asked for. */
  lemma {:induction false} WaitClears(w: bv32, mask: bv32, matched: bv32, rest: bv32)
    requires matched == w & mask && rest == w & !matched
    ensures Posted(matched) == Posted(w) * Posted(mask)
    ensures Posted(rest) == Posted(w) - Posted(mask)
    ensures matched == 0 ==> Posted(w) - Posted(mask) == Posted(w)
  {
    AndIsIntersection(w, mask, matched);
    AndNotIsDifference(w, matched, rest);
    DifferenceLaws(Posted(w), Posted(mask));
    if matched == 0 { NothingPosted(matched); }
  }

  /** The wanted bits that are set, and the word without them. */
  method Match(w: bv32, mask: bv32) returns (matched: bv32, rest: bv32)
    ensures Posted(matched) == Posted(w) * Posted(mask)
    ensures Posted(rest) == Posted(w) - Posted(mask)
    ensures matched == 0 ==> Posted(w) - Posted(mask) == Posted(w)
  {
    matched := w & mask;
    rest := w & !matched;
    WaitClears(w, mask, matched, rest);
  }

  class Flags {
    var word: bv32

    constructor ()
      ensures Posted(word) == {}
    {
      word := 0;
    }

    /** Every event of the mask is posted, and no other one is lost. */
    method Set(mask: bv32)
      modifies this
      ensures Posted(word) == old(Posted(word)) + Posted(mask)
    {
      var w := word | mask;
      OrIsUnion(word, mask, w);
      word := w;
    }

    /**
     A wait that finds none of the wanted bits gives nothing and changes nothing; otherwise it gives exactly the wanted
     events that were posted and, when asked to, takes those and only those back.
     */
    method Wait(mask: bv32, fClear: bool) returns (matched: bv32)
      modifies this
      ensures Posted(matched) == old(Posted(word)) * Posted(mask)
      ensures Posted(word) == if fClear then old(Posted(word)) - Posted(mask) else old(Posted(word))
      ensures matched == 0 || !fClear ==> word == old(word)
    {
      var rest: bv32;
      matched, rest := Match(word, mask);
      if matched == 0 { return; }
      if fClear { word := rest; }
    }

    /** None of the events of the mask stays posted, and all others do. */
    method Clear(mask: bv32)
      modifies this
      ensures Posted(word) == old(Posted(word)) - Posted(mask)
    {
      var w := word & !mask;
      AndNotIsDifference(word, mask, w);
      word := w;
    }
  }

  /** What one thread posts, another one gets by waiting for it, once. */
  method PostAndWait(w: bv32, mask: bv32, wanted: bv32) returns (first: bv32, second: bv32)
    ensures Posted(first) == (Posted(w) + Posted(mask)) * Posted(wanted)
    ensures Posted(second) == {}
  {
    var f := new Flags();
    f.Set(w);
    f.Set(mask);
    first := f.Wait(wanted, true);
    second := f.Wait(wanted, true);
  }

  /** Bit 0 is a request, bit 1 a response, bit 2 the state, bit 3 the log, bit 4 a completion; no other bit counts. */
  lemma {:induction false} BitsOfEvents(e: Bit)
    ensures Posts(0x1, e) <==> e == EvtRequest
    ensures Posts(0x2, e) <==> e == EvtResponse
    ensures Posts(0x4, e) <==> e == EvtState
    ensures Posts(0x8, e) <==> e == EvtLog
    ensures Posts(0x10, e) <==> e == EvtActionDone
    ensures !Posts(0xFFFF_FFE0, e)
  {
  }
}
