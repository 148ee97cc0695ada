/** Comma-separated parameter lists, as the modem driver splits them. */
module Parameters {
  import opened Text

  /**
   The first n tokens of s.  An empty remainder ends the list, so an empty token behind the last comma is lost.
   */
  function Tokens(s: string, n: nat): (r: seq<string>)
    ensures |r| <= n
    decreases |s|
  {
    if s == "" || n == 0 then []
    else
      var k := Find(s, ',', 0);
      if k == |s| then [s] else [s[..k]] + Tokens(s[k + 1..], n - 1)
  }

  /** The tokens with commas between them. */
  function Commas(ts: seq<string>): string {
    if ts == [] then "" else if |ts| == 1 then ts[0] else ts[0] + "," + Commas(ts[1..])
  }

  /** The tokens without a last one that is empty. */
  function DropLastEmpty(ts: seq<string>): seq<string> {
    if ts != [] && ts[|ts| - 1] == "" then ts[..|ts| - 1] else ts
  }

  ghost predicate NoComma(t: string) { forall i :: 0 <= i < |t| ==> t[i] != ',' }

  datatype Body = NoColon | Params(text: string)

  /** What a driver function sees behind the first colon of an answer. */
  function BehindColon(body: string): Body {
    var colon := Find(body, ':', 0);
    if colon == |body| then NoColon else Params(body[colon + 1..])
  }

  lemma {:induction false} AfterColon(name: string, params: string)
    requires ':' !in name
    ensures BehindColon(name + ":" + params) == Params(params)
  {
    var body := name + ":" + params;
    assert body[|name|] == ':' && forall j :: 0 <= j < |name| ==> body[j] == name[j];
    FindIs(body, ':', |name|);
    assert body[|name| + 1..] == params;
  }

  lemma {:induction false} TokensStep(t: string, rest: string, n: nat)
    requires NoComma(t) && n > 0
    ensures Tokens(t + "," + rest, n) == [t] + Tokens(rest, n - 1)
  {
    var s := t + "," + rest;
    assert s[|t|] == ',' && s[..|t|] == t && s[|t| + 1..] == rest;
    assert forall j :: 0 <= j < |t| ==> s[j] == t[j];
    FindIs(s, ',', |t|);
  }

  lemma {:induction false} TokensLast(t: string, n: nat)
    requires NoComma(t) && n > 0
    ensures Tokens(t, n) == if t == "" then [] else [t]
  {
    FindIs(t, ',', |t|);
    assert t[..|t|] == t && [t] + [] == [t];
  }

  /** Splitting undoes joining, up to a lost empty last token. */
  lemma {:induction false} TokensOfCommas(ts: seq<string>, n: nat)
    requires |ts| <= n
    requires forall i :: 0 <= i < |ts| ==> NoComma(ts[i])
    ensures Tokens(Commas(ts), n) == DropLastEmpty(ts)
    decreases |ts|
  {
    if |ts| == 1 {
      TokensLast(ts[0], n);
      assert Commas(ts) == ts[0];
      assert ts == [ts[0]] && ts[..0] == [];
    } else if |ts| > 1 {
      TokensOfCommas(ts[1..], n - 1);
      TokensStep(ts[0], Commas(ts[1..]), n);
      DropLastStep(ts);
    }
  }

  lemma {:induction false} DropLastStep(ts: seq<string>)
    requires |ts| > 1
    ensures DropLastEmpty(ts) == [ts[0]] + DropLastEmpty(ts[1..])
  {
  }

  lemma {:induction false} CommasOfFive(a: string, b: string, c: string, d: string, e: string)
    ensures Commas([a, b, c, d, e]) == a + "," + (b + "," + (c + "," + (d + "," + e)))
  {
    assert [a, b, c, d, e][1..] == [b, c, d, e];
    assert [b, c, d, e][1..] == [c, d, e];
    assert [c, d, e][1..] == [d, e];
    assert [d, e][1..] == [e];
    assert Commas([d, e]) == d + "," + e;
    assert Commas([c, d, e]) == c + "," + Commas([d, e]);
    assert Commas([b, c, d, e]) == b + "," + Commas([c, d, e]);
  }

  /** Index of the first character of s, at or after i, that is not one of cs, or |s|. */
  function SkipAny(s: string, cs: set<char>, i: nat): (k: nat)
    requires i <= |s|
    ensures i <= k <= |s|
    decreases |s| - i
  {
    if i == |s| || s[i] !in cs then i else SkipAny(s, cs, i + 1)
  }

  lemma {:induction false} SkipAnyIs(s: string, cs: set<char>, k: nat)
    requires k <= |s| && (k < |s| ==> s[k] !in cs)
    requires forall j :: 0 <= j < k ==> s[j] in cs
    ensures SkipAny(s, cs, 0) == k
  {
    SkipAnyFrom(s, cs, 0, k);
  }

  lemma {:induction false} SkipAnyFrom(s: string, cs: set<char>, i: nat, k: nat)
    requires i <= k <= |s| && (k < |s| ==> s[k] !in cs)
    requires forall j :: i <= j < k ==> s[j] in cs
    ensures SkipAny(s, cs, i) == k
    decreases k - i
  {
    if i < k { SkipAnyFrom(s, cs, i + 1, k); }
  }

  /** One past the last character of s[..i] that is not one of cs, or 0. */
  function BackAny(s: string, cs: set<char>, i: nat): (k: nat)
    requires i <= |s|
    ensures k <= i
  {
    if i == 0 || s[i - 1] !in cs then i else BackAny(s, cs, i - 1)
  }

  /** The loop of the driver: splits off one token at a time until five are found or nothing is left. */
  method SplitFields(params: string, n: nat) returns (fields: seq<string>)
    ensures fields == Tokens(params, n)
  {
    fields := [];
    var sv := params;
    while sv != "" && |fields| < n
      invariant |fields| <= n
      invariant Tokens(params, n) == fields + Tokens(sv, n - |fields|)
      decreases n - |fields|
    {
      var comma := Find(sv, ',', 0);
      fields := fields + [sv[..comma]];
      if comma == |sv| {
        assert sv[..comma] == sv;
        return;
      }
      sv := sv[comma + 1..];
    }
  }

  /** f of every field. */
  function Map<T>(f: string -> T, fields: seq<string>): (r: seq<T>)
    ensures |r| == |fields|
  {
    if fields == [] then [] else [f(fields[0])] + Map(f, fields[1..])
  }

  lemma {:induction false} MapStep<T>(f: string -> T, fields: seq<string>, i: nat, values: seq<T>)
    requires i < |fields|
    ensures values + Map(f, fields[i..]) == (values + [f(fields[i])]) + Map(f, fields[i + 1..])
  {
    assert fields[i..][1..] == fields[i + 1..];
    var rest := Map(f, fields[i + 1..]);
    assert Map(f, fields[i..]) == [f(fields[i])] + rest;
  }

  method MapFields<T>(f: string -> T, fields: seq<string>) returns (values: seq<T>)
    ensures values == Map(f, fields)
  {
    values := [];
    assert fields[0..] == fields;
    for i := 0 to |fields|
      invariant Map(f, fields) == values + Map(f, fields[i..])
    {
      MapStep(f, fields, i, values);
      values := values + [f(fields[i])];
    }
  }

  const NUL: char := 0 as char

  /** A buffer read as a C string: the text before the first NUL. */
  function CStr(s: string): string { s[..Find(s, NUL, 0)] }

  lemma {:induction false} CStrOf(s: string)
    ensures NUL !in s <==> CStr(s) == s
  {
    if NUL !in s {
      FindIs(s, NUL, |s|);
    } else {
      var k := Find(s, NUL, 0);
      if k == |s| {
        forall j | 0 <= j < |s| ensures s[j] != NUL { FindSkips(s, NUL, 0, j); }
        assert false;
      }
      assert |CStr(s)| < |s|;
    }
  }

  // ---------------------------------------------------------------------------
  // Decimal numbers
  // ---------------------------------------------------------------------------

  predicate IsDigit(c: char) { '0' <= c <= '9' }

  function DigitChar(d: nat): (c: char)
    requires d < 10
    ensures IsDigit(c) && DigitValue(c) == d
  {
    "0123456789"[d]
  }

  function DigitValue(c: char): nat { if IsDigit(c) then (c as int) - ('0' as int) else 0 }

  ghost predicate AllDigits(s: string) { forall i :: 0 <= i < |s| ==> IsDigit(s[i]) }

  /** %llu */
  function Decimal(n: nat): (s: string)
    ensures s != ""
  {
    if n < 10 then [DigitChar(n)] else Decimal(n / 10) + [DigitChar(n % 10)]
  }

  const WHITE := {' ', '\t', '\n', '\r', '\U{0B}', '\U{0C}'}

  datatype Signed = Signed(negative: bool, text: string)

  /** How the C library starts to read a number: white space, then an optional sign. */
  function ReadSign(s: string): Signed {
    var body := s[SkipAny(s, WHITE, 0)..];
    if body != "" && (body[0] == '-' || body[0] == '+') then Signed(body[0] == '-', body[1..]) else Signed(false, body)
  }

  lemma {:induction false} NoSign(s: string)
    requires s != "" && IsDigit(s[0])
    ensures ReadSign(s) == Signed(false, s)
  {
    SkipAnyIs(s, WHITE, 0);
    assert s[0..] == s;
  }

  /** Length of the run of digits at the start of s. */
  function DigitRun(s: string): (k: nat)
    ensures k <= |s|
  {
    if s == "" || !IsDigit(s[0]) then 0 else 1 + DigitRun(s[1..])
  }

  /** The number written by a run of digits. */
  function Value(s: string): nat {
    if s == "" then 0 else 10 * Value(s[..|s| - 1]) + DigitValue(s[|s| - 1])
  }

  lemma {:induction false} DecimalIsDigits(n: nat)
    ensures AllDigits(Decimal(n))
  {
    if n >= 10 { DecimalIsDigits(n / 10); }
  }

  lemma {:induction false} DigitRunAll(s: string)
    requires AllDigits(s)
    ensures DigitRun(s) == |s|
  {
    if s != "" { DigitRunAll(s[1..]); }
  }

  lemma {:induction false} ValueOfDecimal(n: nat)
    ensures Value(Decimal(n)) == n
  {
    if n < 10 {
      var s := Decimal(n);
      assert s[..|s| - 1] == "";
    } else {
      ValueOfDecimal(n / 10);
      var s := Decimal(n);
      assert s[..|s| - 1] == Decimal(n / 10);
      assert n == 10 * (n / 10) + n % 10;
    }
  }

  function Pow10(k: nat): nat { if k == 0 then 1 else 10 * Pow10(k - 1) }

  lemma {:induction false} DecimalLength(n: nat, k: nat)
    requires 0 < k && n < Pow10(k)
    ensures |Decimal(n)| <= k
  {
    if n >= 10 {
      DecimalLength(n / 10, k - 1);
    }
  }
}

/** AT#BND: writing and reading the five band masks. */
module Bands {
  import opened Buffers
  import opened Parameters

  const U64: nat := 0x1_0000_0000_0000_0000
  const FIELD_MAX: nat := 31
  const COMMAND_MAX: nat := 127
  const TRIM := {' ', '\t', '"'}

  type Mask = n: nat | n < U64

  datatype BandConfig = BandConfig(gsm: Mask, umts: Mask, lte: Mask, tdscdma: Mask, lteOver64: Mask)

  datatype Result = Bands(config: BandConfig) | AtError

  datatype Parsed = Number(mask: Mask) | Malformed

  function Texts(b: BandConfig): seq<string> {
    [Decimal(b.gsm), Decimal(b.umts), Decimal(b.lte), Decimal(b.tdscdma), Decimal(b.lteOver64)]
  }

  function BandParams(b: BandConfig): string { Commas(Texts(b)) }

  /** The set command; the 128-byte buffer keeps at most 127 characters of it. */
  function SetBands(b: BandConfig): string { Clip("AT#BND=" + BandParams(b), COMMAND_MAX) }

  /** A token trimmed on both sides and cut to the field buffer. */
  function Field(token: string): string {
    var fs := SkipAny(token, TRIM, 0);
    if fs == |token| then "" else
    var fe := BackAny(token, TRIM, |token|);
    if fs <= fe then Clip(token[fs..fe], FIELD_MAX) else ""
  }

  /**
   strtoull over a whole C string: white space, an optional sign, digits and nothing else.  Too large a number
   saturates; a minus sign negates modulo 2^64.
   */
  function ParseU64(s: string): Parsed {
    var number := ReadSign(s);
    var digits, negative := number.text, number.negative;
    if digits == "" || DigitRun(digits) != |digits| then Malformed
    else
      var v := Value(digits);
      if v >= U64 then Number(U64 - 1)
      else if negative && v > 0 then Number(U64 - v)
      else Number(v)
  }

  function Parse(token: string): Parsed { ParseU64(CStr(Field(token))) }

  /** Five fields, each of them a number; anything else is an error. */
  function Assemble(vs: seq<Parsed>): Result {
    if |vs| < 5 || vs[0].Malformed? || vs[1].Malformed? || vs[2].Malformed? || vs[3].Malformed? || vs[4].Malformed?
    then AtError
    else Bands(BandConfig(vs[0].mask, vs[1].mask, vs[2].mask, vs[3].mask, vs[4].mask))
  }

  /** What a parameter list says. */
  function Interpret(params: string): Result { Assemble(Map(Parse, Tokens(params, 5))) }

  /** What the answer to AT#BND? says. */
  function GetBands(body: string): Result {
    match BehindColon(body)
    case NoColon => AtError
    case Params(params) => Interpret(params)
  }

  method ReadParams(params: string) returns (r: Result)
    ensures r == Interpret(params)
  {
    var fields := SplitFields(params, 5);
    var values := MapFields(Parse, fields);
    r := Assemble(values);
  }

  method ReadBands(body: string) returns (r: Result)
    ensures r == GetBands(body)
  {
    match BehindColon(body)
    case NoColon => r := AtError;
    case Params(params) => r := ReadParams(params);
  }

  lemma {:induction false} MaskLength(n: Mask)
    ensures |Decimal(n)| <= 20
  {
    assert Pow10(2) == 100 && Pow10(4) == 100 * Pow10(2) && Pow10(6) == 100 * Pow10(4);
    assert Pow10(8) == 100 * Pow10(6) && Pow10(10) == 100 * Pow10(8) && Pow10(12) == 100 * Pow10(10);
    assert Pow10(14) == 100 * Pow10(12) && Pow10(16) == 100 * Pow10(14) && Pow10(18) == 100 * Pow10(16);
    assert Pow10(20) == 100 * Pow10(18);
    DecimalLength(n, 20);
  }

  lemma {:induction false} FieldOf(blanks: string, d: string)
    requires forall i :: 0 <= i < |blanks| ==> blanks[i] == ' '
    requires 0 < |d| <= FIELD_MAX && AllDigits(d)
    ensures Field(blanks + d) == d
  {
    var token := blanks + d;
    forall j | 0 <= j < |blanks| ensures token[j] in TRIM {
      assert token[j] == blanks[j] == ' ';
    }
    assert token[|blanks|] == d[0];
    SkipAnyIs(token, TRIM, |blanks|);
    assert token[|token| - 1] == d[|d| - 1];
    assert BackAny(token, TRIM, |token|) == |token|;
    assert token[|blanks|..|token|] == d;
  }

  /** A printed mask, with blanks in front of it, is read back as the same mask. */
  lemma {:induction false} MaskRoundTrip(n: Mask, blanks: string)
    requires forall i :: 0 <= i < |blanks| ==> blanks[i] == ' '
    ensures Parse(blanks + Decimal(n)) == Number(n)
  {
    var d := Decimal(n);
    MaskLength(n);
    DecimalIsDigits(n);
    FieldOf(blanks, d);
    CStrOf(d);
    NoSign(d);
    DigitRunAll(d);
    ValueOfDecimal(n);
  }

  lemma {:induction false} BandTokens(b: BandConfig, blanks: string, ts: seq<string>)
    requires forall i :: 0 <= i < |blanks| ==> blanks[i] == ' '
    requires ts == [blanks + Decimal(b.gsm), Decimal(b.umts), Decimal(b.lte), Decimal(b.tdscdma), Decimal(b.lteOver64)]
    ensures Tokens(blanks + BandParams(b), 5) == ts
  {
    assert blanks + BandParams(b) == Commas(ts) by {
      CommasOfFive(Decimal(b.gsm), ts[1], ts[2], ts[3], ts[4]);
      CommasOfFive(ts[0], ts[1], ts[2], ts[3], ts[4]);
    }
    forall i | 0 <= i < 5 ensures NoComma(ts[i]) {
      DecimalIsDigits(b.gsm); DecimalIsDigits(b.umts); DecimalIsDigits(b.lte);
      DecimalIsDigits(b.tdscdma); DecimalIsDigits(b.lteOver64);
    }
    TokensOfCommas(ts, 5);
    assert DropLastEmpty(ts) == ts;
  }

  /** All five masks survive printing and parsing, whatever name and blanks stand before the list. */
  lemma {:induction false} BandsRoundTrip(b: BandConfig, name: string, blanks: string)
    requires ':' !in name && forall i :: 0 <= i < |blanks| ==> blanks[i] == ' '
    ensures GetBands(name + ":" + (blanks + BandParams(b))) == Bands(b)
  {
    var params := blanks + BandParams(b);
    AfterColon(name, params);
    var ts := [blanks + Decimal(b.gsm), Decimal(b.umts), Decimal(b.lte), Decimal(b.tdscdma), Decimal(b.lteOver64)];
    BandTokens(b, blanks, ts);
    FiveParse(b, blanks, ts);
  }

  lemma {:induction false} ParsedAt(fields: seq<string>, i: nat, n: Mask, blanks: string)
    requires i < |fields| && fields[i] == blanks + Decimal(n)
    requires forall k :: 0 <= k < |blanks| ==> blanks[k] == ' '
    ensures Map(Parse, fields)[i] == Number(n)
  {
    if i > 0 { ParsedAt(fields[1..], i - 1, n, blanks); } else { MaskRoundTrip(n, blanks); }
  }

  lemma {:induction false} FiveParse(b: BandConfig, blanks: string, ts: seq<string>)
    requires forall k :: 0 <= k < |blanks| ==> blanks[k] == ' '
    requires ts == [blanks + Decimal(b.gsm), Decimal(b.umts), Decimal(b.lte), Decimal(b.tdscdma), Decimal(b.lteOver64)]
    ensures Assemble(Map(Parse, ts)) == Bands(b)
  {
    assert forall s: string :: "" + s == s;
    ParsedAt(ts, 0, b.gsm, blanks);
    ParsedAt(ts, 1, b.umts, "");
    ParsedAt(ts, 2, b.lte, "");
    ParsedAt(ts, 3, b.tdscdma, "");
    ParsedAt(ts, 4, b.lteOver64, "");
  }

  /** The command is at most 111 characters, so its buffer never cuts it. */
  lemma {:induction false} CommandIsNeverCut(b: BandConfig)
    ensures |"AT#BND=" + BandParams(b)| <= 111
    ensures SetBands(b) == "AT#BND=" + BandParams(b)
  {
    MaskLength(b.gsm); MaskLength(b.umts); MaskLength(b.lte); MaskLength(b.tdscdma); MaskLength(b.lteOver64);
    CommasOfFive(Decimal(b.gsm), Decimal(b.umts), Decimal(b.lte), Decimal(b.tdscdma), Decimal(b.lteOver64));
  }

  /** A list of fewer than five fields, or of five with nothing behind the last comma, is rejected. */
  lemma {:induction false} TooFewFields(name: string, ts: seq<string>)
    requires ':' !in name
    requires |ts| <= 5 && forall i :: 0 <= i < |ts| ==> NoComma(ts[i])
    requires |DropLastEmpty(ts)| < 5
    ensures GetBands(name + ":" + Commas(ts)) == AtError
  {
    AfterColon(name, Commas(ts));
    TokensOfCommas(ts, 5);
  }

  /** Quotes and tabs around a field do not matter; anything but digits in it does, and so does nothing at all. */
  lemma {:induction false} QuotedMask(n: Mask, d: string)
    requires d == Decimal(n)
    ensures Field("\"" + d + "\"") == d && Field("\t" + d + " ") == d
  {
    MaskLength(n);
    DecimalIsDigits(n);
    TrimmedField("\"", d, "\"");
    TrimmedField("\t", d, " ");
  }

  lemma {:induction false} TrimmedField(a: string, d: string, b: string)
    requires |a| == |b| == 1 && a[0] in TRIM && b[0] in TRIM
    requires 0 < |d| <= FIELD_MAX && AllDigits(d)
    ensures Field(a + d + b) == d
  {
    var t := a + d + b;
    assert t[0] == a[0] && t[1] == d[0] && t[|t| - 1] == b[0] && t[|t| - 2] == d[|d| - 1];
    SkipAnyIs(t, TRIM, 1);
    assert BackAny(t, TRIM, |t|) == |t| - 1 by { assert BackAny(t, TRIM, |t| - 1) == |t| - 1; }
    assert t[1..|t| - 1] == d;
  }

  lemma {:induction false} MinusOne(s: string, one: string)
    requires s == "-1" && one == "1"
    ensures ParseU64(s) == Number(0xFFFF_FFFF_FFFF_FFFF)
  {
    SkipAnyIs(s, WHITE, 0);
    assert s[0..] == s && s[1..] == one;
    assert ReadSign(s) == Signed(true, one);
    assert DigitRun(one) == 1 by { assert one[1..] == "" && DigitRun("") == 0; }
    assert Value(one) == 1 by { assert one[..0] == "" && Value("") == 0; }
  }

  lemma {:induction false} MalformedMask(s: string)
    requires s == "" || (s[0] !in WHITE && s[0] != '+' && s[0] != '-')
    ensures ParseU64(s) == Malformed <==> s == "" || DigitRun(s) != |s|
  {
    if s != "" {
      SkipAnyIs(s, WHITE, 0);
      assert s[0..] == s;
    } else {
      assert SkipAny(s, WHITE, 0) == 0;
    }
  }

  /** A field is cut to its buffer of 31 characters. */
  lemma {:induction false} LongField(d: string)
    requires |d| == 32 && AllDigits(d)
    ensures Field(d) == d[..31]
  {
    SkipAnyIs(d, TRIM, 0);
    assert BackAny(d, TRIM, |d|) == |d| && d[0..|d|] == d;
  }

  /** A number beyond 64 bits saturates, and a minus sign negates modulo 2^64. */
  lemma {:induction false} HugeMask(n: nat)
    requires n >= 0x1_0000_0000_0000_0000
    ensures ParseU64(Decimal(n)) == Number(0xFFFF_FFFF_FFFF_FFFF)
    ensures ParseU64("-1") == Number(0xFFFF_FFFF_FFFF_FFFF)
  {
    MinusOne("-1", "1");
    DecimalIsDigits(n);
    NoSign(Decimal(n));
    DigitRunAll(Decimal(n));
    ValueOfDecimal(n);
  }
}

/** AT+CPSMS: writing and reading the power saving configuration of section 7.38 of 3GPP TS 27.007. */
module Psm {
  import opened Buffers
  import opened Text
  import opened Parameters

  const SHORT_STR: nat := 32

  type Mode = n: nat | n < 256

  datatype PsmConfig = PsmConfig(mode: Mode, rau: string, ready: string, tau: string, active: string)

  const DEFAULT := PsmConfig(0, "", "", "", "")

  datatype Result = Config(config: PsmConfig) | AtError

  function Quoted(s: string): string { if s == "" then "" else "\"" + CStr(s) + "\"" }

  function Texts(c: PsmConfig): seq<string> {
    [Decimal(c.mode), Quoted(c.rau), Quoted(c.ready), Quoted(c.tau), Quoted(c.active)]
  }

  predicate OnlyMode(c: PsmConfig) { c.rau == "" && c.ready == "" && c.tau == "" && c.active == "" }

  function PsmParams(c: PsmConfig): string {
    if OnlyMode(c) then Decimal(c.mode) else Commas(Texts(c))
  }

  /** A token without leading blanks, cut to the field buffer. */
  function Field(token: string): string { Clip(token[SkipAny(token, {' '}, 0)..], SHORT_STR) }

  function Strip(s: string): (r: string)
    ensures |r| <= |s|
  {
    if |s| >= 2 && s[0] == '"' && s[|s| - 1] == '"' then s[1..|s| - 1] else s
  }

  function Unfield(token: string): string { Strip(Field(token)) }

  /** atoi of a field, kept in one byte; what stands behind the digits does not matter. */
  function ModeOf(field: string): Mode {
    var number := ReadSign(CStr(field));
    var v := Value(number.text[..DigitRun(number.text)]) % 256;
    if number.negative && v > 0 then 256 - v else v
  }

  /** The fields that are present replace those of the configuration at hand. */
  function Update(ts: seq<string>, was: PsmConfig): PsmConfig {
    PsmConfig(
      if |ts| >= 1 then ModeOf(Field(ts[0])) else was.mode,
      if |ts| >= 2 then Unfield(ts[1]) else was.rau,
      if |ts| >= 3 then Unfield(ts[2]) else was.ready,
      if |ts| >= 4 then Unfield(ts[3]) else was.tau,
      if |ts| >= 5 then Unfield(ts[4]) else was.active)
  }

  function GetPsm(body: string, was: PsmConfig): Result {
    match BehindColon(body)
    case NoColon => AtError
    case Params(params) => Config(Update(Tokens(params, 5), was))
  }

  method ReadPsm(body: string, was: PsmConfig) returns (r: Result)
    ensures r == GetPsm(body, was)
  {
    match BehindColon(body)
    case NoColon => r := AtError;
    case Params(params) =>
      var fields := SplitFields(params, 5);
      r := Config(Update(fields, was));
  }

  // ---------------------------------------------------------------------------
  // One timer string
  // ---------------------------------------------------------------------------

  /** Short enough for its quotes, and free of the characters that end a token or a C string. */
  predicate Portable(s: string) { |s| <= 30 && ',' !in s && NUL !in s }

  lemma {:induction false} FieldOfQuoted(c: string)
    ensures Field("\"" + c + "\"") == Clip("\"" + c + "\"", SHORT_STR)
  {
    var q := "\"" + c + "\"";
    SkipAnyIs(q, {' '}, 0);
    assert q[0..] == q;
  }

  lemma {:induction false} AllQuotes(s: string, n: nat)
    requires n < |s| && s[0] == '"'
    requires forall i :: 0 < i < |s| ==> s[i] == s[i - 1]
    ensures s[n] == '"'
  {
    if n > 0 { AllQuotes(s, n - 1); }
  }

  /** A quoted string of at most 30 characters loses nothing but its quotes. */
  lemma {:induction false} ShortUnquotes(c: string)
    requires |c| + 2 <= SHORT_STR
    ensures Unfield("\"" + c + "\"") == c
  {
    FieldOfQuoted(c);
    var q := "\"" + c + "\"";
    assert Clip(q, SHORT_STR) == q;
    assert q[0] == '"' && q[|q| - 1] == '"' && q[1..|q| - 1] == c;
  }

  /** A longer one loses its closing quote, and never comes back as it was. */
  lemma {:induction false} LongIsDamaged(s: string, c: string)
    requires c <= s && |s| <= SHORT_STR && |c| + 2 > SHORT_STR
    ensures Unfield("\"" + c + "\"") != s
  {
    FieldOfQuoted(c);
    var q := "\"" + c + "\"";
    var f := Clip(q, SHORT_STR);
    assert |f| == SHORT_STR && f == "\"" + c[..SHORT_STR - 1];
    assert f[SHORT_STR - 1] == c[SHORT_STR - 2];
    if c[SHORT_STR - 2] != '"' && f == s {
      forall i | 0 < i < |s| ensures s[i] == s[i - 1] { assert f[i] == c[i - 1] == s[i - 1]; }
      AllQuotes(s, SHORT_STR - 2);
    }
  }

  lemma {:induction false} StringSurvivesIff(s: string)
    requires |s| <= SHORT_STR && NoComma(s)
    ensures s == "" || (Unfield(Quoted(s)) == s <==> Portable(s))
    ensures s == "" ==> Unfield(Quoted(s)) == s
  {
    if s == "" {
      assert Field("") == "";
    } else {
      CStrOf(s);
      var c := CStr(s);
      if |c| + 2 <= SHORT_STR { ShortUnquotes(c); } else { LongIsDamaged(s, c); }
    }
  }

  // ---------------------------------------------------------------------------
  // The whole configuration
  // ---------------------------------------------------------------------------

  ghost predicate AllPortable(c: PsmConfig) {
    (c.rau == "" || Portable(c.rau)) && (c.ready == "" || Portable(c.ready))
    && (c.tau == "" || Portable(c.tau)) && (c.active == "" || Portable(c.active))
  }

  ghost predicate Stored(c: PsmConfig) {
    c.mode < 2 && |c.rau| <= SHORT_STR && |c.ready| <= SHORT_STR && |c.tau| <= SHORT_STR && |c.active| <= SHORT_STR
  }

  ghost predicate Commaless(c: PsmConfig) {
    NoComma(c.rau) && NoComma(c.ready) && NoComma(c.tau) && NoComma(c.active)
  }

  lemma {:induction false} TokensHaveNoComma(s: string, n: nat, i: nat)
    requires i < |Tokens(s, n)|
    ensures NoComma(Tokens(s, n)[i])
    decreases |s|
  {
    var k := Find(s, ',', 0);
    if i > 0 {
      TokensHaveNoComma(s[k + 1..], n - 1, i - 1);
    } else {
      forall j | 0 <= j < k ensures s[j] != ',' { FindSkips(s, ',', 0, j); }
    }
  }

  lemma {:induction false} UnfieldHasNoComma(t: string)
    requires NoComma(t)
    ensures NoComma(Unfield(t))
  {
  }

  lemma {:induction false} ReadingHasNoCommas(params: string)
    ensures Commaless(Update(Tokens(params, 5), DEFAULT))
  {
    var ts := Tokens(params, 5);
    forall i | 0 <= i < |ts| ensures NoComma(Unfield(ts[i])) {
      TokensHaveNoComma(params, 5, i);
      UnfieldHasNoComma(ts[i]);
    }
  }

  lemma {:induction false} QuotedHasNoComma(s: string)
    requires NoComma(s)
    ensures NoComma(Quoted(s))
  {
  }

  lemma {:induction false} ModeSurvives(m: Mode, blanks: string)
    requires m < 2 && forall i :: 0 <= i < |blanks| ==> blanks[i] == ' '
    ensures ModeOf(Field(blanks + Decimal(m))) == m && NoComma(blanks + Decimal(m))
  {
    var t := blanks + Decimal(m);
    assert |Decimal(m)| == 1;
    forall j | 0 <= j < |blanks| ensures t[j] in {' '} { assert t[j] == blanks[j]; }
    assert t[|blanks|] == Decimal(m)[0];
    SkipAnyIs(t, {' '}, |blanks|);
    assert t[|blanks|..] == Decimal(m);
    var f := Field(t);
    assert f == Decimal(m);
    CStrOf(f);
    NoSign(f);
    assert DigitRun(f) == 1 by { assert f[1..] == ""; }
    assert f[..1] == f;
    ValueOfDecimal(m);
  }

  lemma {:induction false} UpdateOfFive(ts: seq<string>)
    requires |ts| == 5
    ensures Update(DropLastEmpty(ts), DEFAULT)
         == PsmConfig(ModeOf(Field(ts[0])), Unfield(ts[1]), Unfield(ts[2]), Unfield(ts[3]), Unfield(ts[4]))
  {
    if ts[4] == "" {
      assert Field(ts[4]) == "";
      var four := ts[..4];
      assert DropLastEmpty(ts) == four && four[0] == ts[0] && four[1] == ts[1] && four[2] == ts[2] && four[3] == ts[3];
    }
  }

  /** Without commas in the strings, what is read is what each token gives on its own. */
  lemma {:induction false} ReadsTokenwise(c: PsmConfig, blanks: string)
    requires c.mode < 2 && Commaless(c) && forall i :: 0 <= i < |blanks| ==> blanks[i] == ' '
    ensures Update(Tokens(blanks + PsmParams(c), 5), DEFAULT)
         == PsmConfig(c.mode, Unfield(Quoted(c.rau)), Unfield(Quoted(c.ready)), Unfield(Quoted(c.tau)),
                      Unfield(Quoted(c.active)))
  {
    ModeSurvives(c.mode, blanks);
    var first := blanks + Decimal(c.mode);
    if OnlyMode(c) {
      TokensLast(first, 5);
      assert Field("") == "";
    } else {
      var ts := Texts(c);
      var ts' := [first, ts[1], ts[2], ts[3], ts[4]];
      assert blanks + PsmParams(c) == Commas(ts') by {
        CommasOfFive(ts[0], ts[1], ts[2], ts[3], ts[4]);
        CommasOfFive(first, ts[1], ts[2], ts[3], ts[4]);
      }
      assert Tokens(Commas(ts'), 5) == DropLastEmpty(ts') by {
        QuotedHasNoComma(c.rau); QuotedHasNoComma(c.ready); QuotedHasNoComma(c.tau); QuotedHasNoComma(c.active);
        TokensOfCommas(ts', 5);
      }
      UpdateOfFive(ts');
    }
  }

  lemma {:induction false} ReadIff(c: PsmConfig, blanks: string)
    requires Stored(c) && forall i :: 0 <= i < |blanks| ==> blanks[i] == ' '
    ensures Update(Tokens(blanks + PsmParams(c), 5), DEFAULT) == c <==> AllPortable(c)
  {
    ReadingHasNoCommas(blanks + PsmParams(c));
    if Commaless(c) {
      ReadsTokenwise(c, blanks);
      StringSurvivesIff(c.rau);
      StringSurvivesIff(c.ready);
      StringSurvivesIff(c.tau);
      StringSurvivesIff(c.active);
    } else {
      assert !AllPortable(c) by { PortableHasNoComma(c); }
    }
  }

  lemma {:induction false} PortableHasNoComma(c: PsmConfig)
    ensures AllPortable(c) ==> Commaless(c)
  {
  }

  /**
   Exactly which configurations come back as they were: those whose timer strings are at most 30 characters long and
   hold no comma and no NUL.  All patterns of empty fields are covered.
   */
  lemma {:induction false} PsmRoundTripIff(c: PsmConfig, name: string, blanks: string)
    requires Stored(c) && ':' !in name && forall i :: 0 <= i < |blanks| ==> blanks[i] == ' '
    ensures GetPsm(name + ":" + (blanks + PsmParams(c)), DEFAULT) == Config(c) <==> AllPortable(c)
  {
    AfterColon(name, blanks + PsmParams(c));
    ReadIff(c, blanks);
  }

  /** A timer string of 31 characters fits its buffer, and does not come back. */
  lemma {:induction false} LongTimerIsLost(c: PsmConfig)
    requires c == PsmConfig(1, seq(31, _ => '0'), "", "", "")
    ensures Stored(c) && GetPsm("+CPSMS" + ":" + (" " + PsmParams(c)), DEFAULT) != Config(c)
  {
    assert !Portable(c.rau) && c.rau != "";
    PsmRoundTripIff(c, "+CPSMS", " ");
  }

  /** An answer with the mode alone leaves the timers as they were; one without a colon is an error. */
  lemma {:induction false} MissingFieldsStay(was: PsmConfig, m: Mode)
    requires m < 2
    ensures GetPsm("+CPSMS" + ":" + (" " + Decimal(m)), was) == Config(was.(mode := m))
    ensures GetPsm("OK", was) == AtError
  {
    AfterColon("+CPSMS", " " + Decimal(m));
    ModeSurvives(m, " ");
    TokensLast(" " + Decimal(m), 5);
    FindIs("OK", ':', 2);
  }

  /** The mode is read as atoi reads it: signs count, and what stands behind the digits does not. */
  lemma {:induction false} ModeAsAtoi(d: string, rest: string)
    requires d in ["0", "1"] && rest != "" && !IsDigit(rest[0]) && NUL !in rest
    ensures ModeOf(d + rest) == DigitValue(d[0])
  {
    var f := d + rest;
    CStrOf(f);
    NoSign(f);
    assert f[1..] == rest;
    assert DigitRun(f) == 1;
    assert f[..1] == d;
    assert d[..0] == "" && Value("") == 0;
    assert Value(d) == DigitValue(d[0]);
  }

  /** Quotes are taken off only in pairs. */
  lemma {:induction false} HalfQuotedStays(s: string)
    requires s != "" && s[|s| - 1] != '"' && |s| < SHORT_STR
    ensures Unfield("\"" + s) == "\"" + s
  {
    var q := "\"" + s;
    SkipAnyIs(q, {' '}, 0);
    assert q[0..] == q && q[|q| - 1] == s[|s| - 1];
    assert Clip(q, SHORT_STR) == q;
  }
}

/** The same round trips through the whole answer of the modem: status line, terminators and all. */
module Answers {
  import opened Parameters
  import At = AtResponses
  import Bands
  import Psm

  const OK := "OK"

  /** One line, a final OK, and a terminator behind each. */
  function Answer(line: string): string { At.Render([line] + [OK]) }

  lemma {:induction false} AnswerText(line: string)
    ensures |Answer(line)| == |line| + 6
  {
    assert ([line] + [OK])[1..] == [OK] && [OK][1..] == [];
    assert |At.Render([OK])| == 4;
  }

  /** An answer of one line and a final OK is read as that line. */
  lemma {:induction false} OneLine(line: string)
    requires 0 < |line| <= 1024 && '\r' !in line && At.Kind(line).Plain?
    ensures At.Meaning(Answer(line)) == At.Response(At.Ok, line)
  {
    assert At.TerminatorFree(line) && At.TerminatorFree(OK);
    At.ParsesRendered([line], OK);
    AnswerText(line);
    assert At.Join([line]) == line;
  }

  /** No status line starts like the answers read here. */
  lemma {:induction false} StartsPlain(line: string)
    requires |line| > 2 && (line[0] == '#' || (line[0] == '+' && line[2] == 'P'))
    ensures At.Kind(line).Plain?
  {
    assert "OK"[0] == 'O' && "ERROR"[0] == 'E' && "BUSY"[0] == 'B';
    assert "+CME ERROR:"[0] == '+' && "+CMS ERROR:"[0] == '+' && "+CME ERROR:"[2] == 'M' && "+CMS ERROR:"[2] == 'M';
  }

  lemma {:induction false} DecimalHasNoCr(n: nat)
    ensures '\r' !in Decimal(n)
  {
    DecimalIsDigits(n);
  }

  lemma {:induction false} BandParamsAreShort(b: Bands.BandConfig)
    ensures |Bands.BandParams(b)| <= 104 && '\r' !in Bands.BandParams(b)
  {
    DecimalHasNoCr(b.gsm); DecimalHasNoCr(b.umts); DecimalHasNoCr(b.lte);
    DecimalHasNoCr(b.tdscdma); DecimalHasNoCr(b.lteOver64);
    CommasOfFive(Decimal(b.gsm), Decimal(b.umts), Decimal(b.lte), Decimal(b.tdscdma), Decimal(b.lteOver64));
    Bands.CommandIsNeverCut(b);
  }

  /** Whatever the five masks: the modem's answer to AT#BND?, parsed as an answer and then as bands, gives them back. */
  lemma {:induction false} BandsThroughAnswer(b: Bands.BandConfig, line: string)
    requires line == "#BND" + ":" + (" " + Bands.BandParams(b))
    ensures At.Meaning(Answer(line)) == At.Response(At.Ok, line) && Bands.GetBands(line) == Bands.Bands(b)
  {
    BandParamsAreShort(b);
    assert line[0] == '#';
    StartsPlain(line);
    OneLine(line);
    Bands.BandsRoundTrip(b, "#BND", " ");
  }

  ghost predicate CrFree(c: Psm.PsmConfig) {
    '\r' !in c.rau && '\r' !in c.ready && '\r' !in c.tau && '\r' !in c.active
  }

  lemma {:induction false} QuotedIsShort(s: string)
    requires |s| <= Psm.SHORT_STR && '\r' !in s
    ensures |Psm.Quoted(s)| <= 34 && '\r' !in Psm.Quoted(s)
  {
  }

  lemma {:induction false} PsmParamsAreShort(c: Psm.PsmConfig)
    requires Psm.Stored(c) && CrFree(c)
    ensures |Psm.PsmParams(c)| <= 150 && '\r' !in Psm.PsmParams(c)
  {
    DecimalHasNoCr(c.mode);
    QuotedIsShort(c.rau); QuotedIsShort(c.ready); QuotedIsShort(c.tau); QuotedIsShort(c.active);
    var ts := Psm.Texts(c);
    CommasOfFive(ts[0], ts[1], ts[2], ts[3], ts[4]);
  }

  /** The same for the power saving configuration, when its strings hold no carriage return. */
  lemma {:induction false} PsmThroughAnswerIff(c: Psm.PsmConfig, line: string)
    requires Psm.Stored(c) && CrFree(c) && line == "+CPSMS" + ":" + (" " + Psm.PsmParams(c))
    ensures At.Meaning(Answer(line)) == At.Response(At.Ok, line)
    ensures Psm.GetPsm(line, Psm.DEFAULT) == Psm.Config(c) <==> Psm.AllPortable(c)
  {
    PsmParamsAreShort(c);
    assert line[0] == '+' && line[2] == 'P';
    StartsPlain(line);
    OneLine(line);
    Psm.PsmRoundTripIff(c, "+CPSMS", " ");
  }
}
