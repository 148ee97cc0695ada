/** Fixed-capacity text: the truncating operations of the fixed string that the parsers rest on. */
module Text {
  import opened Buffers

  /** Append to a buffer of capacity cap; what does not fit is lost. */
  function Append(buf: string, s: string, cap: nat): (r: string)
    requires |buf| <= cap
    ensures |r| <= cap
    ensures r == Clip(buf + s, cap)
  {
    buf + Clip(s, cap - |buf|)
  }

  predicate StartsWith(s: string, p: string) { p <= s }

  /** Index of the first c in s at or after i, or |s|. */
  function Find(s: string, c: char, i: nat): (k: nat)
    requires i <= |s|
    ensures i <= k <= |s|
    ensures k < |s| ==> s[k] == c
    decreases |s| - i
  {
    if i == |s| || s[i] == c then i else Find(s, c, i + 1)
  }

  /** What Find skips does not hold c. */
  lemma {:induction false} FindSkips(s: string, c: char, i: nat, j: nat)
    requires i <= |s| && i <= j < Find(s, c, i)
    ensures s[j] != c
    decreases |s| - i
  {
    if i < j { FindSkips(s, c, i + 1, j); }
  }

  /** The first c is where it is found. */
  lemma {:induction false} FindIs(s: string, c: char, k: nat)
    requires k <= |s| && (k < |s| ==> s[k] == c)
    requires forall j :: 0 <= j < k ==> s[j] != c
    ensures Find(s, c, 0) == k
  {
    FindFrom(s, c, 0, k);
  }

  lemma {:induction false} FindFrom(s: string, c: char, i: nat, k: nat)
    requires i <= k <= |s| && (k < |s| ==> s[k] == c)
    requires forall j :: i <= j < k ==> s[j] != c
    ensures Find(s, c, i) == k
    decreases k - i
  {
    if i < k { FindFrom(s, c, i + 1, k); }
  }

  /** Appending twice is appending once, however the text was cut. */
  lemma ClipClip(a: string, b: string, cap: nat)
    ensures Clip(Clip(a, cap) + b, cap) == Clip(a + b, cap)
  {
    if |a| <= cap {
      assert Clip(a, cap) == a;
    } else {
      assert Clip(Clip(a, cap) + b, cap) == Clip(a, cap);
      assert Clip(a + b, cap) == Clip(a, cap);
    }
  }

  lemma Associates<T>(a: seq<T>, b: seq<T>, c: seq<T>)
    ensures a + (b + c) == (a + b) + c
  {
  }
}
