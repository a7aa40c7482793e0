/** Decimal rendering as the session manager does it by hand, and the two kinds of
    identifier it is used in: fork ids and (through fmt) user-message ids. */
module Decimal {
  import opened Basics

  const MIN_INT64: int := -0x8000_0000_0000_0000
  const MAX_INT64: int := 0x7FFF_FFFF_FFFF_FFFF

  const TWO_TO_64: int := 0x1_0000_0000_0000_0000

  type Int64 = v: int | MIN_INT64 <= v <= MAX_INT64

  /** The counter after one more: behind the largest value comes the smallest. */
  function Next64(v: Int64): Int64 {
    if v == MAX_INT64 then MIN_INT64 else v + 1
  }

  /** The counter after k more. */
  function Add64(v: Int64, k: nat): Int64
    decreases k
  {
    if k == 0 then v else Next64(Add64(v, k - 1))
  }

  /** Where the x-th step from the smallest value leads. */
  function Ring(x: nat): Int64 {
    x % TWO_TO_64 + MIN_INT64
  }

  lemma OneStepOn(x: nat)
    ensures Ring(x + 1) == Next64(Ring(x))
  {
    assert x == TWO_TO_64 * (x / TWO_TO_64) + x % TWO_TO_64;
    if x % TWO_TO_64 == TWO_TO_64 - 1 {
      assert x + 1 == TWO_TO_64 * (x / TWO_TO_64 + 1);
    }
  }

  lemma FromTheSmallest(v: Int64)
    ensures Ring(v - MIN_INT64) == v
  {
  }

  /** Counting goes round in a ring of 2^64 values. */
  lemma {:induction false} AddIs(v: Int64, k: nat)
    ensures Add64(v, k) == Ring(v - MIN_INT64 + k)
    decreases k
  {
    if k == 0 {
      FromTheSmallest(v);
    } else {
      AddIs(v, k - 1);
      OneStepOn(v - MIN_INT64 + (k - 1));
    }
  }

  lemma SamePlaceIff(a: nat, b: nat)
    requires a <= b
    ensures Ring(a) == Ring(b) <==> (b - a) % TWO_TO_64 == 0
  {
    var d, q, r := b - a, b / TWO_TO_64 - a / TWO_TO_64, b % TWO_TO_64 - a % TWO_TO_64;
    assert d == TWO_TO_64 * q + r;
    assert d == TWO_TO_64 * (d / TWO_TO_64) + d % TWO_TO_64;
  }

  lemma AddInjective(v: Int64, k: nat, l: nat)
    requires k <= l
    ensures Add64(v, k) == Add64(v, l) <==> (l - k) % TWO_TO_64 == 0
  {
    var a, b: nat := v - MIN_INT64 + k, v - MIN_INT64 + l;
    AddIs(v, k);
    AddIs(v, l);
    SamePlaceIff(a, b);
    assert b - a == l - k;
  }

  lemma SmallIsNoMultiple(d: int)
    requires 0 < d < TWO_TO_64
    ensures d % TWO_TO_64 != 0
  {
  }

  /** Two's complement negation on 64 bits: the smallest value is its own negation. */
  function Negate64(v: int): int
    requires MIN_INT64 <= v <= MAX_INT64
  {
    if v == MIN_INT64 then v else -v
  }

  function DigitChar(d: int): (c: char)
    requires 0 <= d < 10
  {
    ('0' as int + d) as char
  }

  predicate IsDigit(c: char) {
    '0' <= c <= '9'
  }

  predicate AllDigits(s: string) {
    forall i :: 0 <= i < |s| ==> IsDigit(s[i])
  }

  /** The digits of a natural number, most significant first; none for zero. */
  function Digits(n: nat): (s: string)
    ensures AllDigits(s)
    ensures n > 0 ==> s != [] && s[0] != '0'
  {
    if n == 0 then [] else Digits(n / 10) + [DigitChar(n % 10)]
  }

  /** The decimal rendering of an integer. */
  function Render(v: int): string {
    if v == 0 then "0" else if v < 0 then "-" + Digits(-v) else Digits(v)
  }

  /** The number a digit string denotes. */
  function ValueOf(s: string): nat
    requires AllDigits(s)
  {
    if s == [] then 0 else 10 * ValueOf(s[..|s| - 1]) + (s[|s| - 1] as int - '0' as int)
  }

  lemma {:induction false} DigitsDecode(n: nat)
    ensures ValueOf(Digits(n)) == n
  {
    if n > 0 {
      var s := Digits(n);
      assert s[..|s| - 1] == Digits(n / 10);
      DigitsDecode(n / 10);
    }
  }

  function Pow10(k: nat): (p: nat)
    ensures p >= 1
  {
    if k == 0 then 1 else 10 * Pow10(k - 1)
  }

  /** What itoa answers on every 64-bit value. Only at the smallest one is it not the decimal rendering. */
  function ItoaText(v: int): string
    requires MIN_INT64 <= v <= MAX_INT64
  {
    if v == MIN_INT64 then "-" else Render(v)
  }

  /** The hand-written rendering: a 20-byte buffer filled from its end.
      That no index underruns the buffer is part of what is verified here. */
  method Itoa(v: int) returns (s: string)
    requires MIN_INT64 <= v <= MAX_INT64
    ensures s == ItoaText(v)
  {
    if v == 0 {
      return "0";
    }
    var sign := "";
    var w := v;
    if w < 0 {
      sign := "-";
      w := Negate64(w);
    }
    var buf := new char[20];
    var i := buf.Length;
    if w > 0 {
      i := FillDigits(buf, w);
    }
    s := sign + buf[i..];
  }

  /** The filling loop of itoa: digits from the end of the buffer backwards. */
  method FillDigits(buf: array<char>, v: int) returns (i: nat)
    requires buf.Length == 20 && 0 < v <= MAX_INT64
    modifies buf
    ensures i <= buf.Length && buf[i..] == Digits(v)
  {
    var w := v;
    i := buf.Length;
    FitsIn19Digits(w);
    ghost var filled: string := [];
    while w > 0
      invariant 1 <= i <= 20 && 0 <= w
      invariant HasDigits(w, i - 1)
      invariant filled == buf[i..]
      invariant Digits(v) == Digits(w) + filled
    {
      DropLastDigit(w, i - 1, filled);
      i := i - 1;
      buf[i] := DigitChar(w % 10);
      filled := [DigitChar(w % 10)] + filled;
      w := w / 10;
    }
    assert [] + filled == filled;
  }

  /** Moving the last digit over to the text behind it; there is always a place left for it. */
  lemma DropLastDigit(w: nat, k: nat, tail: string)
    requires w > 0 && HasDigits(w, k)
    ensures k > 0 && HasDigits(w / 10, k - 1)
    ensures Digits(w) + tail == Digits(w / 10) + ([DigitChar(w % 10)] + tail)
  {
    OneDigitLess(w, k);
    var rest := Digits(w / 10);
    assert Digits(w) == rest + [DigitChar(w % 10)];
    assert rest + [DigitChar(w % 10)] + tail == rest + ([DigitChar(w % 10)] + tail);
  }

  lemma OneDigitLess(w: nat, k: nat)
    requires w > 0 && HasDigits(w, k)
    ensures k > 0 && HasDigits(w / 10, k - 1)
  {
  }

  /** The value needs no more than so many digits. */
  predicate HasDigits(w: int, k: nat) {
    w < Pow10(k)
  }

  lemma FitsIn19Digits(w: int)
    requires w <= MAX_INT64
    ensures HasDigits(w, 19)
  {
    assert Pow10(4) == 10_000;
    assert Pow10(8) == 10_000 * 10_000;
    assert Pow10(12) == 10_000 * 10_000 * 10_000;
    assert Pow10(16) == 10_000 * 10_000 * 10_000 * 10_000;
    assert Pow10(19) == 1000 * Pow10(16);
  }

  /** Rendering is injective on all 64-bit values, the odd one out included. */
  lemma ItoaInjective(v: int, w: int)
    requires MIN_INT64 <= v <= MAX_INT64 && MIN_INT64 <= w <= MAX_INT64
    ensures ItoaText(v) == ItoaText(w) <==> v == w
  {
    DigitsDecode(if v < 0 then -v else v);
    DigitsDecode(if w < 0 then -w else w);
    if v < 0 && w < 0 && ItoaText(v) == ItoaText(w) {
      assert ItoaText(v)[1..] == ItoaText(w)[1..];
      if v != MIN_INT64 && w != MIN_INT64 {
        assert ItoaText(v)[1..] == Digits(-v);
        assert ItoaText(w)[1..] == Digits(-w);
      }
    }
  }

  /** The result is the decimal rendering exactly when the argument has a 64-bit negation. */
  lemma ItoaIsDecimalUnlessMinimum(v: int)
    requires MIN_INT64 <= v <= MAX_INT64
    ensures ItoaText(v) == Render(v) <==> v != MIN_INT64
  {
    if v == MIN_INT64 {
      assert |Render(v)| > 1;
    }
  }

  // ---- identifiers that end in a decimal number ----

  /** The longest run of digits at the end of a string. */
  function DigitTail(s: string): string {
    if s != [] && IsDigit(s[|s| - 1]) then DigitTail(s[..|s| - 1]) + [s[|s| - 1]] else []
  }

  lemma {:induction false} DigitTailIsLongest(s: string)
    ensures var t := DigitTail(s);
      AllDigits(t) && |t| <= |s| && t == s[|s| - |t|..] && (|t| < |s| ==> !IsDigit(s[|s| - |t| - 1]))
  {
    if s != [] && IsDigit(s[|s| - 1]) {
      DigitTailIsLongest(s[..|s| - 1]);
    }
  }

  /** A tag that ends in a non-digit separates the number from what stands before it. */
  lemma TailOfTagged(base: string, tag: string, digits: string)
    requires tag != [] && !IsDigit(tag[|tag| - 1])
    requires AllDigits(digits)
    ensures DigitTail(base + tag + digits) == digits
  {
    var s := base + tag + digits;
    var t := DigitTail(s);
    DigitTailIsLongest(s);
    var k := |s| - |digits| - 1;
    assert s[k] == tag[|tag| - 1];
    assert forall i :: |s| - |t| <= i < |s| ==> IsDigit(s[i]) by {
      assert forall i :: 0 <= i < |t| ==> t[i] == s[|s| - |t| + i];
    }
    assert |t| <= |digits|;
    assert forall i :: k < i < |s| ==> IsDigit(s[i]) by {
      assert forall i :: 0 <= i < |digits| ==> digits[i] == s[k + 1 + i];
    }
    assert s[|s| - |t|..] == digits;
  }

  const FORK_TAG: string := "#fork-"
  const USER_TAG: string := "-u"

  function ForkId(base: string, n: Int64): string {
    base + FORK_TAG + ItoaText(n)
  }

  /** The id given to the n-th user message of a session. */
  function UserKey(session: string, n: nat): string {
    session + USER_TAG + Render(n)
  }

  /** The number a checkpoint key ends in. */
  function KeyNumber(key: string): nat {
    DigitTailIsLongest(key);
    ValueOf(DigitTail(key))
  }

  lemma RenderNatDecodes(n: nat)
    ensures AllDigits(Render(n)) && ValueOf(Render(n)) == n
  {
    DigitsDecode(n);
    assert ValueOf("0") == 0;
  }

  lemma NoHashInItoa(n: Int64)
    ensures '#' !in ItoaText(n)
  {
    var m: int := n;
    var digits := Digits(if m < 0 then -m else m);
    assert forall i :: 0 <= i < |digits| ==> IsDigit(digits[i]);
  }

  /** The last # of a fork id is the one its tag starts with. */
  lemma LastHash(b1: string, d1: string, b2: string, d2: string)
    requires '#' !in d1 && '#' !in d2
    requires b1 + FORK_TAG + d1 == b2 + FORK_TAG + d2
    ensures |b1| >= |b2|
  {
    var s := b1 + FORK_TAG + d1;
    assert s[|b2|] == '#' by {
      assert s == b2 + FORK_TAG + d2;
    }
    forall k | |b1| < k < |s|
      ensures s[k] != '#'
    {
      assert s[k] == (FORK_TAG[1..] + d1)[k - |b1| - 1];
    }
  }

  /** Fork ids decode: equal ids come from the same base and the same counter value. */
  lemma ForkIdInjective(b1: string, n1: Int64, b2: string, n2: Int64)
    ensures ForkId(b1, n1) == ForkId(b2, n2) <==> b1 == b2 && n1 == n2
    ensures n1 != MIN_INT64 ==> ForkId(b1, n1) == b1 + "#fork-" + Render(n1)
  {
    ItoaIsDecimalUnlessMinimum(n1);
    if ForkId(b1, n1) == ForkId(b2, n2) {
      NoHashInItoa(n1);
      NoHashInItoa(n2);
      LastHash(b1, ItoaText(n1), b2, ItoaText(n2));
      LastHash(b2, ItoaText(n2), b1, ItoaText(n1));
      assert b1 == ForkId(b1, n1)[..|b1|] && b2 == ForkId(b2, n2)[..|b2|];
      assert ItoaText(n1) == ForkId(b1, n1)[|b1| + |FORK_TAG|..];
      assert ItoaText(n2) == ForkId(b2, n2)[|b2| + |FORK_TAG|..];
      ItoaInjective(n1, n2);
    }
  }

  lemma UserKeyNumber(session: string, n: nat)
    ensures KeyNumber(UserKey(session, n)) == n && UserKey(session, n) == session + "-u" + Render(n)
  {
    RenderNatDecodes(n);
    TailOfTagged(session, USER_TAG, Render(n));
  }
}
