/** Order, event and proof ids: Crockford base32 over a 48-bit time and 80 random bits. */
module Ulid {
  const ALPHA := "0123456789ABCDEFGHJKMNPQRSTVWXYZ"

  function Pow32(k: nat): (p: nat)
    ensures p >= 1
  {
    if k == 0 then 1 else 32 * Pow32(k - 1)
  }

  function Symbol(d: nat): char
    requires d < 32
  {
    ALPHA[d]
  }

  /** The last `length` base-32 digits of n, most significant first. */
  function Encoded(n: nat, length: nat): (s: string)
    ensures |s| == length
  {
    if length == 0 then "" else Encoded(n / 32, length - 1) + [Symbol(n % 32)]
  }

  function Reversed(s: string): (r: string)
    ensures |r| == |s|
  {
    if s == "" then "" else Reversed(s[1..]) + [s[0]]
  }

  /** Masking the low five bits and shifting them away, then turning the digits around. */
  method Encode(n: nat, length: nat) returns (text: string)
    ensures text == Encoded(n, length)
  {
    var out, rest := "", n;
    for i := 0 to length
      invariant |out| == i
      invariant Encoded(n, length) == Encoded(rest, length - i) + Reversed(out)
    {
      var digit := Symbol(rest % 32);
      ReversedAppend(out, digit);
      assert Encoded(rest, length - i) + Reversed(out)
          == Encoded(rest / 32, length - i - 1) + ([digit] + Reversed(out));
      out, rest := out + [digit], rest / 32;
    }
    text := Reversed(out);
  }

  lemma {:induction false} ReversedAppend(s: string, c: char)
    ensures Reversed(s + [c]) == [c] + Reversed(s)
  {
    if s == "" {
      assert s + [c] == [c];
    } else {
      ReversedAppend(s[1..], c);
      assert (s + [c])[1..] == s[1..] + [c];
    }
  }

  const TIME_BITS := 0x1_0000_0000_0000
  const RANDOM_BITS := 0x1_0000_0000_0000_0000_0000

  function Id(time: nat, random: nat): string {
    Encoded(time, 10) + Encoded(random, 16)
  }

  /** The id drawn at a clock reading with the given random bits. */
  method NewUlid(clockMs: nat, random: nat) returns (id: string)
    requires random < RANDOM_BITS
    ensures id == Id(clockMs % 0x1_0000_0000_0000, random)
  {
    var time := Encode(clockMs % TIME_BITS, 10);
    var tail := Encode(random, 16);
    id := time + tail;
  }

  // ---------- the inverse ----------

  /** Place of a character in the alphabet; 32 for any other. */
  function Digit(c: char): (d: nat)
    ensures d <= 32
  {
    DigitFrom(c, 0)
  }

  /** Crockford's alphabet: the ten digits and the capital letters but I, L, O and U. */
  predicate IsSymbol(c: char) {
    '0' <= c <= '9' || ('A' <= c <= 'Z' && c != 'I' && c != 'L' && c != 'O' && c != 'U')
  }

  lemma DigitMeaning(c: char)
    ensures Digit(c) < 32 <==> IsSymbol(c)
    ensures Digit(c) < 32 ==> Symbol(Digit(c)) == c
  {
    SymbolsAre(c);
  }

  lemma SymbolsAre(c: char)
    ensures c in ALPHA <==> IsSymbol(c)
  {
  }

  function DigitFrom(c: char, from: nat): (d: nat)
    requires from <= 32 && forall j | 0 <= j < from :: ALPHA[j] != c
    ensures from <= d <= 32 && (d < 32 <==> c in ALPHA) && (d < 32 ==> ALPHA[d] == c)
    decreases 32 - from
  {
    if from == 32 then 32 else if ALPHA[from] == c then from else DigitFrom(c, from + 1)
  }

  /** The alphabet is strictly increasing, so the order of characters is the order of digits. */
  lemma AlphabetIncreases(i: nat, j: nat)
    requires i < j < 32
    ensures Symbol(i) < Symbol(j)
    decreases j - i
  {
    hide Symbol;
    AlphabetStep(i);
    if i + 1 < j { AlphabetIncreases(i + 1, j); }
  }

  lemma AlphabetStep(i: nat)
    requires i < 31
    ensures Symbol(i) < Symbol(i + 1)
  {
  }

  function Decoded(s: string): nat {
    if s == "" then 0 else 32 * Decoded(s[..|s| - 1]) + Digit(s[|s| - 1])
  }

  ghost predicate IsCrockford(s: string) {
    forall c <- s :: IsSymbol(c)
  }

  lemma DigitOfAlpha(d: nat)
    requires d < 32
    ensures IsSymbol(Symbol(d)) && Digit(Symbol(d)) == d
  {
    DigitMeaning(Symbol(d));
    var e := Digit(Symbol(d));
    if e < d { AlphabetIncreases(e, d); } else if d < e { AlphabetIncreases(d, e); }
  }

  /** Decoding gives back n modulo 32^length: n itself when it fits. */
  lemma {:induction false} DecodeEncode(n: nat, length: nat)
    ensures IsCrockford(Encoded(n, length))
    ensures n < Pow32(length) ==> Decoded(Encoded(n, length)) == n
  {
    hide Digit, Symbol, IsSymbol;
    if length > 0 {
      DecodeEncode(n / 32, length - 1);
      DigitOfAlpha(n % 32);
      var s := Encoded(n, length);
      assert s[..|s| - 1] == Encoded(n / 32, length - 1);
      assert n == 32 * (n / 32) + n % 32;
    }
  }

  /** And every Crockford string is the encoding of its value: the encoding is onto. */
  lemma {:induction false} EncodeDecode(s: string)
    requires IsCrockford(s)
    ensures Decoded(s) < Pow32(|s|) && Encoded(Decoded(s), |s|) == s
  {
    hide Digit, Symbol, IsSymbol;
    if s != "" {
      hide Encoded;
      var front, last := s[..|s| - 1], s[|s| - 1];
      assert last in s && forall c <- front :: c in s;
      EncodeDecode(front);
      DigitMeaning(last);
      EncodeStep(Decoded(front), Digit(last), |front|);
      assert s == front + [last];
    }
  }

  // ---------- the order of ids ----------

  /** String order: the first differing character decides, and a prefix comes first. */
  predicate Less(a: string, b: string) {
    if b == "" then false
    else if a == "" then true
    else a[0] < b[0] || (a[0] == b[0] && Less(a[1..], b[1..]))
  }

  /** On strings of one length the order looks at the front first, then at the last character. */
  lemma {:induction false} LessBySnoc(a: string, b: string, c: char, d: char)
    requires |a| == |b|
    ensures Less(a + [c], b + [d]) <==> Less(a, b) || (a == b && c < d)
  {
    if a != "" {
      LessBySnoc(a[1..], b[1..], c, d);
      assert (a + [c])[1..] == a[1..] + [c] && (b + [d])[1..] == b[1..] + [d];
      if a[0] == b[0] && a[1..] == b[1..] { assert a == [a[0]] + a[1..] && b == [b[0]] + b[1..]; }
    } else {
      assert Less([c][1..], [d][1..]) == false;
    }
  }

  lemma DigitsOrder(x: nat, y: nat)
    requires x < 32 && y < 32
    ensures Symbol(x) < Symbol(y) <==> x < y
    ensures Symbol(x) == Symbol(y) <==> x == y
  {
    if x < y { AlphabetIncreases(x, y); } else if y < x { AlphabetIncreases(y, x); }
  }

  lemma HighThenLow(m: nat, n: nat, p: nat)
    requires m < 32 * p && n < 32 * p
    ensures m / 32 < p && n / 32 < p
    ensures m < n <==> m / 32 < n / 32 || (m / 32 == n / 32 && m % 32 < n % 32)
    ensures m == n <==> m / 32 == n / 32 && m % 32 == n % 32
  {
  }

  lemma SnocIsInjective(a: string, b: string, c: char, d: char)
    requires |a| == |b|
    ensures a + [c] == b + [d] <==> a == b && c == d
  {
    if a + [c] == b + [d] {
      assert a == (a + [c])[..|a|] && (a + [c])[|a|] == c && (b + [d])[|b|] == d;
    }
  }

  /** One more digit at the end. */
  lemma EncodeStep(q: nat, d: nat, length: nat)
    requires d < 32
    ensures Encoded(32 * q + d, length + 1) == Encoded(q, length) + [Symbol(d)]
  {
    assert (32 * q + d) / 32 == q && (32 * q + d) % 32 == d;
  }

  /** Numbers that fit compare as their encodings do. */
  lemma {:induction false} EncodePreservesOrder(m: nat, n: nat, length: nat)
    requires m < Pow32(length) && n < Pow32(length)
    ensures Less(Encoded(m, length), Encoded(n, length)) <==> m < n
    ensures Encoded(m, length) == Encoded(n, length) <==> m == n
    decreases length
  {
    hide Symbol;
    if length > 0 {
      hide Less;
      HighThenLow(m, n, Pow32(length - 1));
      EncodePreservesOrder(m / 32, n / 32, length - 1);
      SnocPreservesOrder(m / 32, m % 32, n / 32, n % 32, length - 1);
      assert m == 32 * (m / 32) + m % 32 && n == 32 * (n / 32) + n % 32;
    }
  }

  lemma SnocPreservesOrder(m: nat, c: nat, n: nat, d: nat, length: nat)
    requires c < 32 && d < 32
    requires Less(Encoded(m, length), Encoded(n, length)) <==> m < n
    requires Encoded(m, length) == Encoded(n, length) <==> m == n
    ensures Less(Encoded(32 * m + c, length + 1), Encoded(32 * n + d, length + 1)) <==> m < n || (m == n && c < d)
    ensures Encoded(32 * m + c, length + 1) == Encoded(32 * n + d, length + 1) <==> m == n && c == d
  {
    hide Less;
    hide Symbol;
    EncodeStep(m, c, length);
    EncodeStep(n, d, length);
    hide Encoded;
    DigitsOrder(c, d);
    LessBySnoc(Encoded(m, length), Encoded(n, length), Symbol(c), Symbol(d));
    SnocIsInjective(Encoded(m, length), Encoded(n, length), Symbol(c), Symbol(d));
  }

  lemma ShiftOneDigit(high: nat, p: nat, low: nat)
    requires low < 32 * p
    ensures high * (32 * p) + low == 32 * (high * p + low / 32) + low % 32 && low / 32 < p
  {
    assert high * (32 * p) == 32 * (high * p);
  }

  lemma SplitOneMore(high: nat, whole: nat, q: nat, d: nat, front: nat, back: nat)
    requires back > 0 && d < 32 && Encoded(whole, front + (back - 1)) == Encoded(high, front) + Encoded(q, back - 1)
    ensures Encoded(32 * whole + d, front + back) == Encoded(high, front) + Encoded(32 * q + d, back)
  {
    hide Symbol;
    EncodeStep(whole, d, front + (back - 1));
    EncodeStep(q, d, back - 1);
    hide Encoded;
  }

  lemma SplitStep(high: nat, p: nat, low: nat, front: nat, back: nat)
    requires back > 0 && low < 32 * p
    requires Encoded(high * p + low / 32, front + (back - 1)) == Encoded(high, front) + Encoded(low / 32, back - 1)
    ensures Encoded(high * (32 * p) + low, front + back) == Encoded(high, front) + Encoded(low, back)
  {
    hide Encoded;
    ShiftOneDigit(high, p, low);
    SplitOneMore(high, high * p + low / 32, low / 32, low % 32, front, back);
  }

  /** An encoding is its high digits followed by its low ones. */
  lemma {:induction false} EncodeSplits(high: nat, low: nat, front: nat, back: nat)
    requires low < Pow32(back)
    ensures Encoded(high * Pow32(back) + low, front + back) == Encoded(high, front) + Encoded(low, back)
    decreases back
  {
    if back > 0 {
      hide Encoded;
      var p := Pow32(back - 1);
      ShiftOneDigit(high, p, low);
      EncodeSplits(high, low / 32, front, back - 1);
      SplitStep(high, p, low, front, back);
    } else {
      assert high * Pow32(0) + low == high;
    }
  }

  lemma Powers()
    ensures TIME_BITS <= Pow32(10) && Pow32(16) == RANDOM_BITS
  {
    assert Pow32(5) == 0x200_0000;
    assert Pow32(10) == 0x200_0000 * 0x200_0000;
    assert Pow32(15) == 0x200_0000 * Pow32(10);
  }

  /** Ids drawn at any two instants compare exactly as their (millisecond, random) pairs, and differ when those do. */
  lemma IdsOrderByTimeThenRandom(t1: nat, r1: nat, t2: nat, r2: nat)
    requires t1 < TIME_BITS && t2 < TIME_BITS && r1 < RANDOM_BITS && r2 < RANDOM_BITS
    ensures Less(Id(t1, r1), Id(t2, r2)) <==> t1 < t2 || (t1 == t2 && r1 < r2)
    ensures Id(t1, r1) == Id(t2, r2) <==> t1 == t2 && r1 == r2
  {
    hide Less;
    hide Encoded;
    hide Id;
    hide Pow32;
    IdIsOneNumber(t1, r1);
    IdIsOneNumber(t2, r2);
    EncodePreservesOrder(t1 * RANDOM_BITS + r1, t2 * RANDOM_BITS + r2, 26);
    PairsOrderAsNumbers(t1, r1, t2, r2, RANDOM_BITS);
  }

  /** An id is 26 Crockford characters from which both parts can be read back. */
  lemma IdReadsBack(time: nat, random: nat)
    requires time < TIME_BITS && random < RANDOM_BITS
    ensures |Id(time, random)| == 26 && IsCrockford(Id(time, random))
    ensures Decoded(Id(time, random)[..10]) == time && Decoded(Id(time, random)[10..]) == random
  {
    hide Encoded;
    hide Decoded;
    Powers();
    DecodeEncode(time, 10);
    DecodeEncode(random, 16);
    assert Id(time, random)[..10] == Encoded(time, 10) && Id(time, random)[10..] == Encoded(random, 16);
  }

  lemma PairsOrderAsNumbers(t1: nat, r1: nat, t2: nat, r2: nat, p: nat)
    requires r1 < p && r2 < p
    ensures t1 * p + r1 < t2 * p + r2 <==> t1 < t2 || (t1 == t2 && r1 < r2)
    ensures t1 * p + r1 == t2 * p + r2 <==> t1 == t2 && r1 == r2
  {
    if t1 < t2 { assert (t1 + 1) * p <= t2 * p; } else if t2 < t1 { assert (t2 + 1) * p <= t1 * p; }
  }

  lemma IdIsOneNumber(t: nat, r: nat)
    requires t < TIME_BITS && r < RANDOM_BITS
    ensures t * RANDOM_BITS + r < Pow32(26)
    ensures Encoded(t * RANDOM_BITS + r, 26) == Id(t, r)
  {
    Powers();
    EncodeSplits(t, r, 10, 16);
    assert Pow32(26) == 32 * 32 * 32 * 32 * 32 * 32 * 32 * 32 * 32 * 32 * Pow32(16);
  }

  /** The clock is cut to 48 bits: at the wrap a later id sorts before an earlier one. */
  lemma WrappedClockBreaksOrder(r1: nat, r2: nat)
    requires r1 < RANDOM_BITS && r2 < RANDOM_BITS
    ensures Less(Id(TIME_BITS % TIME_BITS, r2), Id((TIME_BITS - 1) % TIME_BITS, r1))
  {
    IdsOrderByTimeThenRandom(0, r2, TIME_BITS - 1, r1);
  }
}
