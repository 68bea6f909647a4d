/** Solana's compact-u16 ("shortvec") length prefix: the encoder of the SDK and the decoder of the
    gateway's proof parser.  Seven bits per byte, least significant group first, high bit = "more".
    Shifts and masks are written as multiplication, division and remainder by powers of 128. */
module Shortvec {
  import opened Wrappers

  type byte = b: int | 0 <= b < 256
  type Bytes = seq<byte>

  datatype ShortvecError = OutOfRange | RanOffBuffer | TooLong

  // ---------- encoding ----------

  /** The byte string the encoder emits for n. */
  function Encode(n: nat): (r: Bytes)
    ensures |r| >= 1
  {
    if n < 128 then [n] else [n % 128 + 128] + Encode(n / 128)
  }

  /** Up to 16 bits that is one byte, two, or three. */
  lemma EncodeBytes(n: nat)
    ensures n < 0x80 ==> Encode(n) == [n]
    ensures 0x80 <= n < 0x4000 ==> Encode(n) == [n % 0x80 + 0x80, n / 0x80]
    ensures 0x4000 <= n <= 0xFFFF ==> Encode(n) == [n % 0x80 + 0x80, n / 0x80 % 0x80 + 0x80, n / 0x4000]
  {
    if n >= 0x80 {
      var rest := n / 0x80;
      assert Encode(n) == [n % 0x80 + 0x80] + Encode(rest);
      if n >= 0x4000 {
        assert 0x80 <= rest < 0x4000 || n > 0xFFFF;
        assert Encode(rest) == [rest % 0x80 + 0x80] + Encode(rest / 0x80);
        assert rest / 0x80 == n / 0x4000;
      }
    }
  }

  method ShortvecEncode(n: int) returns (r: Result<Bytes, ShortvecError>)
    ensures r == if 0 <= n <= 0xFFFF then Ok(Encode(n)) else Err(OutOfRange)
  {
    if n < 0 || n > 0xFFFF {
      return Err(OutOfRange);
    }
    var out: Bytes, m: nat := [], n;
    while true
      invariant out + Encode(m) == Encode(n)
      decreases m
    {
      var b := m % 128;
      var rest := m / 128;
      if rest == 0 {
        assert Encode(m) == [b];
        return Ok(out + [b]);
      }
      assert Encode(m) == [b + 128] + Encode(rest);
      assert out + Encode(m) == (out + [b + 128]) + Encode(rest);
      out, m := out + [b + 128], rest;
    }
  }

  // ---------- decoding ----------

  function Pow128(k: nat): (p: nat)
    ensures p >= 1
  {
    if k == 0 then 1 else 128 * Pow128(k - 1)
  }

  /** Value of the groups that start at buf[offset + consumed], with the total number of bytes
      consumed once the last of them has been read. */
  function DecodeGroups(buf: Bytes, offset: nat, consumed: nat): (r: Result<(nat, nat), ShortvecError>)
    requires consumed <= 2
    ensures r.Ok? ==> consumed < r.value.1 <= 3 && offset + r.value.1 <= |buf|
    ensures r.Ok? ==> r.value.0 < Pow128(r.value.1 - consumed)
    decreases 2 - consumed
  {
    if offset + consumed >= |buf| then Err(RanOffBuffer)
    else
      var b := buf[offset + consumed];
      if b < 128 then
        assert Pow128(1) == 128;
        Ok((b, consumed + 1))
      else if consumed == 2 then Err(TooLong)
      else
        match DecodeGroups(buf, offset, consumed + 1)
        case Err(e) => Err(e)
        case Ok(rest) => Ok((b - 128 + 128 * rest.0, rest.1))
  }

  function Decode(buf: Bytes, offset: nat): Result<(nat, nat), ShortvecError> {
    DecodeGroups(buf, offset, 0)
  }

  /** Byte by byte: a byte below 128 ends the number, the third must, and what ends too early is another error. */
  lemma DecodeBytes(buf: Bytes, offset: nat)
    ensures var n, at := |buf| - offset, (k: nat) requires offset + k < |buf| => buf[offset + k] as int;
            Decode(buf, offset) ==
              if n >= 1 && at(0) < 128 then Ok((at(0), 1))
              else if n >= 2 && at(1) < 128 then Ok((at(0) - 128 + 128 * at(1), 2))
              else if n >= 3 && at(2) < 128 then Ok((at(0) - 128 + 128 * (at(1) - 128) + 16384 * at(2), 3))
              else if n >= 3 then Err(TooLong) else Err(RanOffBuffer)
  {
    assert Decode(buf, offset) == DecodeGroups(buf, offset, 0);
  }

  /** x << bits. */
  function Shl(x: nat, bits: nat): nat {
    if bits == 0 then x else 2 * Shl(x, bits - 1)
  }

  lemma {:induction false} ShlLinear(x: nat, y: nat, bits: nat)
    ensures Shl(x + y, bits) == Shl(x, bits) + Shl(y, bits)
    ensures Shl(2 * x, bits) == Shl(x, bits + 1)
  {
    if bits > 0 { ShlLinear(x, y, bits - 1); }
  }

  /** Reading one more seven-bit group at position `bits`. */
  lemma ShlGroup(low: nat, high: nat, bits: nat)
    ensures Shl(low + 128 * high, bits) == Shl(low, bits) + Shl(high, bits + 7)
  {
    ShlLinear(low, 128 * high, bits);
    ShlLinear(64 * high, 0, bits);
    ShlLinear(32 * high, 0, bits + 1);
    ShlLinear(16 * high, 0, bits + 2);
    ShlLinear(8 * high, 0, bits + 3);
    ShlLinear(4 * high, 0, bits + 4);
    ShlLinear(2 * high, 0, bits + 5);
    ShlLinear(high, 0, bits + 6);
  }

  /** The outcome once `n` has been accumulated from the groups below position `shift`. */
  function Resume(n: nat, shift: nat, rest: Result<(nat, nat), ShortvecError>): Result<(nat, nat), ShortvecError> {
    match rest
    case Err(e) => Err(e)
    case Ok(r) => Ok((n + Shl(r.0, shift), r.1))
  }

  /** The group at `consumed` ends the number, is one too many, or moves its bits into `n`. */
  lemma ResumeGroup(buf: Bytes, offset: nat, consumed: nat, n: nat, shift: nat)
    requires consumed <= 2
    ensures var r := Resume(n, shift, DecodeGroups(buf, offset, consumed));
            if offset + consumed >= |buf| then r == Err(RanOffBuffer)
            else
              var b := buf[offset + consumed];
              var more := n + Shl(b % 128, shift);
              if b < 128 then r == Ok((more, consumed + 1))
              else if consumed == 2 then r == Err(TooLong)
              else r == Resume(more, shift + 7, DecodeGroups(buf, offset, consumed + 1))
  {
    if consumed < 2 && offset + consumed < |buf| && buf[offset + consumed] >= 128 {
      var rest := DecodeGroups(buf, offset, consumed + 1);
      assert buf[offset + consumed] % 128 == buf[offset + consumed] - 128;
      if rest.Ok? { ShlGroup(buf[offset + consumed] - 128, rest.value.0, shift); }
    }
  }

  method ShortvecDecode(buf: Bytes, offset: nat) returns (r: Result<(nat, nat), ShortvecError>)
    ensures r == Decode(buf, offset)
  {
    var n: nat, shift: nat, consumed: nat := 0, 0, 0;
    assert Decode(buf, offset) == Resume(0, 0, DecodeGroups(buf, offset, 0));
    hide Shl, Decode, DecodeGroups, Resume;
    while true
      invariant consumed <= 2 && shift == 7 * consumed
      invariant Decode(buf, offset) == Resume(n, shift, DecodeGroups(buf, offset, consumed))
      decreases 3 - consumed
    {
      ResumeGroup(buf, offset, consumed, n, shift);
      if offset + consumed >= |buf| {
        return Err(RanOffBuffer);
      }
      var b := buf[offset + consumed];
      n := n + Shl(b % 128, shift);
      if b < 128 {
        return Ok((n, consumed + 1));
      }
      shift := shift + 7;
      if shift > 14 {
        return Err(TooLong);
      }
      consumed := consumed + 1;
    }
  }

  // ---------- the two are inverse ----------

  lemma {:induction false} DecodeEncodedGroups(n: nat, buf: Bytes, offset: nat, consumed: nat)
    requires consumed <= 2 && n < Pow128(3 - consumed)
    requires offset + consumed <= |buf| && Encode(n) <= buf[offset + consumed..]
    ensures DecodeGroups(buf, offset, consumed) == Ok((n, consumed + |Encode(n)|))
    decreases n
  {
    var at := offset + consumed;
    assert buf[at] == Encode(n)[0];
    if n >= 128 {
      assert Encode(n)[1..] == Encode(n / 128);
      assert buf[at + 1..] == buf[at..][1..];
      assert Pow128(1) == 128;
      DecodeEncodedGroups(n / 128, buf, offset, consumed + 1);
    }
  }

  /** decode(encode(n) + rest) = (n, len(encode(n))) at every offset and before any trailing bytes. */
  lemma {:induction false} DecodeEncode(n: nat, before: Bytes, rest: Bytes)
    requires n <= 0xFFFF
    ensures Decode(before + Encode(n) + rest, |before|) == Ok((n, |Encode(n)|))
  {
    var buf := before + Encode(n) + rest;
    assert buf[|before|..] == Encode(n) + rest;
    assert Pow128(3) == 128 * (128 * (128 * Pow128(0)));
    DecodeEncodedGroups(n, buf, |before|, 0);
  }

  /** Whatever is accepted takes one to three bytes inside the buffer and is below 2^21. */
  lemma DecodeBounds(buf: Bytes, offset: nat)
    requires Decode(buf, offset).Ok?
    ensures var (n, used) := Decode(buf, offset).value;
            1 <= used <= 3 && offset + used <= |buf| && n < 0x20_0000
  {
    var used := Decode(buf, offset).value.1;
    assert Pow128(3) == 128 * (128 * (128 * Pow128(0)));
  }

  // ---------- the encoder is the shortest accepted form ----------

  lemma {:induction false} GroupsCanonical(buf: Bytes, offset: nat, consumed: nat)
    requires consumed <= 2 && DecodeGroups(buf, offset, consumed).Ok?
    ensures var (n, used) := DecodeGroups(buf, offset, consumed).value;
            var read := buf[offset + consumed..offset + used];
            && |Encode(n)| <= |read|
            && (read == Encode(n) <==> |read| == 1 || read[|read| - 1] != 0)
            && (read == Encode(n) <==> |Encode(n)| == |read|)
    decreases 2 - consumed
  {
    var (n, used) := DecodeGroups(buf, offset, consumed).value;
    var read := buf[offset + consumed..offset + used];
    if read[0] >= 128 {
      GroupsCanonical(buf, offset, consumed + 1);
      var (m, _) := DecodeGroups(buf, offset, consumed + 1).value;
      var tail := buf[offset + consumed + 1..offset + used];
      assert read == [read[0]] + tail;
      assert n / 128 == m && n % 128 == read[0] - 128;
      if m == 0 {
        assert Encode(m) == [0] && Encode(n) == [n];
      } else {
        assert Encode(n) == [read[0]] + Encode(m);
        assert read == Encode(n) <==> tail == Encode(m);
      }
    }
  }

  /** Every accepted form of a value is at least as long as its encoding, and the accepted bytes are
      the encoding exactly when they do not end in a superfluous zero group. */
  lemma EncodeIsShortest(buf: Bytes, offset: nat)
    requires Decode(buf, offset).Ok?
    ensures var (n, used) := Decode(buf, offset).value;
            && |Encode(n)| <= used
            && (buf[offset..offset + used] == Encode(n) <==> used == 1 || buf[offset + used - 1] != 0)
            && (buf[offset..offset + used] == Encode(n) <==> |Encode(n)| == used)
  {
    GroupsCanonical(buf, offset, 0);
  }

  /** No encoding is a proper prefix of another. */
  lemma {:induction false} EncodePrefixFree(a: nat, b: nat)
    requires Encode(a) <= Encode(b)
    ensures a == b
  {
    assert Encode(a)[0] == Encode(b)[0];
    if a >= 128 {
      assert Encode(a)[1..] == Encode(a / 128) && Encode(b)[1..] == Encode(b / 128);
      EncodePrefixFree(a / 128, b / 128);
    }
  }
}
