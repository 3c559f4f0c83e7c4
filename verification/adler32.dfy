/**
 * The content checksum of the opcode cache: the Adler-32 algorithm of
 * section 2.2 of RFC 1950, as `zend_adler32` computes it.
 *
 * The buffer is read as C `signed char`, so a byte of 0x80 or more is
 * sign-extended before it is added to the `unsigned int` accumulator `s1`;
 * both accumulators wrap modulo 2^32 between reductions.  The model keeps
 * exactly that arithmetic (`Do1`, `Run`, `Blocks`), proves that on octets
 * (so on signed bytes 0..127) it agrees with RFC 1950 (`AgreesWithRfc1950`), and shows an input
 * on which the signed reading departs from it (`SignedByteDeparts`).
 */
module Adler32 {

  /** ADLER32_BASE: the largest prime smaller than 65536. */
  const BASE: int := 65521
  /** ADLER32_NMAX: bytes processed between two reductions. */
  const NMAX: int := 5552
  const TWO32: int := 0x1_0000_0000

  /** A C `unsigned int`. */
  type U32 = x: int | 0 <= x < 0x1_0000_0000
  /** A C `signed char`: what the buffer of `zend_adler32` holds. */
  type SChar = x: int | -128 <= x < 128
  /** An octet of the data stream as RFC 1950 reads it. */
  type Byte = x: int | 0 <= x < 256

  /** Conversion to `unsigned int`: arithmetic modulo 2^32. */
  function Wrap(x: int): U32 {
    x % TWO32
  }

  /** The two running sums `s1` and `s2`. */
  datatype Sums = Sums(s1: int, s2: int)

  /** ADLER32_DO1 on one byte value: `s1 += *buf; s2 += s1;` in `unsigned int`. */
  function Do1(s: Sums, b: int): Sums {
    var s1 := Wrap(s.s1 + b);
    Sums(s1, Wrap(s.s2 + s1))
  }

  /** ADLER32_DO1 applied to each byte in turn, with no reduction. */
  function Run(s: Sums, bytes: seq<int>): Sums
    decreases |bytes|
  {
    if bytes == [] then s else Do1(Run(s, bytes[..|bytes| - 1]), bytes[|bytes| - 1])
  }

  /** `s1 %= ADLER32_BASE; s2 %= ADLER32_BASE;` */
  function Reduce(s: Sums): Sums {
    Sums(s.s1 % BASE, s.s2 % BASE)
  }

  /**
   * The block structure of `zend_adler32`: every full block of NMAX bytes is
   * followed by a reduction, and so is a non-empty tail.
   */
  function Blocks(s: Sums, bytes: seq<int>): Sums
    decreases |bytes|
  {
    if |bytes| >= NMAX then Blocks(Reduce(Run(s, bytes[..NMAX])), bytes[NMAX..])
    else if bytes != [] then Reduce(Run(s, bytes))
    else s
  }

  /** `s1 = checksum & 0xffff; s2 = (checksum >> 16) & 0xffff;` */
  function Start(checksum: U32): Sums {
    Sums(checksum % 0x1_0000, (checksum / 0x1_0000) % 0x1_0000)
  }

  /** `(s2 << 16) | s1` for halves that fit in 16 bits (no bit is lost or shared). */
  function Pack(s: Sums): U32
    requires 0 <= s.s1 < 0x1_0000 && 0 <= s.s2 < 0x1_0000
  {
    s.s2 * 0x1_0000 + s.s1
  }

  /** The value `zend_adler32(checksum, buf, len)` returns, byte values already widened to `int`. */
  function Checksum(checksum: U32, bytes: seq<int>): (r: U32)
  {
    BlocksInRange(Start(checksum), bytes);
    Pack(Blocks(Start(checksum), bytes))
  }

  // ---------------------------------------------------------------------
  // The reference definition (RFC 1950, section 2.2)
  // ---------------------------------------------------------------------

  /** D1 + D2 + ... + Dn. */
  function Sum(bytes: seq<int>): int
    decreases |bytes|
  {
    if bytes == [] then 0 else Sum(bytes[..|bytes| - 1]) + bytes[|bytes| - 1]
  }

  /** (D1) + (D1 + D2) + ... + (D1 + ... + Dn): the sum of the successive partial sums. */
  function PrefixSums(bytes: seq<int>): int
    decreases |bytes|
  {
    if bytes == [] then 0 else PrefixSums(bytes[..|bytes| - 1]) + Sum(bytes)
  }

  /**
   * RFC 1950, section 2.2, continuing from the checksum `checksum` of earlier
   * data (its low half is A, its high half B): A is A plus the sum of the
   * bytes, B is B plus the sum of the successive values of A, both modulo
   * 65521, and the checksum is B * 65536 + A.  Starting from 1 this is the
   * Adler-32 of `bytes`.
   */
  function Rfc1950(checksum: U32, bytes: seq<int>): U32 {
    var a := checksum % 0x1_0000;
    var b := checksum / 0x1_0000;
    Pack(Sums((a + Sum(bytes)) % BASE, (b + |bytes| * a + PrefixSums(bytes)) % BASE))
  }

  /** The same definition with a reduction after every byte (the textbook loop). */
  function ModRun(s: Sums, bytes: seq<int>): Sums
    decreases |bytes|
  {
    if bytes == [] then s
    else
      var p := ModRun(s, bytes[..|bytes| - 1]);
      var a := (p.s1 + bytes[|bytes| - 1]) % BASE;
      Sums(a, (p.s2 + a) % BASE)
  }

  // ---------------------------------------------------------------------
  // The loop as written
  // ---------------------------------------------------------------------

  /**
   * The loop of `zend_adler32` over byte values already widened to `int`:
   * full NMAX blocks first, each followed by a reduction; then the tail, first
   * in chunks of 16 bytes (the ADLER32_DO16 steps) and then byte by byte,
   * followed by one reduction.  The sixteen-fold unrolling of ADLER32_DO16 is
   * written as one step per byte, which is what the macro expands to.
   */
  method ChecksumLoop(checksum: U32, bytes: seq<int>) returns (r: U32)
    ensures r == Checksum(checksum, bytes)
  {
    var s1: int := checksum % 0x1_0000;
    var s2: int := (checksum / 0x1_0000) % 0x1_0000;
    var len := |bytes|;
    var pos := 0;
    while len >= NMAX
      invariant 0 <= len && pos + len == |bytes|
      invariant 0 <= s1 < 0x1_0000 && 0 <= s2 < 0x1_0000
      invariant Blocks(Sums(s1, s2), bytes[pos..]) == Blocks(Start(checksum), bytes)
    {
      len := len - NMAX;
      var end := pos + NMAX;
      assert Blocks(Sums(s1, s2), bytes[pos..])
          == Blocks(Reduce(Run(Sums(s1, s2), bytes[pos..end])), bytes[end..]) by {
        assert bytes[pos..][..NMAX] == bytes[pos..end];
        assert bytes[pos..][NMAX..] == bytes[end..];
      }
      s1, s2 := Accumulate(s1, s2, bytes, pos, end);
      pos := end;
      s1 := s1 % BASE;
      s2 := s2 % BASE;
    }
    s1, s2 := Tail(s1, s2, bytes[pos..]);
    BlocksInRange(Start(checksum), bytes);
    r := s2 * 0x1_0000 + s1;
  }

  /**
   * The bytes left after the last full block: chunks of 16 (`len & 0xfff0`
   * bytes through ADLER32_DO16), then the rest (`len & 0xf` bytes through
   * ADLER32_DO1), then one reduction; nothing at all when no byte is left.
   */
  method Tail(s1: int, s2: int, bytes: seq<int>) returns (t1: int, t2: int)
    requires |bytes| < NMAX
    ensures Sums(t1, t2) == Blocks(Sums(s1, s2), bytes)
  {
    t1, t2 := s1, s2;
    var len := |bytes|;
    if len != 0 {
      var pos := 0;
      if len >= 16 {
        pos := len - len % 16;
        len := len % 16;
        t1, t2 := Accumulate(t1, t2, bytes, 0, pos);
      }
      assert Sums(t1, t2) == Run(Sums(s1, s2), bytes[0..pos]);
      if len != 0 {
        t1, t2 := Accumulate(t1, t2, bytes, pos, pos + len);
        RunAppend(Sums(s1, s2), bytes[0..pos], bytes[pos..pos + len]);
        assert bytes[0..pos] + bytes[pos..pos + len] == bytes;
      } else {
        assert bytes[0..pos] == bytes;
      }
      t1 := t1 % BASE;
      t2 := t2 % BASE;
    }
  }

  /**
   * One `do { ADLER32_DO16(buf); buf += 16; } while (buf != end);` or
   * `do { ADLER32_DO1(buf); buf++; } while (buf != end);` loop: the bytes
   * from `from` to `end` are added in turn, with no reduction.  The
   * sixteen-fold unrolling of ADLER32_DO16 is written as one step per byte,
   * which is what the macro expands to.
   */
  method Accumulate(s1: int, s2: int, bytes: seq<int>, from: nat, end: nat) returns (t1: int, t2: int)
    requires from <= end <= |bytes|
    ensures Sums(t1, t2) == Run(Sums(s1, s2), bytes[from..end])
  {
    t1, t2 := s1, s2;
    var pos := from;
    while pos != end
      invariant from <= pos <= end
      invariant Sums(t1, t2) == Run(Sums(s1, s2), bytes[from..pos])
    {
      assert bytes[from..pos + 1][..pos - from] == bytes[from..pos];
      t1 := Wrap(t1 + bytes[pos]);
      t2 := Wrap(t2 + t1);
      pos := pos + 1;
    }
  }

  /**
   * `zend_adler32(checksum, buf, len)` as written: every byte of the buffer is
   * a `signed char`, widened with its sign before it is added.
   */
  method ZendAdler32(checksum: U32, buf: seq<SChar>) returns (r: U32)
    ensures r == Checksum(checksum, buf)
    ensures buf == [] ==> r == checksum
    ensures buf != [] ==> r % 0x1_0000 < BASE && r / 0x1_0000 < BASE
    ensures buf != [] && (forall i :: 0 <= i < |buf| ==> buf[i] >= 0) ==> r == Rfc1950(checksum, buf)
  {
    r := ChecksumLoop(checksum, buf);
    if buf == [] {
      EmptyChecksum(checksum);
    } else {
      BlocksInRange(Start(checksum), buf);
      PackHalves(Blocks(Start(checksum), buf));
      if forall i :: 0 <= i < |buf| ==> buf[i] >= 0 {
        AgreesWithRfc1950(checksum, buf);
      }
    }
  }

  /** The two halves of a packed checksum are read back by `& 0xffff` and `>> 16`. */
  lemma PackHalves(s: Sums)
    requires 0 <= s.s1 < 0x1_0000 && 0 <= s.s2 < 0x1_0000
    ensures Pack(s) % 0x1_0000 == s.s1 && Pack(s) / 0x1_0000 == s.s2
  {
  }

  /** With no byte, the checksum comes back as it was given. */
  lemma EmptyChecksum(checksum: U32)
    ensures Checksum(checksum, []) == checksum
  {
    assert Blocks(Start(checksum), []) == Start(checksum);
    assert (checksum / 0x1_0000) % 0x1_0000 == checksum / 0x1_0000;
  }

  /**
   * The same loop over the octets of the data stream, as RFC 1950 reads them
   * (a byte of 0x80 or more counts as 128..255): the checksum the opcode
   * cache evidently means to compute.
   */
  method Adler32Unsigned(checksum: U32, buf: seq<Byte>) returns (r: U32)
    ensures buf == [] ==> r == checksum
    ensures buf != [] ==> r == Rfc1950(checksum, buf)
  {
    r := ChecksumLoop(checksum, buf);
    if buf == [] {
      EmptyChecksum(checksum);
    } else {
      AgreesWithRfc1950(checksum, buf);
    }
  }

  // ---------------------------------------------------------------------
  // Properties
  // ---------------------------------------------------------------------

  /** Both halves stay within 16 bits, and below BASE once a byte has been read. */
  lemma {:induction false} BlocksInRange(s: Sums, bytes: seq<int>)
    requires 0 <= s.s1 < 0x1_0000 && 0 <= s.s2 < 0x1_0000
    ensures var t := Blocks(s, bytes); 0 <= t.s1 < 0x1_0000 && 0 <= t.s2 < 0x1_0000
    ensures bytes != [] ==> Blocks(s, bytes).s1 < BASE && Blocks(s, bytes).s2 < BASE
    ensures bytes == [] ==> Blocks(s, bytes) == s
    decreases |bytes|
  {
    if |bytes| >= NMAX {
      var t := Reduce(Run(s, bytes[..NMAX]));
      BlocksInRange(t, bytes[NMAX..]);
    }
  }

  /** NMAX is the largest n with 255n(n+1)/2 + (n+1)(BASE-1) <= 2^32-1. */
  lemma NmaxIsLargest()
    ensures 255 * NMAX * (NMAX + 1) / 2 + (NMAX + 1) * (BASE - 1) <= TWO32 - 1
    ensures 255 * (NMAX + 1) * (NMAX + 2) / 2 + (NMAX + 2) * (BASE - 1) > TWO32 - 1
  {
  }

  lemma MulMono(a: int, b: int, c: int, d: int)
    requires 0 <= a <= c && 0 <= b <= d
    ensures a * b <= c * d
  {
    assert a * b <= c * b;
    assert c * b <= c * d;
  }

  lemma ModAdd(x: int, y: int)
    ensures (x % BASE + y) % BASE == (x + y) % BASE
  {
  }

  /** Bounds on the byte sums of a block of octets. */
  lemma {:induction false} SumBounds(bytes: seq<int>)
    requires forall i :: 0 <= i < |bytes| ==> 0 <= bytes[i] < 256
    ensures 0 <= Sum(bytes) <= 255 * |bytes|
    ensures 0 <= 2 * PrefixSums(bytes) <= 255 * |bytes| * (|bytes| + 1)
    decreases |bytes|
  {
    if bytes != [] {
      var n := |bytes|;
      SumBounds(bytes[..n - 1]);
      assert 255 * (n - 1) * n + 2 * 255 * n == 255 * n * (n + 1);
    }
  }

  /** Running the accumulators over two pieces is running them over the whole. */
  lemma {:induction false} RunAppend(s: Sums, xs: seq<int>, ys: seq<int>)
    ensures Run(s, xs + ys) == Run(Run(s, xs), ys)
    decreases |ys|
  {
    if ys == [] {
      assert xs + ys == xs;
    } else {
      var n := |ys|;
      assert (xs + ys)[..|xs + ys| - 1] == xs + ys[..n - 1];
      assert (xs + ys)[|xs + ys| - 1] == ys[n - 1];
      RunAppend(s, xs, ys[..n - 1]);
      assert Run(s, xs + ys) == Do1(Run(s, xs + ys[..n - 1]), ys[n - 1]);
    }
  }

  /** ADLER32_DO1 in unbounded integers: the sums as they would be with no wrap-around. */
  function ExactRun(s: Sums, bytes: seq<int>): Sums
    decreases |bytes|
  {
    if bytes == [] then s
    else
      var p := ExactRun(s, bytes[..|bytes| - 1]);
      var a := p.s1 + bytes[|bytes| - 1];
      Sums(a, p.s2 + a)
  }

  /** The exact sums in closed form: A grows by the bytes, B by n copies of A and the partial sums. */
  lemma {:induction false} ExactRunClosedForm(s: Sums, bytes: seq<int>)
    ensures ExactRun(s, bytes)
         == Sums(s.s1 + Sum(bytes), s.s2 + |bytes| * s.s1 + PrefixSums(bytes))
    decreases |bytes|
  {
    if bytes != [] {
      var n := |bytes|;
      ExactRunClosedForm(s, bytes[..n - 1]);
      assert (n - 1) * s.s1 + s.s1 == n * s.s1;
    }
  }

  /** The arithmetic behind NMAX: the exact sums of one block of octets fit in 32 bits. */
  lemma ExactRunBounds(s: Sums, bytes: seq<int>)
    requires 0 <= s.s1 < 0x1_0000 && 0 <= s.s2 < 0x1_0000
    requires |bytes| <= NMAX
    requires forall i :: 0 <= i < |bytes| ==> 0 <= bytes[i] < 256
    ensures 0 <= ExactRun(s, bytes).s1 < TWO32 && 0 <= ExactRun(s, bytes).s2 < TWO32
  {
    ExactRunClosedForm(s, bytes);
    SumBounds(bytes);
    NoWrap(s, |bytes|, Sum(bytes), PrefixSums(bytes));
  }

  lemma NoWrap(s: Sums, n: int, sum: int, prefixSums: int)
    requires 0 <= s.s1 < 0x1_0000 && 0 <= s.s2 < 0x1_0000
    requires 0 <= n <= NMAX
    requires 0 <= sum <= 255 * n
    requires 0 <= 2 * prefixSums <= 255 * n * (n + 1)
    ensures 0 <= s.s1 + sum < TWO32
    ensures 0 <= s.s2 + n * s.s1 + prefixSums < TWO32
  {
    MulMono(n, s.s1, NMAX, 0xFFFF);
    MulMono(n, n + 1, NMAX, NMAX + 1);
    Scale255(n, n + 1);
    SumsFit(s.s2, n * s.s1, prefixSums, n * (n + 1));
  }

  lemma Scale255(a: int, b: int)
    ensures 255 * a * b == 255 * (a * b)
  {
  }

  /** The linear half of NoWrap, with the two products as plain numbers. */
  lemma SumsFit(s2: int, a: int, p: int, b: int)
    requires 0 <= s2 < 0x1_0000 && 0 <= a <= NMAX * 0xFFFF
    requires 2 * p <= 255 * b && b <= NMAX * (NMAX + 1)
    ensures s2 + a + p < TWO32
  {
  }

  /**
   * Within one block of at most NMAX octets started from halves below 2^16,
   * no accumulator wraps: `Run` computes the exact sums.
   */
  lemma {:induction false} RunExact(s: Sums, bytes: seq<int>)
    requires 0 <= s.s1 < 0x1_0000 && 0 <= s.s2 < 0x1_0000
    requires |bytes| <= NMAX
    requires forall i :: 0 <= i < |bytes| ==> 0 <= bytes[i] < 256
    ensures Run(s, bytes) == ExactRun(s, bytes)
    decreases |bytes|
  {
    if bytes != [] {
      var n := |bytes|;
      var pre, b := bytes[..n - 1], bytes[n - 1];
      assert forall i :: 0 <= i < |pre| ==> pre[i] == bytes[i];
      RunExact(s, pre);
      ExactRunBounds(s, bytes);
      var p := ExactRun(s, pre);
      assert ExactRun(s, bytes) == Sums(p.s1 + b, p.s2 + p.s1 + b);
      assert Run(s, bytes) == Do1(p, b);
      Do1Exact(p, b);
    }
  }

  /** One ADLER32_DO1 step whose sums stay below 2^32 is the exact step. */
  lemma Do1Exact(p: Sums, b: int)
    requires 0 <= p.s1 + b < TWO32 && 0 <= p.s2 + p.s1 + b < TWO32
    ensures Do1(p, b) == Sums(p.s1 + b, p.s2 + p.s1 + b)
  {
    WrapId(p.s1 + b);
    WrapId(p.s2 + p.s1 + b);
  }

  lemma WrapId(x: int)
    requires 0 <= x < TWO32
    ensures Wrap(x) == x
  {
  }

  /** Reducing the exact sums once gives what reducing after every byte gives. */
  lemma {:induction false} ReduceExact(s: Sums, bytes: seq<int>)
    requires bytes != []
    ensures Reduce(ExactRun(s, bytes)) == ModRun(s, bytes)
    decreases |bytes|
  {
    var n := |bytes|;
    var pre, b := bytes[..n - 1], bytes[n - 1];
    var p := ExactRun(s, pre);
    var a := p.s1 + b;
    if pre == [] {
      ModAdd(a, s.s2);
    } else {
      ReduceExact(s, pre);
      ModAdd(p.s1, b);
      ModAdd(p.s2, a);
      ModAdd(a, p.s2 % BASE);
    }
  }

  /** Reducing after every byte is compatible with concatenation. */
  lemma {:induction false} ModRunAppend(s: Sums, xs: seq<int>, ys: seq<int>)
    ensures ModRun(s, xs + ys) == ModRun(ModRun(s, xs), ys)
    decreases |ys|
  {
    if ys == [] {
      assert xs + ys == xs;
    } else {
      var n := |ys|;
      assert (xs + ys)[..|xs + ys| - 1] == xs + ys[..n - 1];
      assert (xs + ys)[|xs + ys| - 1] == ys[n - 1];
      ModRunAppend(s, xs, ys[..n - 1]);
    }
  }

  /** The block structure with its wrap-around computes the per-byte reduction, for octets. */
  lemma {:induction false} BlocksIsModRun(s: Sums, bytes: seq<int>)
    requires 0 <= s.s1 < 0x1_0000 && 0 <= s.s2 < 0x1_0000
    requires forall i :: 0 <= i < |bytes| ==> 0 <= bytes[i] < 256
    requires bytes != []
    ensures Blocks(s, bytes) == ModRun(s, bytes)
    decreases |bytes|
  {
    var head := if |bytes| >= NMAX then bytes[..NMAX] else bytes;
    assert forall i :: 0 <= i < |head| ==> head[i] == bytes[i];
    RunExact(s, head);
    ReduceExact(s, head);
    if |bytes| >= NMAX {
      var tail := bytes[NMAX..];
      var t := Reduce(Run(s, head));
      assert head + tail == bytes;
      if tail != [] {
        assert forall i :: 0 <= i < |tail| ==> tail[i] == bytes[NMAX + i];
        BlocksIsModRun(t, tail);
        ModRunAppend(s, head, tail);
      } else {
        assert head == bytes;
      }
    }
  }

  /**
   * For byte values that are octets (0..255; a signed byte only when it is 0..127) the
   * checksum is the Adler-32 of RFC 1950, section 2.2, continued from
   * `checksum`; NMAX keeps every accumulator below 2^32 between reductions.
   * With no byte at all the checksum is returned as it was given, which is
   * RFC 1950's value whenever both halves are below BASE.
   */
  lemma AgreesWithRfc1950(checksum: U32, bytes: seq<int>)
    requires forall i :: 0 <= i < |bytes| ==> 0 <= bytes[i] < 256
    requires bytes != [] || (checksum % 0x1_0000 < BASE && checksum / 0x1_0000 < BASE)
    ensures Checksum(checksum, bytes) == Rfc1950(checksum, bytes)
  {
    var a, b := checksum % 0x1_0000, checksum / 0x1_0000;
    var s := Start(checksum);
    assert s == Sums(a, b);
    var closed := Sums((a + Sum(bytes)) % BASE, (b + |bytes| * a + PrefixSums(bytes)) % BASE);
    assert Rfc1950(checksum, bytes) == Pack(closed);
    BlocksInRange(s, bytes);
    assert Checksum(checksum, bytes) == Pack(Blocks(s, bytes));
    if bytes != [] {
      BlocksIsModRun(s, bytes);
      ReduceExact(s, bytes);
      ExactRunClosedForm(s, bytes);
      assert Blocks(s, bytes) == closed;
    } else {
      assert Blocks(s, bytes) == s;
      assert closed == s;
    }
  }

  /**
   * The signed reading departs from RFC 1950: the single byte 0x80 read as
   * -128, continued from the initial checksum 1, gives A = B = 98 where
   * RFC 1950 gives A = B = 129.
   */
  lemma SignedByteDeparts()
    ensures Checksum(1, [-128]) == 98 * 0x1_0000 + 98
    ensures Rfc1950(1, [128]) == 129 * 0x1_0000 + 129
  {
    SignedRun();
    assert Blocks(Sums(1, 0), [-128]) == Reduce(Sums(TWO32 - 127, TWO32 - 127));
    assert [128][..0] == [];
    assert Sum([128]) == 128 && PrefixSums([128]) == 128;
  }

  /** The byte -128 wraps `s1` round to 2^32 - 127, which BASE reduces to 98. */
  lemma SignedRun()
    ensures Run(Sums(1, 0), [-128]) == Sums(TWO32 - 127, TWO32 - 127)
    ensures (TWO32 - 127) % BASE == 98
  {
    var w := TWO32 - 127;
    assert Wrap(1 + -128) == w;
    assert Wrap(0 + w) == w;
    assert [-128][..0] == [];
    assert w == 65521 * 65551 + 98;
  }
}
