// Shared vocabulary of the replay decoder: bytes, little-endian integers,
// Python-style clamped slices, the null-terminated string scan, the error
// kinds both implementations raise, and the two implementations themselves.

module Common {

  /** One octet of the replay. */
  type u8 = x: int | 0 <= x < 256

  /** The two implementations of the decoder; used only where they differ. */
  datatype Port = Py | Go

  datatype Option<+T> = None | Some(value: T)

  /** Error kinds (exceptions.py / errors.go). */
  datatype ParseError =
    | InvalidHeader
    | UnsupportedVersion
    | TruncatedData(offset: nat)
    | DecompressionError(offset: nat)
    | UnknownAction
    /** The bare inflater error that `decompress_single_block` lets through. */
    | InflateFailure

  datatype Result<+T> = Ok(value: T) | Err(error: ParseError)

  function Min(a: int, b: int): int { if a <= b then a else b }
  function Max(a: int, b: int): int { if a <= b then b else a }

  // ---------------------------------------------------------------------
  // Little-endian integers

  function LE16(s: seq<u8>, i: nat): (n: nat)
    requires i + 2 <= |s|
    ensures n < 0x1_0000
  {
    (s[i] as int) + 0x100 * (s[i + 1] as int)
  }

  function LE32(s: seq<u8>, i: nat): (n: nat)
    requires i + 4 <= |s|
    ensures n < 0x1_0000_0000
  {
    (s[i] as int) + 0x100 * (s[i + 1] as int) + 0x1_0000 * (s[i + 2] as int)
      + 0x100_0000 * (s[i + 3] as int)
  }

  function Enc16(n: nat): (s: seq<u8>)
    requires n < 0x1_0000
    ensures |s| == 2
  {
    [n % 0x100, n / 0x100]
  }

  function Enc32(n: nat): (s: seq<u8>)
    requires n < 0x1_0000_0000
    ensures |s| == 4
  {
    [n % 0x100, (n / 0x100) % 0x100, (n / 0x1_0000) % 0x100, n / 0x100_0000]
  }

  /** A 16-bit field read where its two bytes are known. */
  lemma LE16Of(s: seq<u8>, i: nat, n: nat)
    requires n < 0x1_0000 && i + 2 <= |s| && s[i] == n % 0x100 && s[i + 1] == n / 0x100
    ensures LE16(s, i) == n
  {
  }

  /** Reading back a 16-bit field at any position of a buffer that holds its encoding. */
  lemma LE16Enc(a: seq<u8>, n: nat, b: seq<u8>)
    requires n < 0x1_0000
    ensures LE16(a + Enc16(n) + b, |a|) == n
  {
    var s := a + Enc16(n) + b;
    assert s[|a|] == n % 0x100 && s[|a| + 1] == n / 0x100;
  }

  /** Reading back a 32-bit field at any position of a buffer that holds its encoding. */
  lemma LE32Enc(a: seq<u8>, n: nat, b: seq<u8>)
    requires n < 0x1_0000_0000
    ensures LE32(a + Enc32(n) + b, |a|) == n
  {
    var s := a + Enc32(n) + b;
    assert s[|a|] == n % 0x100;
    assert s[|a| + 1] == (n / 0x100) % 0x100;
    assert s[|a| + 2] == (n / 0x1_0000) % 0x100;
    assert s[|a| + 3] == n / 0x100_0000;
    var q1 := n / 0x100;
    var q2 := q1 / 0x100;
    assert n == n % 0x100 + 0x100 * q1;
    assert q1 == q1 % 0x100 + 0x100 * q2;
    assert q2 == q2 % 0x100 + 0x100 * (q2 / 0x100);
    assert q2 == n / 0x1_0000;
    assert q2 / 0x100 == n / 0x100_0000;
  }

  /** A 16-bit field read where its encoding sits inside a larger buffer. */
  lemma LE16At(s: seq<u8>, i: nat, n: nat)
    requires n < 0x1_0000 && i + 2 <= |s| && s[i..i + 2] == Enc16(n)
    ensures LE16(s, i) == n
  {
    LE16Enc(s[..i], n, s[i + 2..]);
    assert s[..i] + s[i..i + 2] + s[i + 2..] == s;
  }

  /** A 32-bit field read where its encoding sits inside a larger buffer. */
  lemma LE32At(s: seq<u8>, i: nat, n: nat)
    requires n < 0x1_0000_0000 && i + 4 <= |s| && s[i..i + 4] == Enc32(n)
    ensures LE32(s, i) == n
  {
    LE32Enc(s[..i], n, s[i + 4..]);
    assert s[..i] + s[i..i + 4] + s[i + 4..] == s;
  }

  /** Regrouping a buffer made of a prefix, three pieces and a suffix. */
  lemma Regroup<T>(p: seq<T>, a: seq<T>, b: seq<T>, c: seq<T>, r: seq<T>)
    ensures p + (a + b + c) + r == (p + a) + b + (c + r)
  {
  }

  /** The two ways of splitting `p + (a + b) + r` at a piece boundary. */
  lemma Reassoc<T>(p: seq<T>, a: seq<T>, b: seq<T>, r: seq<T>)
    ensures p + (a + b) + r == (p + a) + b + r
    ensures p + (a + b) + r == (p + a) + (b + r)
  {
  }

  /** An accumulator loop step: appending the next piece keeps `acc + remaining` fixed. */
  lemma AppendStep<T>(acc: seq<T>, x: seq<T>, rest: seq<T>, remaining: seq<T>)
    requires remaining == x + rest
    ensures acc + remaining == (acc + x) + rest
  {
  }

  /** Two descriptions of the same sequence agree. */
  lemma SameSeq<T>(a: seq<T>, b: seq<T>, c: seq<T>)
    requires a == c && b == c
    ensures a == b
  {
  }

  /** An accumulator loop's exit: once nothing remains, the accumulator is the whole. */
  lemma AppendDone<T>(acc: seq<T>, remaining: seq<T>, whole: seq<T>)
    requires acc + remaining == whole && remaining == []
    ensures acc == whole
  {
    assert acc + remaining == acc;
  }

  /** The middle piece of a buffer is the slice where it sits. */
  lemma MiddleSlice<T>(p: seq<T>, x: seq<T>, r: seq<T>)
    ensures (p + x + r)[|p|..|p| + |x|] == x
  {
    assert forall i :: 0 <= i < |x| ==> (p + x + r)[|p| + i] == x[i];
  }

  /** A slice of a slice is a slice of the original. */
  lemma SliceOfSlice<T>(s: seq<T>, i: nat, j: nat, a: nat, b: nat)
    requires i <= j <= |s| && a <= b <= j - i
    ensures s[i..j][a..b] == s[i + a..i + b]
  {
    var t := s[i..j];
    forall k | 0 <= k < b - a
      ensures t[a..b][k] == s[i + a..i + b][k]
    {
      assert t[a..b][k] == t[a + k];
      assert t[a + k] == s[i + a + k];
    }
  }

  /** The low byte of a 32-bit field is its first byte. */
  lemma LE32LowByte(s: seq<u8>, i: nat)
    requires i + 4 <= |s|
    ensures LE32(s, i) % 0x100 == s[i]
  {
    var t := (s[i + 1] as int) + 0x100 * (s[i + 2] as int) + 0x1_0000 * (s[i + 3] as int);
    assert LE32(s, i) == 0x100 * t + s[i];
    DivUnique(LE32(s, i), 0x100, t, s[i]);
  }

  /** A 32-bit field read where its four bytes are known one by one. */
  lemma LE32Window(s: seq<u8>, i: nat, n: nat)
    requires n < 0x1_0000_0000 && i + 4 <= |s|
    requires forall j :: 0 <= j < 4 ==> s[i + j] == Enc32(n)[j]
    ensures LE32(s, i) == n
  {
    assert s[i..i + 4] == Enc32(n);
    LE32At(s, i, n);
  }

  // ---------------------------------------------------------------------
  // Bits

  function Pow2(k: nat): (p: nat)
    ensures p >= 1
  {
    if k == 0 then 1 else 2 * Pow2(k - 1)
  }

  lemma MulAtLeast(d: int, a: int)
    requires d > 0 && a >= 1
    ensures d * a >= d
  {
  }

  /** Euclidean division is determined by any quotient/remainder pair. */
  lemma DivUnique(x: int, d: int, t: int, e: int)
    requires d > 0 && 0 <= e < d && x == d * t + e
    ensures x / d == t && x % d == e
  {
    var q, m := x / d, x % d;
    assert x == d * q + m && 0 <= m < d;
    if q > t {
      MulAtLeast(d, q - t);
      assert false;
    } else if q < t {
      MulAtLeast(d, t - q);
      assert false;
    }
  }

  lemma Mod2Unique(x: int, t: int, e: int)
    requires 0 <= e < 2 && x == 2 * t + e
    ensures x % 2 == e && x / 2 == t
  {
  }

  /** `x & mask != 0` for a single-bit mask. */
  predicate HasBit(x: nat, mask: nat)
    requires mask >= 1
  {
    (x / mask) % 2 == 1
  }

  // ---------------------------------------------------------------------
  // Slices and scans

  /** Python's `data[a:b]` for non-negative bounds: both ends clamp to the buffer. */
  function Slice(data: seq<u8>, a: nat, b: nat): (s: seq<u8>)
    ensures a < |data| && a <= b ==> s == data[a..Min(b, |data|)]
    ensures |s| <= |data|
    ensures b <= a || |data| <= a ==> s == []
  {
    if |data| <= a || b <= a then [] else data[a..Min(b, |data|)]
  }

  /**
   * Where the null scan `while o < len(data) and data[o] != 0: o += 1`
   * stops when started at `from`: the first zero byte at or after `from`,
   * the buffer length when there is none, and `from` itself when it is
   * already past the end.
   */
  function NullIndex(data: seq<u8>, from: nat): (e: nat)
    ensures from <= e
    ensures |data| <= from ==> e == from
    ensures from < |data| ==> e <= |data|
    ensures e < |data| ==> data[e] == 0
    ensures forall k :: from <= k < e && k < |data| ==> data[k] != 0
    decreases |data| - from
  {
    if |data| <= from || data[from] == 0 then from else NullIndex(data, from + 1)
  }

  /** The scanning loop itself, as every caller in both implementations writes it. */
  method ScanToNull(data: seq<u8>, from: nat) returns (e: nat)
    ensures e == NullIndex(data, from)
  {
    e := from;
    while e < |data| && data[e] != 0
      invariant from <= e
      invariant NullIndex(data, e) == NullIndex(data, from)
      decreases |data| - e
    {
      e := e + 1;
    }
  }

  /** No byte of `s` is a null. */
  predicate NoNull(s: seq<u8>)
  {
    forall i :: 0 <= i < |s| ==> s[i] != 0
  }

  /** The scan stops at the first null after a run of non-null bytes. */
  lemma NullIndexAfterRun(data: seq<u8>, from: nat, n: nat)
    requires from + n < |data| && data[from + n] == 0
    requires forall k :: from <= k < from + n ==> data[k] != 0
    ensures NullIndex(data, from) == from + n
  {
  }

  /** A null-free run followed by a null: the scan stops right at that null. */
  lemma NullAfterRun(data: seq<u8>, from: nat, s: seq<u8>)
    requires from + |s| < |data| && data[from..from + |s|] == s && NoNull(s) && data[from + |s|] == 0
    ensures NullIndex(data, from) == from + |s|
  {
    forall k | from <= k < from + |s|
      ensures data[k] != 0
    {
      assert data[k] == data[from..from + |s|][k - from];
    }
    NullIndexAfterRun(data, from, |s|);
  }

  // ---------------------------------------------------------------------
  // Text built by the decoder itself ("Player 3", "Computer 5", "1.26")

  function DigitChar(d: nat): (c: char)
    requires d < 10
    ensures '0' <= c <= '9'
  {
    ('0' as int + d) as char
  }

  /** The value of a decimal digit character. */
  function DigitValue(c: char): nat
  {
    if '0' <= c <= '9' then c as int - '0' as int else 0
  }

  /** The value of a string of decimal digits, most significant first. */
  function DecimalValue(s: string): nat
  {
    if s == [] then 0 else 10 * DecimalValue(s[..|s| - 1]) + DigitValue(s[|s| - 1])
  }

  /** Reading the digits back gives the number they were written from. */
  lemma {:induction false} DecimalRoundTrip(n: nat)
    ensures DecimalValue(Decimal(n)) == n
    decreases n
  {
    if n >= 10 {
      var d := Decimal(n);
      assert d[..|d| - 1] == Decimal(n / 10);
      DecimalRoundTrip(n / 10);
    }
  }

  /** Distinct numbers render differently. */
  lemma DecimalInjective(a: nat, b: nat)
    ensures a != b ==> Decimal(a) != Decimal(b)
  {
    DecimalRoundTrip(a);
    DecimalRoundTrip(b);
  }

  /** Decimal rendering of a natural number, as `str(n)` / `%d` produce it. */
  function Decimal(n: nat): (s: string)
    ensures |s| >= 1
    ensures forall i :: 0 <= i < |s| ==> '0' <= s[i] <= '9'
    decreases n
  {
    if n < 10 then [DigitChar(n)] else Decimal(n / 10) + [DigitChar(n % 10)]
  }

  /** The bytes of an ASCII string. */
  function Ascii(s: string): (b: seq<u8>)
    requires forall i :: 0 <= i < |s| ==> s[i] as int < 128
    ensures |b| == |s|
    ensures forall i :: 0 <= i < |s| ==> b[i] == s[i] as int
  {
    if s == [] then [] else [s[0] as int] + Ascii(s[1..])
  }

  /** Bytes of `prefix` followed by the decimal digits of `n`. */
  function Numbered(prefix: string, n: nat): (b: seq<u8>)
    requires forall i :: 0 <= i < |prefix| ==> prefix[i] as int < 128
    ensures |b| > |prefix|
  {
    Ascii(prefix + Decimal(n))
  }
}
