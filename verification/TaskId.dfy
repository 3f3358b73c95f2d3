/**
The deterministic worker task id of a board item: a readable form for clean
`owner/name` repositories and a slug-plus-digest form for everything else.
 */
module TaskId {
  import opened Wrappers

  /** The id becomes a file name, so it is capped at 64 bytes. */
  const TASK_ID_MAX_LEN: nat := 64

  /** Only the id's own characters are ASCII; the repository name may be any text. */
  predicate IsAscii(s: string) { forall i :: 0 <= i < |s| ==> s[i] as int < 128 }

  predicate IsAlphanumeric(c: char) { '0' <= c <= '9' || 'A' <= c <= 'Z' || 'a' <= c <= 'z' }

  predicate IsCleanChar(c: char) { IsAlphanumeric(c) || c == '-' }

  predicate IsClean(part: string) {
    part != [] && forall i :: 0 <= i < |part| ==> IsCleanChar(part[i])
  }

  /** `0..=9` then `a..=f`, as the source's lower-case hex formatting. */
  function Digit(d: nat): char
    requires d < 16
  {
    "0123456789abcdef"[d]
  }

  /** Decimal digits without leading zeros; zero is written as one digit. */
  function Numeral(n: nat): string
  {
    if n < 10 then [Digit(n)] else Numeral(n / 10) + [Digit(n % 10)]
  }

  /** Exactly `width` digits, the leading ones zero where the value is short. */
  function Padded(n: nat, width: nat): string
  {
    if width == 0 then [] else Padded(n / 16, width - 1) + [Digit(n % 16)]
  }

  /** UTF-8, the bytes a Rust string is made of. */
  function Utf8Char(c: char): seq<byte>
  {
    var n := c as int;
    if n < 0x80 then [n]
    else if n < 0x800 then [0xC0 + n / 0x40, 0x80 + n % 0x40]
    else if n < 0x1_0000 then [0xE0 + n / 0x1000, 0x80 + n / 0x40 % 0x40, 0x80 + n % 0x40]
    else [0xF0 + n / 0x4_0000, 0x80 + n / 0x1000 % 0x40, 0x80 + n / 0x40 % 0x40, 0x80 + n % 0x40]
  }

  function Utf8(s: string): seq<byte>
  {
    if s == [] then [] else Utf8(s[..|s| - 1]) + Utf8Char(s[|s| - 1])
  }

  type u32 = n: nat | n < 0x1_0000_0000

  const FNV_OFFSET: u32 := 0x811c_9dc5
  const FNV_PRIME: u32 := 0x0100_0193

  /** Exclusive or of the low `width` bits. */
  function XorBits(a: nat, b: nat, width: nat): (r: nat)
    ensures r < Pow2(width)
  {
    if width == 0 then 0
    else (if a % 2 == b % 2 then 0 else 1) + 2 * XorBits(a / 2, b / 2, width - 1)
  }

  lemma Pow2Of32()
    ensures Pow2(32) == 0x1_0000_0000
  {
    assert Pow2(8) == 256;
    assert Pow2(16) == 65_536 by { assert Pow2(12) == 16 * Pow2(8); }
    assert Pow2(24) == 16_777_216 by { assert Pow2(20) == 16 * Pow2(16); }
    assert Pow2(28) == 16 * Pow2(24);
  }

  function Xor(hash: u32, byte: byte): u32
  {
    Pow2Of32();
    XorBits(hash, byte, 32)
  }

  /** Multiplication that keeps the low 32 bits. */
  function WrappingMul(a: u32, b: u32): u32 { a * b % 0x1_0000_0000 }

  /** The FNV-1a digest as a fold: xor the byte in, then multiply modulo 2^32. */
  function FnvFold(bytes: seq<byte>): u32
  {
    if bytes == [] then FNV_OFFSET
    else WrappingMul(Xor(FnvFold(bytes[..|bytes| - 1]), bytes[|bytes| - 1]), FNV_PRIME)
  }

  /** The in-place hash loop computes the fold. */
  method Fnv1a(value: string) returns (hash: u32)
    ensures hash == FnvFold(Utf8(value))
  {
    var bytes := Utf8(value);
    hash := FNV_OFFSET;
    for i := 0 to |bytes|
      invariant hash == FnvFold(bytes[..i])
    {
      hash := Xor(hash, bytes[i]);
      hash := WrappingMul(hash, FNV_PRIME);
      assert bytes[..i + 1][..i] == bytes[..i];
    }
    assert bytes[..|bytes|] == bytes;
  }

  /** Digest of the full repository name. */
  function Digest(repo: string): u32 { FnvFold(Utf8(repo)) }

  /** Position of the first `/`, or the length when there is none. */
  function FirstSlash(s: string): (k: nat)
    ensures k <= |s|
    ensures k < |s| ==> s[k] == '/'
    ensures forall i :: 0 <= i < k ==> s[i] != '/'
  {
    if s == [] || s[0] == '/' then 0 else 1 + FirstSlash(s[1..])
  }

  /** Whether the repository splits at its first slash into two clean parts. */
  predicate IsCleanRepo(repo: string)
  {
    var k := FirstSlash(repo);
    k < |repo| && IsClean(repo[..k]) && IsClean(repo[k + 1..])
  }

  /** Room left for the middle part once `board-`, the dash and the number are placed. */
  function Budget(number: u64): nat
  {
    SaturatingSub(TASK_ID_MAX_LEN, |"board--" + Numeral(number)|)
  }

  function OwnerName(repo: string): string
  {
    seq(|repo|, i requires 0 <= i < |repo| => if repo[i] == '/' then '_' else repo[i])
  }

  function Slug(repo: string): string
  {
    seq(|repo|, i requires 0 <= i < |repo| => if IsCleanChar(repo[i]) then repo[i] else '-')
  }

  /** The repository's slug cut to what the budget leaves beside the digest. */
  function TruncatedSlug(repo: string, number: u64): string
  {
    Slug(repo)[..Min(|repo|, SaturatingSub(Budget(number), 9))]
  }

  /** Whether the readable form is used. */
  predicate IsReadable(repo: string, number: u64)
  {
    IsCleanRepo(repo) && |repo| <= Budget(number)
  }

  /** What stands between `board-` and `-<number>`. */
  function Middle(repo: string, number: u64): string
  {
    if IsReadable(repo, number) then OwnerName(repo)
    else TruncatedSlug(repo, number) + "-" + Padded(Digest(repo), 8)
  }

  function TaskIdFor(repo: string, number: u64): string
  {
    "board-" + (Middle(repo, number) + "-" + Numeral(number))
  }

  // ---------------------------------------------------------------- numerals

  predicate AllDigits(s: string) { forall i :: 0 <= i < |s| ==> IsAlphanumeric(s[i]) }

  lemma DigitIsAlphanumeric(d: nat)
    requires d < 16
    ensures IsAlphanumeric(Digit(d))
  {
  }

  lemma DigitInjective(a: nat, b: nat)
    requires a < 16 && b < 16 && Digit(a) == Digit(b)
    ensures a == b
  {
  }

  lemma NumeralDigits(n: nat)
    ensures AllDigits(Numeral(n)) && |Numeral(n)| > 0
  {
    if n < 10 { DigitIsAlphanumeric(n); }
    else { NumeralDigits(n / 10); DigitIsAlphanumeric(n % 10); }
  }

  /** A number below `10^k` has at most `k` decimal digits. */
  lemma NumeralLength(n: nat, k: nat, bound: nat)
    requires k > 0 && n < bound && bound == Pow10(k)
    ensures |Numeral(n)| <= k
    decreases k
  {
    if n >= 10 { NumeralLength(n / 10, k - 1, Pow10(k - 1)); }
  }

  function Pow10(k: nat): nat { if k == 0 then 1 else 10 * Pow10(k - 1) }

  lemma U64HasTwentyDigits(number: u64)
    ensures |Numeral(number)| <= 20
  {
    assert Pow10(5) == 100_000;
    assert Pow10(10) == 10_000_000_000 by { assert Pow10(7) == 100 * Pow10(5); }
    assert Pow10(15) == 1_000_000_000_000_000 by { assert Pow10(12) == 100 * Pow10(10); }
    assert Pow10(20) == 100_000_000_000_000_000_000 by { assert Pow10(17) == 100 * Pow10(15); }
    NumeralLength(number, 20, Pow10(20));
  }

  lemma {:induction false} NumeralInjective(a: nat, b: nat)
    requires Numeral(a) == Numeral(b)
    ensures a == b
  {
    var x, y := Numeral(a), Numeral(b);
    NumeralDigits(a / 10);
    NumeralDigits(b / 10);
    if a < 10 && b < 10 {
      DigitInjective(a, b);
    } else if a >= 10 && b >= 10 {
      assert x[..|x| - 1] == Numeral(a / 10) && y[..|y| - 1] == Numeral(b / 10);
      assert x[|x| - 1] == Digit(a % 10) && y[|y| - 1] == Digit(b % 10);
      NumeralInjective(a / 10, b / 10);
      DigitInjective(a % 10, b % 10);
    }
  }

  lemma {:induction false} PaddedShape(n: nat, width: nat)
    ensures |Padded(n, width)| == width && AllDigits(Padded(n, width))
  {
    if width > 0 { PaddedShape(n / 16, width - 1); DigitIsAlphanumeric(n % 16); }
  }

  function Pow16(k: nat): nat { if k == 0 then 1 else 16 * Pow16(k - 1) }

  lemma {:induction false} PaddedInjective(a: nat, b: nat, width: nat)
    requires a < Pow16(width) && b < Pow16(width) && Padded(a, width) == Padded(b, width)
    ensures a == b
  {
    if width > 0 {
      var x, y := Padded(a, width), Padded(b, width);
      PaddedShape(a, width);
      PaddedShape(a / 16, width - 1);
      PaddedShape(b / 16, width - 1);
      assert x[..width - 1] == Padded(a / 16, width - 1) && y[..width - 1] == Padded(b / 16, width - 1);
      PaddedInjective(a / 16, b / 16, width - 1);
      assert x[width - 1] == Digit(a % 16) && y[width - 1] == Digit(b % 16);
      DigitInjective(a % 16, b % 16);
    }
  }

  lemma DigestBelowPow16(repo: string)
    ensures Digest(repo) < Pow16(8)
  {
    assert Pow16(4) == 65_536;
    assert Pow16(8) == 65_536 * 65_536 by { assert Pow16(6) == 256 * Pow16(4); }
  }

  /** What a digit stands for: `0` to `9`, then `a` to `f`. */
  function DigitValue(c: char): (d: nat)
  {
    if '0' <= c <= '9' then c as int - '0' as int else if 'a' <= c <= 'f' then c as int - 'a' as int + 10 else 16
  }

  /** The number a string of digits denotes, the most significant one first. */
  function Value(s: string, radix: nat): nat
  {
    if s == [] then 0 else Value(s[..|s| - 1], radix) * radix + DigitValue(s[|s| - 1])
  }

  lemma DigitMeans(d: nat)
    requires d < 16
    ensures DigitValue(Digit(d)) == d
  {
  }

  /** A numeral is the decimal notation of its number, without leading zeros. */
  lemma {:induction false} NumeralMeans(n: nat)
    ensures Value(Numeral(n), 10) == n
    ensures forall i :: 0 <= i < |Numeral(n)| ==> '0' <= Numeral(n)[i] <= '9'
    ensures n > 0 ==> Numeral(n)[0] != '0'
  {
    if n < 10 {
      DigitMeans(n);
      assert [Digit(n)][..0] == [];
    } else {
      NumeralMeans(n / 10);
      DigitMeans(n % 10);
      assert Numeral(n)[..|Numeral(n)| - 1] == Numeral(n / 10);
    }
  }

  /** A padded number is its hexadecimal notation in exactly that many digits. */
  lemma {:induction false} PaddedMeans(n: nat, width: nat)
    requires n < Pow16(width)
    ensures |Padded(n, width)| == width && Value(Padded(n, width), 16) == n
  {
    if width > 0 {
      PaddedMeans(n / 16, width - 1);
      DigitMeans(n % 16);
      var s := Padded(n, width);
      assert s[..width - 1] == Padded(n / 16, width - 1) && s[width - 1] == Digit(n % 16);
      assert n == n / 16 * 16 + n % 16;
    }
  }

  // --------------------------------------------------------------- the hash

  /** Bit `k` of a number. */
  function Bit(n: nat, k: nat): nat { if k == 0 then n % 2 else Bit(n / 2, k - 1) }

  /** Each bit of the exclusive or says whether the two bits differ. */
  lemma {:induction false} XorMeans(a: nat, b: nat, width: nat, k: nat)
    requires k < width
    ensures Bit(XorBits(a, b, width), k) == if Bit(a, k) == Bit(b, k) then 0 else 1
  {
    if k > 0 { XorMeans(a / 2, b / 2, width - 1, k - 1); }
  }

  lemma {:induction false} XorWithNothing(a: nat, width: nat)
    requires a < Pow2(width)
    ensures XorBits(a, 0, width) == a
  {
    if width > 0 { XorWithNothing(a / 2, width - 1); }
  }

  /** `n` doublings. */
  function Shifted(a: nat, n: nat): nat { if n == 0 then a else 2 * Shifted(a, n - 1) }

  lemma {:induction false} XorSplits(high: nat, low: nat, b: nat, n: nat)
    requires low < Pow2(n) && b < Pow2(n)
    ensures XorBits(Shifted(high, n) + low, b, n + 24) == XorBits(low, b, n) + Shifted(XorBits(high, 0, 24), n)
  {
    if n > 0 { XorSplits(high, low / 2, b / 2, n - 1); }
  }

  lemma ShiftedByEight(a: nat)
    ensures Shifted(a, 8) == 256 * a
  {
    assert Shifted(a, 1) == 2 * a;
    assert Shifted(a, 2) == 2 * Shifted(a, 1);
    assert Shifted(a, 4) == 4 * Shifted(a, 2);
    assert Shifted(a, 6) == 4 * Shifted(a, 4);
    assert Shifted(a, 8) == 4 * Shifted(a, 6);
  }

  /** A byte only reaches the low eight bits. */
  lemma XorLowByte(high: nat, low: byte, b: byte)
    requires high < 0x100_0000
    ensures 256 * high + low < 0x1_0000_0000 && Xor(256 * high + low, b) == 256 * high + XorBits(low, b, 8)
  {
    ShiftedByEight(high);
    assert Pow2(8) == 256;
    XorSplits(high, low, b, 8);
    assert Pow2(12) == 16 * Pow2(8) && Pow2(16) == 16 * Pow2(12);
    assert Pow2(20) == 16 * Pow2(16) && Pow2(24) == 16 * Pow2(20) == 0x100_0000;
    XorWithNothing(high, 24);
  }

  /** The number with these bits, the lowest first. */
  function FromBits(bits: seq<bool>): nat
  {
    if bits == [] then 0 else (if bits[0] then 1 else 0) + 2 * FromBits(bits[1..])
  }

  function Differ(a: seq<bool>, b: seq<bool>): seq<bool>
    requires |a| == |b|
  {
    if a == [] then [] else [a[0] != b[0]] + Differ(a[1..], b[1..])
  }

  lemma Halves(p: bool, x: nat)
    ensures ((if p then 1 else 0) + 2 * x) / 2 == x && ((if p then 1 else 0) + 2 * x) % 2 == if p then 1 else 0
  {
  }

  lemma XorOfHalves(p: bool, x: nat, q: bool, y: nat, width: nat)
    ensures XorBits((if p then 1 else 0) + 2 * x, (if q then 1 else 0) + 2 * y, width + 1)
              == (if p != q then 1 else 0) + 2 * XorBits(x, y, width)
  {
    Halves(p, x);
    Halves(q, y);
  }

  lemma {:induction false} XorOfBits(a: seq<bool>, b: seq<bool>)
    requires |a| == |b|
    ensures XorBits(FromBits(a), FromBits(b), |a|) == FromBits(Differ(a, b))
  {
    if a != [] {
      XorOfBits(a[1..], b[1..]);
      XorOfHalves(a[0], FromBits(a[1..]), b[0], FromBits(b[1..]), |a| - 1);
      assert Differ(a, b)[1..] == Differ(a[1..], b[1..]);
    }
  }

  lemma XorOfFirst()
    ensures XorBits(0xc5, 0x61, 8) == 0xa4
  {
    var c5 := [true, false, true, false, false, false, true, true];
    var x61 := [true, false, false, false, false, true, true, false];
    XorOfBits(c5, x61);
    assert Differ(c5, x61) == [false, false, true, false, false, true, false, true];
  }

  lemma {:induction false} Utf8OfAscii(s: string)
    requires IsAscii(s)
    ensures |Utf8(s)| == |s| && forall i :: 0 <= i < |s| ==> Utf8(s)[i] == s[i] as int
  {
    if s != [] { Utf8OfAscii(s[..|s| - 1]); }
  }

  lemma FnvOfOne(bytes: seq<byte>)
    requires bytes == [0x61]
    ensures FnvFold(bytes) == 0xe40c_292c
  {
    assert bytes[..0] == [];
    XorOfFirst();
    XorLowByte(0x81_1c9d, 0xc5, 0x61);
  }

  /** The published 32-bit FNV-1a values of the empty text and of `a`. */
  lemma FnvVectors(a: string)
    requires |a| == 1 && a[0] == 'a'
    ensures FnvFold([]) == 0x811c_9dc5 && Digest(a) == 0xe40c_292c
  {
    var bytes := Utf8(a);
    Utf8OfAscii(a);
    assert bytes == [0x61];
    FnvOfOne(bytes);
  }

  /** Six bits from each continuation byte. */
  function Tail(s: seq<byte>): nat
  {
    if s == [] then 0 else 0x40 * Tail(s[..|s| - 1]) + SaturatingSub(s[|s| - 1], 0x80)
  }

  /** The code point a UTF-8 sequence encodes, by section 3 of RFC 3629. */
  function CodePoint(s: seq<byte>): nat
  {
    if |s| == 1 then s[0]
    else if |s| == 2 then 0x40 * SaturatingSub(s[0], 0xC0) + Tail(s[1..])
    else if |s| == 3 then 0x1000 * SaturatingSub(s[0], 0xE0) + Tail(s[1..])
    else if |s| == 4 then 0x4_0000 * SaturatingSub(s[0], 0xF0) + Tail(s[1..])
    else 0
  }

  /** Lead byte and continuation bytes have the marks section 3 of RFC 3629 asks for, in the shortest form. */
  predicate IsWellFormed(s: seq<byte>)
  {
    && 1 <= |s| <= 4 && (forall i :: 1 <= i < |s| ==> 0x80 <= s[i] < 0xC0)
    && (|s| == 1 ==> s[0] < 0x80) && (|s| == 2 ==> 0xC2 <= s[0] < 0xE0)
    && (|s| == 3 ==> 0xE0 <= s[0] < 0xF0) && (|s| == 4 ==> 0xF0 <= s[0] < 0xF5)
  }

  lemma TailOfTwo(a: byte, b: byte)
    requires a >= 0x80 && b >= 0x80
    ensures Tail([a]) == a - 0x80 && Tail([a, b]) == 0x40 * (a - 0x80) + (b - 0x80)
  {
    assert [a, b][..1] == [a] && [a][..0] == [];
  }

  lemma TailOfThree(a: byte, b: byte, c: byte)
    requires a >= 0x80 && b >= 0x80 && c >= 0x80
    ensures Tail([a, b, c]) == 0x1000 * (a - 0x80) + 0x40 * (b - 0x80) + (c - 0x80)
  {
    TailOfTwo(a, b);
    assert [a, b, c][..2] == [a, b];
  }

  /** Every character has a well-formed encoding that reads back as itself. */
  lemma Utf8Means(c: char)
    ensures CodePoint(Utf8Char(c)) == c as int && IsWellFormed(Utf8Char(c))
  {
    var n, s := c as int, Utf8Char(c);
    assert n / 0x1000 == n / 0x40 / 0x40 && n / 0x4_0000 == n / 0x1000 / 0x40;
    if |s| == 2 {
      TailOfTwo(s[1], s[1]);
      assert s[1..] == [s[1]];
    } else if |s| == 3 {
      TailOfTwo(s[1], s[2]);
      assert s[1..] == [s[1], s[2]];
    } else if |s| == 4 {
      TailOfThree(s[1], s[2], s[3]);
      assert s[1..] == [s[1], s[2], s[3]];
    }
  }

  // -------------------------------------------------------------- the id laws

  /** A clean repository has one slash and clean characters elsewhere. */
  lemma CleanRepoChars(repo: string)
    requires IsCleanRepo(repo)
    ensures forall i :: 0 <= i < |repo| ==> (repo[i] == '/') == (i == FirstSlash(repo))
    ensures forall i :: 0 <= i < |repo| && i != FirstSlash(repo) ==> IsCleanChar(repo[i])
  {
    forall i | 0 <= i < |repo| && i != FirstSlash(repo)
      ensures IsCleanChar(repo[i]) && repo[i] != '/'
    {
      CleanRepoChar(repo, i);
    }
  }

  lemma CleanRepoChar(repo: string, i: nat)
    requires IsCleanRepo(repo) && i < |repo| && i != FirstSlash(repo)
    ensures IsCleanChar(repo[i]) && repo[i] != '/'
  {
    var k := FirstSlash(repo);
    if i < k { assert repo[..k][i] == repo[i]; } else { assert repo[k + 1..][i - k - 1] == repo[i]; }
  }

  predicate IsIdChar(c: char) { IsCleanChar(c) || c == '_' }

  lemma OwnerNameChars(repo: string)
    requires IsCleanRepo(repo)
    ensures forall i :: 0 <= i < |repo| ==> IsIdChar(OwnerName(repo)[i])
    ensures '_' in OwnerName(repo)
  {
    CleanRepoChars(repo);
    assert OwnerName(repo)[FirstSlash(repo)] == '_';
  }

  lemma DigestFormChars(cut: string, hex: string)
    requires forall i :: 0 <= i < |cut| ==> IsCleanChar(cut[i])
    requires AllDigits(hex)
    ensures forall i :: 0 <= i < |cut + "-" + hex| ==> IsCleanChar((cut + "-" + hex)[i])
  {
  }

  lemma SlugChars(repo: string, number: u64)
    ensures forall i :: 0 <= i < |TruncatedSlug(repo, number)| ==> IsCleanChar(TruncatedSlug(repo, number)[i])
  {
  }

  /** Every character is legal in a file name, and `_` marks the readable form. */
  lemma MiddleChars(repo: string, number: u64)
    ensures forall i :: 0 <= i < |Middle(repo, number)| ==> IsIdChar(Middle(repo, number)[i])
    ensures '_' in Middle(repo, number) <==> IsReadable(repo, number)
  {
    if IsReadable(repo, number) {
      OwnerNameChars(repo);
    } else {
      PaddedShape(Digest(repo), 8);
      SlugChars(repo, number);
      DigestFormChars(TruncatedSlug(repo, number), Padded(Digest(repo), 8));
    }
  }

  /** Every id fits the 64-byte bound; it is ASCII, so characters are bytes. */
  lemma TaskIdFits(repo: string, number: u64)
    ensures |TaskIdFor(repo, number)| <= TASK_ID_MAX_LEN
    ensures IsAscii(TaskIdFor(repo, number))
  {
    U64HasTwentyDigits(number);
    PaddedShape(Digest(repo), 8);
    TaskIdChars(repo, number);
  }

  /** The readable form is used exactly for clean repositories that fit, and spells owner, name and number out. */
  lemma ReadableShape(repo: string, number: u64)
    ensures IsReadable(repo, number) <==> IsCleanRepo(repo) && |"board-" + repo + "-" + Numeral(number)| <= 64
    ensures IsReadable(repo, number) ==>
              var k := FirstSlash(repo);
              TaskIdFor(repo, number) == "board-" + (repo[..k] + "_" + repo[k + 1..] + "-" + Numeral(number))
  {
    U64HasTwentyDigits(number);
    if IsCleanRepo(repo) { OwnerNameShape(repo); }
  }

  lemma OwnerNameShape(repo: string)
    requires IsCleanRepo(repo)
    ensures var k := FirstSlash(repo); OwnerName(repo) == repo[..k] + "_" + repo[k + 1..]
  {
    CleanRepoChars(repo);
  }

  /**
  Otherwise the id is a slug, the eight hexadecimal digits of the repository's
  digest and the number; the slug shows the clean characters of the repository
  and dashes for the rest, and is cut only where the id is full.
   */
  lemma DigestShape(repo: string, number: u64)
    requires !IsReadable(repo, number)
    ensures var slug, hex := TruncatedSlug(repo, number), Padded(Digest(repo), 8);
            && TaskIdFor(repo, number) == "board-" + (slug + "-" + hex + "-" + Numeral(number))
            && |hex| == 8 && Value(hex, 16) == Digest(repo)
            && |slug| <= |repo| && (|slug| < |repo| ==> |TaskIdFor(repo, number)| == TASK_ID_MAX_LEN)
            && forall i :: 0 <= i < |slug| ==> slug[i] == if IsCleanChar(repo[i]) then repo[i] else '-'
  {
    U64HasTwentyDigits(number);
    DigestBelowPow16(repo);
    PaddedMeans(Digest(repo), 8);
  }

  lemma TaskIdChars(repo: string, number: u64)
    ensures IsAscii(TaskIdFor(repo, number))
  {
    MiddleChars(repo, number);
    NumeralDigits(number);
    var m, n := Middle(repo, number), Numeral(number);
    forall i | 0 <= i < |m|
      ensures m[i] as int < 128
    {
      assert IsIdChar(m[i]);
    }
    forall i | 0 <= i < |n|
      ensures n[i] as int < 128
    {
      assert IsAlphanumeric(n[i]);
    }
  }

  /** With a dash-free tail, the separating dash is the last one. */
  lemma LastDash(whole: string, x: string, a: string)
    requires whole == x + "-" + a && '-' !in a
    ensures whole[|x|] == '-'
    ensures forall k :: 0 <= k < |whole| && whole[k] == '-' ==> k <= |x|
  {
    forall k | |x| < k < |whole|
      ensures whole[k] != '-'
    {
      assert whole[k] == a[k - |x| - 1];
    }
  }

  /** A dash followed by a dash-free tail determines the split. */
  lemma SplitAtLastDash(x: string, a: string, y: string, b: string)
    requires x + "-" + a == y + "-" + b
    requires '-' !in a && '-' !in b
    ensures x == y && a == b
  {
    var whole := x + "-" + a;
    LastDash(whole, x, a);
    LastDash(whole, y, b);
    assert x == whole[..|x|] && y == whole[..|y|];
    assert a == whole[|x| + 1..] && b == whole[|y| + 1..];
  }

  lemma DropPrefix(prefix: string, x: string, y: string)
    requires prefix + x == prefix + y
    ensures x == y
  {
    assert x == (prefix + x)[|prefix|..] && y == (prefix + y)[|prefix|..];
  }

  /** An id determines the issue number and the middle part. */
  lemma IdDecomposes(repo1: string, number1: u64, repo2: string, number2: u64)
    requires TaskIdFor(repo1, number1) == TaskIdFor(repo2, number2)
    ensures number1 == number2 && Middle(repo1, number1) == Middle(repo2, number2)
  {
    var m1, m2 := Middle(repo1, number1), Middle(repo2, number2);
    var n1, n2 := Numeral(number1), Numeral(number2);
    DropPrefix("board-", m1 + "-" + n1, m2 + "-" + n2);
    NumeralDigits(number1);
    NumeralDigits(number2);
    SplitAtLastDash(m1, n1, m2, n2);
    NumeralInjective(number1, number2);
  }

  /** The readable form is injective in the repository. */
  lemma OwnerNameInjective(repo1: string, repo2: string)
    requires IsCleanRepo(repo1) && IsCleanRepo(repo2) && OwnerName(repo1) == OwnerName(repo2)
    ensures repo1 == repo2
  {
    CleanRepoChars(repo1);
    CleanRepoChars(repo2);
    assert |repo1| == |OwnerName(repo1)| == |repo2|;
    forall i | 0 <= i < |repo1|
      ensures repo1[i] == repo2[i]
    {
      assert OwnerName(repo1)[i] == OwnerName(repo2)[i];
    }
  }

  /**
  Two items with one id are the same issue number of the same repository, or
  two digest-form ids whose truncated slugs and FNV-1a digests both agree.
  The readable form never meets the digest form.
   */
  lemma EqualIdsIdentifyWork(repo1: string, number1: u64, repo2: string, number2: u64)
    requires TaskIdFor(repo1, number1) == TaskIdFor(repo2, number2)
    ensures number1 == number2
    ensures IsReadable(repo1, number1) <==> IsReadable(repo2, number2)
    ensures IsReadable(repo1, number1) ==> repo1 == repo2
    ensures !IsReadable(repo1, number1) ==>
              && TruncatedSlug(repo1, number1) == TruncatedSlug(repo2, number2)
              && Digest(repo1) == Digest(repo2)
  {
    IdDecomposes(repo1, number1, repo2, number2);
    MiddleChars(repo1, number1);
    MiddleChars(repo2, number2);
    if IsReadable(repo1, number1) {
      OwnerNameInjective(repo1, repo2);
    } else {
      PaddedShape(Digest(repo1), 8);
      PaddedShape(Digest(repo2), 8);
      SplitAtLastDash(TruncatedSlug(repo1, number1), Padded(Digest(repo1), 8),
                      TruncatedSlug(repo2, number2), Padded(Digest(repo2), 8));
      DigestBelowPow16(repo1);
      DigestBelowPow16(repo2);
      PaddedInjective(Digest(repo1), Digest(repo2), 8);
    }
  }
}
