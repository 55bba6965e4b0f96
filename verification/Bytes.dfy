/** Bytes, little-endian numbers, the packed form of an unsigned number, and well-formed UTF-8. */
module Bytes {
  import opened Wrappers

  type byte = b: int | 0 <= b < 256

  function Pow256(k: nat): (p: nat)
    ensures p > 0
  {
    if k == 0 then 1 else 256 * Pow256(k - 1)
  }

  const U64_LIMIT: nat := 0x1_0000_0000_0000_0000

  // ---------- Little-endian numbers ----------

  function ToLe(n: nat, k: nat): (s: seq<byte>)
    ensures |s| == k
  {
    if k == 0 then [] else [n % 256] + ToLe(n / 256, k - 1)
  }

  function FromLe(s: seq<byte>): (n: nat)
    ensures n < Pow256(|s|)
  {
    if s == [] then 0 else s[0] + 256 * FromLe(s[1..])
  }

  lemma {:induction false} LeRoundTrip(n: nat, k: nat)
    requires n < Pow256(k)
    ensures FromLe(ToLe(n, k)) == n
  {
    if k > 0 {
      LeRoundTrip(n / 256, k - 1);
      assert ToLe(n, k)[1..] == ToLe(n / 256, k - 1);
    }
  }

  /** Zero bytes at the end do not change a number. */
  lemma {:induction false} ZeroExtended(s: seq<byte>, k: nat)
    ensures FromLe(s + seq(k, _ => 0)) == FromLe(s)
    decreases |s|
  {
    var zeros: seq<byte> := seq(k, _ => 0);
    if s == [] {
      AllZero(zeros);
      assert s + zeros == zeros;
    } else {
      ZeroExtended(s[1..], k);
      assert (s + zeros)[1..] == s[1..] + zeros;
    }
  }

  lemma {:induction false} AllZero(s: seq<byte>)
    requires forall i :: 0 <= i < |s| ==> s[i] == 0
    ensures FromLe(s) == 0
  {
    if s != [] {
      AllZero(s[1..]);
    }
  }

  // ---------- Packed numbers ----------

  function BitLength(n: nat): nat {
    if n == 0 then 0 else 1 + BitLength(n / 2)
  }

  /** Leading zero bits of a 64-bit number. */
  function LeadingZeros(n: nat): (z: nat)
    requires n < U64_LIMIT
    ensures z == 64 - BitLength(n)
  {
    Pow2At64();
    BitLengthBound(n, 64);
    64 - BitLength(n)
  }

  function Pow2(k: nat): nat {
    if k == 0 then 1 else 2 * Pow2(k - 1)
  }

  lemma {:induction false} BitLengthBound(n: nat, k: nat)
    requires n < Pow2(k)
    ensures BitLength(n) <= k
    decreases k
  {
    if n > 0 {
      BitLengthBound(n / 2, k - 1);
    }
  }

  lemma {:induction false} Pow2At64()
    ensures Pow2(64) == U64_LIMIT
  {
    assert Pow2(8) == 0x100;
    assert Pow2(16) == 0x1_0000;
    assert Pow2(24) == 0x100_0000;
    assert Pow2(32) == 0x1_0000_0000;
    assert Pow2(40) == 0x100_0000_0000;
    assert Pow2(48) == 0x1_0000_0000_0000;
    assert Pow2(56) == 0x100_0000_0000_0000;
  }

  /** How many bytes the program writes of a number. */
  function PackedLength(n: nat): (k: nat)
    requires n < U64_LIMIT
    ensures k <= 8
  {
    8 - LeadingZeros(n) / 8
  }

  /** The fewest bytes that hold a number. */
  function BytesNeeded(n: nat): nat {
    if n == 0 then 0 else 1 + BytesNeeded(n / 256)
  }

  lemma {:induction false} BitsOfBytes(n: nat)
    requires n >= 256
    ensures BitLength(n) == 8 + BitLength(n / 256)
  {
    hide BitLength;
    var a := n / 4;
    var b := a / 4;
    var c := b / 4;
    Halved(n);
    Halved(a);
    Halved(b);
    Halved(c);
    assert c / 4 == n / 256;
  }

  lemma {:induction false} Halved(n: nat)
    requires n >= 4
    ensures BitLength(n) == 2 + BitLength(n / 4)
  {
    assert n / 2 / 2 == n / 4;
    assert BitLength(n / 2) == 1 + BitLength(n / 2 / 2);
  }

  lemma {:induction false} SmallBits(n: nat)
    requires 0 < n < 256
    ensures 1 <= BitLength(n) <= 8
  {
    assert Pow2(8) == 256;
    BitLengthBound(n, 8);
  }

  lemma {:induction false} BytesFromBits(n: nat)
    ensures BytesNeeded(n) == (BitLength(n) + 7) / 8
  {
    if n == 0 {
    } else if n < 256 {
      SmallBits(n);
      assert n / 256 == 0;
    } else {
      BitsOfBytes(n);
      BytesFromBits(n / 256);
    }
  }

  lemma {:induction false} NeededBound(n: nat, k: nat)
    ensures n < Pow256(k) <==> BytesNeeded(n) <= k
  {
    if k > 0 && n > 0 {
      NeededBound(n / 256, k - 1);
    }
  }

  /** The packed form uses the fewest bytes possible. */
  lemma {:induction false} PackedLengthIsLeast(n: nat, k: nat)
    requires n < U64_LIMIT
    ensures n < Pow256(PackedLength(n))
    ensures n < Pow256(k) ==> PackedLength(n) <= k
  {
    BytesFromBits(n);
    NeededBound(n, PackedLength(n));
    NeededBound(n, k);
  }

  lemma {:induction false} TimesGrows(d: nat, a: nat, b: nat)
    requires a <= b
    ensures d * a <= d * b
  {
  }

  lemma {:induction false} QuotientIs(n: nat, d: nat, q: nat)
    requires d > 0 && d * q <= n < d * q + d
    ensures n / d == q
  {
    var p := n / d;
    assert n == d * p + n % d;
    if p < q {
      TimesGrows(d, p + 1, q);
    } else if p > q {
      TimesGrows(d, q + 1, p);
    }
  }

  lemma {:induction false} DivideTwice(n: nat, d: nat)
    requires d > 0
    ensures n / 256 / d == n / (256 * d)
  {
    var low, high := n % 256, n / 256;
    var q, r := high / d, high % d;
    assert high == d * q + r;
    assert n == 256 * (d * q + r) + low;
    assert 256 * (d * q) == (256 * d) * q;
    QuotientIs(n, 256 * d, q);
  }

  /** Bytes are written from the lowest to the highest. */
  lemma {:induction false} ByteAt(n: nat, k: nat, i: nat)
    requires i < k
    ensures ToLe(n, k)[i] == n / Pow256(i) % 256
    decreases k
  {
    if i > 0 {
      ByteAt(n / 256, k - 1, i - 1);
      DivideTwice(n, Pow256(i - 1));
    }
  }

  /** A length byte and that many bytes. */
  function Pack(n: nat): seq<byte>
    requires n < U64_LIMIT
  {
    [PackedLength(n)] + ToLe(n, PackedLength(n))
  }

  datatype ReadError =
    | Eof | Utf8 | ShortText(expected: nat, read: nat)
    | TooLong(length: nat) | InvalidTag(tag: nat) | InvalidValue | UnsupportedVersion(found: nat)

  datatype Unpacked = Unpacked(n: nat, rest: seq<byte>)

  function Unpack(s: seq<byte>): (r: Result<Unpacked, ReadError>)
    ensures r.Ok? ==> r.value.n < U64_LIMIT && |r.value.rest| < |s|
  {
    if s == [] then Err(Eof)
    else if s[0] > 8 then Err(TooLong(s[0]))
    else if |s| < 1 + s[0] then Err(Eof)
    else
      SmallEnough(s[1..1 + s[0]]);
      Ok(Unpacked(FromLe(s[1..1 + s[0]]), s[1 + s[0]..]))
  }

  lemma {:induction false} SmallEnough(s: seq<byte>)
    requires |s| <= 8
    ensures FromLe(s) < U64_LIMIT
  {
    assert Pow256(8) == U64_LIMIT by {
      assert Pow256(2) == 0x1_0000;
      assert Pow256(4) == 0x1_0000_0000;
      assert Pow256(6) == 0x1_0000_0000_0000;
    }
    PowGrows(|s|, 8);
  }

  lemma {:induction false} PowGrows(a: nat, b: nat)
    requires a <= b
    ensures Pow256(a) <= Pow256(b)
    decreases b
  {
    if a < b {
      PowGrows(a, b - 1);
    }
  }

  /** The least number of bytes that holds the number, then those bytes from the lowest. */
  lemma {:induction false} PackedBytes(n: nat, k: nat, i: nat)
    requires n < U64_LIMIT && 1 <= i < |Pack(n)|
    ensures |Pack(n)| == 1 + Pack(n)[0] && Pack(n)[i] == n / Pow256(i - 1) % 256
    ensures n < Pow256(Pack(n)[0]) && (n < Pow256(k) ==> Pack(n)[0] <= k)
  {
    hide PackedLength;
    PackedLengthIsLeast(n, k);
    ByteAt(n, PackedLength(n), i - 1);
  }

  /** Reading what was packed gives the number back and leaves what follows. */
  lemma {:induction false} PackedRoundTrip(n: nat, suffix: seq<byte>)
    requires n < U64_LIMIT
    ensures Unpack(Pack(n) + suffix) == Ok(Unpacked(n, suffix))
  {
    var k := PackedLength(n);
    var s := Pack(n) + suffix;
    PackedLengthIsLeast(n, k);
    LeRoundTrip(n, k);
    assert s[1..1 + k] == ToLe(n, k);
    assert s[1 + k..] == suffix;
  }

  // ---------- UTF-8 ----------

  predicate Between(b: byte, lo: byte, hi: byte) {
    lo <= b <= hi
  }

  predicate Continues(s: seq<byte>, from: nat, to: nat) {
    to < |s| && forall i :: from <= i <= to ==> Between(s[i], 0x80, 0xBF)
  }

  /** How many bytes the first character takes, or 0 if it is malformed. */
  function CharLength(s: seq<byte>): (n: nat)
    requires s != []
    ensures n <= |s|
  {
    if s[0] < 0x80 then 1
    else if Between(s[0], 0xC2, 0xDF) && Continues(s, 1, 1) then 2
    else if s[0] == 0xE0 && Continues(s, 1, 2) && s[1] >= 0xA0 then 3
    else if (Between(s[0], 0xE1, 0xEC) || Between(s[0], 0xEE, 0xEF)) && Continues(s, 1, 2) then 3
    else if s[0] == 0xED && Continues(s, 1, 2) && s[1] <= 0x9F then 3
    else if s[0] == 0xF0 && Continues(s, 1, 3) && s[1] >= 0x90 then 4
    else if Between(s[0], 0xF1, 0xF3) && Continues(s, 1, 3) then 4
    else if s[0] == 0xF4 && Continues(s, 1, 3) && s[1] <= 0x8F then 4
    else 0
  }

  predicate ValidUtf8(s: seq<byte>) {
    s == [] || (CharLength(s) > 0 && ValidUtf8(s[CharLength(s)..]))
  }
}
