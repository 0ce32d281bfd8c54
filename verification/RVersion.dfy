/**
 * The release constants of base/inc/RVersion.h and the ROOT_VERSION macro,
 * which packs (major, minor, patch) into one integer so that versions can
 * be compared in a preprocessor `#if` with `>=`.
 */
module RVersion {
  import opened Bits

  const ROOT_RELEASE: string := "4.04/02f"
  const ROOT_RELEASE_DATE: string := "Jul 16 2005"
  const ROOT_RELEASE_TIME: string := "13:00:28"
  const ROOT_VERSION_CODE: nat := 263170

  /** `x << k` for a non-negative operand. */
  function ShiftLeft(x: nat, k: nat): nat
  {
    x * Pow2(k)
  }

  /** `x >> k` for a non-negative operand. */
  function ShiftRight(x: nat, k: nat): nat
  {
    var d := Pow2(k);
    DivisionIsNatural(x, d);
    x / d
  }

  /** The quotient of naturals is natural (the solver is slow to see it for a non-literal divisor). */
  lemma DivisionIsNatural(x: nat, d: nat)
    requires d > 0
    ensures x / d >= 0
  {
  }

  /** `x & (2^k - 1)`: the low k bits of a non-negative operand. */
  function LowBits(x: nat, k: nat): nat
  {
    x % Pow2(k)
  }

  /**
   * ROOT_VERSION(a,b,c): `((a) << 16) + ((b) << 8) + (c)`, which is the
   * weighted sum a * 65536 + b * 256 + c.
   */
  function RootVersion(a: nat, b: nat, c: nat): (r: nat)
    ensures r == a * 65536 + b * 256 + c
  {
    assert Pow2(8) == 256 && Pow2(16) == 65536;
    ShiftLeft(a, 16) + ShiftLeft(b, 8) + c
  }

  /** The major field `code >> 16`: the number of whole 65536 steps in the code. */
  function Major(code: nat): (r: nat)
    ensures r * 65536 <= code < (r + 1) * 65536
  {
    assert Pow2(8) == 256 && Pow2(16) == 65536;
    ShiftRight(code, 16)
  }

  /** The minor field `(code >> 8) & 0xff`: the second byte of the code. */
  function Minor(code: nat): (r: nat)
    ensures r < 256 && r == (code / 256) % 256
  {
    assert Pow2(8) == 256;
    LowBits(ShiftRight(code, 8), 8)
  }

  /** The patch field `code & 0xff`: the low byte of the code. */
  function Patch(code: nat): (r: nat)
    ensures r < 256 && (code - r) % 256 == 0
  {
    assert Pow2(8) == 256;
    LowBits(code, 8)
  }

  /** With minor and patch below 256, the three fields decode back. */
  lemma DecodeEncode(a: nat, b: nat, c: nat)
    requires b < 256 && c < 256
    ensures Major(RootVersion(a, b, c)) == a
    ensures Minor(RootVersion(a, b, c)) == b
    ensures Patch(RootVersion(a, b, c)) == c
  {
    var code := a * 65536 + b * 256 + c;
    assert Pow2(8) == 256 && Pow2(16) == 65536;
    assert code / 65536 == a;
    assert code / 256 == a * 256 + b;
    assert (a * 256 + b) % 256 == b;
    assert code % 256 == c;
  }

  /** Every non-negative code is the encoding of its own decoded fields. */
  lemma EncodeDecode(code: nat)
    ensures Minor(code) < 256 && Patch(code) < 256
    ensures RootVersion(Major(code), Minor(code), Patch(code)) == code
  {
    assert Pow2(8) == 256 && Pow2(16) == 65536;
    var a, b, c := code / 65536, (code / 256) % 256, code % 256;
    assert code / 256 == a * 256 + b;
  }

  /** With minor and patch below 256, distinct versions get distinct codes. */
  lemma RootVersionInjective(a: nat, b: nat, c: nat, a': nat, b': nat, c': nat)
    requires b < 256 && c < 256 && b' < 256 && c' < 256
    requires RootVersion(a, b, c) == RootVersion(a', b', c')
    ensures a == a' && b == b' && c == c'
  {
    DecodeEncode(a, b, c);
    DecodeEncode(a', b', c');
  }

  /** Lexicographic order on (major, minor, patch). */
  predicate VersionAtLeast(a: nat, b: nat, c: nat, a': nat, b': nat, c': nat)
  {
    a > a' || (a == a' && (b > b' || (b == b' && c >= c')))
  }

  /**
   * The documented use `#if ROOT_VERSION_CODE >= ROOT_VERSION(2,23,4)`:
   * comparing codes is comparing versions lexicographically.
   */
  lemma CompareCodes(a: nat, b: nat, c: nat, a': nat, b': nat, c': nat)
    requires b < 256 && c < 256 && b' < 256 && c' < 256
    ensures RootVersion(a, b, c) >= RootVersion(a', b', c') <==> VersionAtLeast(a, b, c, a', b', c')
  {
  }

  /** The code grows strictly with each field when the other two are fixed and in range. */
  lemma RootVersionStrictlyIncreasing(a: nat, b: nat, c: nat, d: nat)
    requires b < 256 && c < 256 && d > 0
    ensures RootVersion(a, b, c) < RootVersion(a + d, b, c)
    ensures b + d < 256 ==> RootVersion(a, b, c) < RootVersion(a, b + d, c)
    ensures c + d < 256 ==> RootVersion(a, b, c) < RootVersion(a, b, c + d)
  {
  }

  /** Value of a string of decimal digits. */
  function DecimalValue(s: string): nat
  {
    if s == [] then 0
    else
      var d := s[|s| - 1];
      10 * DecimalValue(s[..|s| - 1]) + (if '0' <= d <= '9' then (d as int - '0' as int) else 0)
  }

  /** The numeric fields written in ROOT_RELEASE: "4", "04" and "02". */
  lemma ReleaseFields()
    ensures ROOT_RELEASE[1] == '.' && ROOT_RELEASE[4] == '/'
    ensures DecimalValue(ROOT_RELEASE[..1]) == 4
    ensures DecimalValue(ROOT_RELEASE[2..4]) == 4
    ensures DecimalValue(ROOT_RELEASE[5..7]) == 2
  {
    assert ROOT_RELEASE[..1] == "4";
    assert ROOT_RELEASE[2..4] == "04";
    assert ROOT_RELEASE[5..7] == "02";
    assert DecimalValue("0") == 0;
  }

  /**
   * ROOT_VERSION_CODE is ROOT_VERSION(4,4,2), the major, minor and patch
   * numbers written in ROOT_RELEASE "4.04/02f" (the trailing letter is
   * not part of the code).
   */
  lemma VersionCodeMatchesRelease()
    ensures ROOT_VERSION_CODE == RootVersion(4, 4, 2)
    ensures Major(ROOT_VERSION_CODE) == DecimalValue(ROOT_RELEASE[..1])
    ensures Minor(ROOT_VERSION_CODE) == DecimalValue(ROOT_RELEASE[2..4])
    ensures Patch(ROOT_VERSION_CODE) == DecimalValue(ROOT_RELEASE[5..7])
  {
    DecodeEncode(4, 4, 2);
    ReleaseFields();
  }
}
