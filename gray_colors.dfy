/**
 * The gray palette of the city scene (chapter-2/city_scene/gray_scale_colors.js):
 * a table of nineteen `#RRGGBB` grays, and `generateRandomColorHex`, which
 * truncates a random number in [0, 1) times 0xFF to a gray level, replicates
 * that byte into the three channels and writes the result in hexadecimal.
 */
module GrayColors {
  import opened JsMath

  /** The exported colour table, in source order. */
  const GRAY_COLORS: seq<string> := [
    "#202020", "#282828", "#303030", "#383838", "#404040", "#484848", "#505050",
    "#585858", "#606060", "#686868", "#707070", "#787878", "#888888", "#909090",
    "#989898", "#A0A0A0", "#A8A8A8", "#B0B0B0", "#B8B8B8"]

  // ---------------------------------------------------------------------------
  // Hexadecimal digits

  predicate IsUpperHex(c: char)
  {
    '0' <= c <= '9' || 'A' <= c <= 'F'
  }

  predicate IsLowerHex(c: char)
  {
    '0' <= c <= '9' || 'a' <= c <= 'f'
  }

  /** The value of a hexadecimal digit of either case; 0 for anything else. */
  function DigitValue(c: char): (d: nat)
    ensures d < 16
  {
    if '0' <= c <= '9' then c as int - '0' as int
    else if 'a' <= c <= 'f' then c as int - 'a' as int + 10
    else if 'A' <= c <= 'F' then c as int - 'A' as int + 10
    else 0
  }

  /** The lowercase digit Number.prototype.toString(16) writes for d. */
  function LowerDigit(d: nat): (c: char)
    requires d < 16
    ensures IsLowerHex(c) && DigitValue(c) == d
  {
    if d < 10 then ('0' as int + d) as char else ('a' as int + d - 10) as char
  }

  /** The value of a string of hexadecimal digits, most significant first. */
  function HexValue(s: string): nat
    decreases |s|
  {
    if s == [] then 0 else HexValue(s[..|s| - 1]) * 16 + DigitValue(s[|s| - 1])
  }

  function Pow16(k: nat): (p: nat)
    ensures p >= 1
  {
    if k == 0 then 1 else 16 * Pow16(k - 1)
  }

  /** n.toString(16): lowercase, no leading zeros, "0" for zero. */
  function ToHex(n: nat): (s: string)
    ensures |s| >= 1 && forall i :: 0 <= i < |s| ==> IsLowerHex(s[i])
    ensures n > 0 ==> s[0] != '0'
    ensures n == 0 ==> s == "0"
  {
    if n < 16 then [LowerDigit(n)] else ToHex(n / 16) + [LowerDigit(n % 16)]
  }

  /** Reading back what toString(16) wrote gives the number. */
  lemma {:induction false} HexRoundTrip(n: nat)
    ensures HexValue(ToHex(n)) == n
  {
    if n >= 16 {
      HexRoundTrip(n / 16);
      var s := ToHex(n);
      assert s[..|s| - 1] == ToHex(n / 16);
    }
  }

  /** toString(16) writes exactly k digits for the numbers in [16^(k-1), 16^k). */
  lemma {:induction false} HexLength(n: nat, k: nat)
    requires 1 <= k && (k == 1 || Pow16(k - 1) <= n) && n < Pow16(k)
    ensures |ToHex(n)| == k
  {
    if k > 1 {
      assert Pow16(k - 1) == 16 * Pow16(k - 2);
      if k > 2 {
        assert Pow16(k - 2) == 16 * Pow16(k - 3);
      }
      assert n / 16 < Pow16(k - 1);
      assert k - 1 == 1 || Pow16(k - 2) <= n / 16;
      HexLength(n / 16, k - 1);
    }
  }

  /** Leading zeros do not change the value. */
  lemma {:induction false} LeadingZeros(z: string, s: string)
    requires forall i :: 0 <= i < |z| ==> z[i] == '0'
    ensures HexValue(z + s) == HexValue(s)
    decreases |s|
  {
    if s == [] {
      assert z + s == z;
      AllZeros(z);
    } else {
      assert (z + s)[..|z + s| - 1] == z + s[..|s| - 1];
      LeadingZeros(z, s[..|s| - 1]);
    }
  }

  lemma {:induction false} AllZeros(z: string)
    requires forall i :: 0 <= i < |z| ==> z[i] == '0'
    ensures HexValue(z) == 0
    decreases |z|
  {
    if z != [] {
      AllZeros(z[..|z| - 1]);
    }
  }

  // ---------------------------------------------------------------------------
  // The table

  /** '#' and six uppercase hex digits whose three bytes are the same. */
  predicate IsGrayEntry(e: string)
  {
    |e| == 7 && e[0] == '#' && (forall i :: 1 <= i < 7 ==> IsUpperHex(e[i]))
    && e[1..3] == e[3..5] == e[5..7]
  }

  /** The gray level of a table entry: the value of its first byte. */
  function GrayLevel(e: string): nat
    requires |e| == 7
  {
    HexValue(e[1..3])
  }

  lemma TwoDigits(e: string)
    requires |e| == 7
    ensures GrayLevel(e) == 16 * DigitValue(e[1]) + DigitValue(e[2])
  {
    var p := e[1..3];
    assert HexValue(p) == HexValue(p[..1]) * 16 + DigitValue(p[1]);
    assert HexValue(p[..1]) == HexValue(p[..1][..0]) * 16 + DigitValue(p[..1][0]);
    assert p[..1][..0] == [];
  }

  /** Every entry of the table is a gray written with six uppercase digits. */
  lemma TableEntries()
    ensures |GRAY_COLORS| == 19
    ensures forall k :: 0 <= k < |GRAY_COLORS| ==> IsGrayEntry(GRAY_COLORS[k])
  {
    forall k | 0 <= k < |GRAY_COLORS|
      ensures IsGrayEntry(GRAY_COLORS[k])
    {
      var e := GRAY_COLORS[k];
      assert e[1..3] == e[3..5] == e[5..7];
    }
  }

  /** The entries up to index 11 run from 0x20 to 0x78 in steps of 8. */
  lemma LowerLevels(k: nat)
    requires k < 12
    ensures GrayLevel(GRAY_COLORS[k]) == 0x20 + 8 * k
  {
    TwoDigits(GRAY_COLORS[k]);
  }

  /** From index 12 the entries run from 0x88 to 0xB8: the step past 0x78 is 16. */
  lemma UpperLevels(k: nat)
    requires 12 <= k < 19
    ensures GrayLevel(GRAY_COLORS[k]) == 0x28 + 8 * k
  {
    var e := GRAY_COLORS[k];
    TwoDigits(e);
    if k == 12 { assert e == "#888888"; }
    else if k == 13 { assert e == "#909090"; }
    else if k == 14 { assert e == "#989898"; }
    else if k == 15 { assert e == "#A0A0A0"; }
    else if k == 16 { assert e == "#A8A8A8"; }
    else if k == 17 { assert e == "#B0B0B0"; }
    else { assert e == "#B8B8B8"; }
  }

  /** Entry k has level 0x20 + 8k below index 12 and one step more from there on: 0x80 is skipped. */
  lemma TableLevels()
    ensures forall k :: 0 <= k < |GRAY_COLORS| ==> |GRAY_COLORS[k]| == 7
    ensures forall k :: 0 <= k < |GRAY_COLORS| ==>
              GrayLevel(GRAY_COLORS[k]) == 0x20 + 8 * k + (if k >= 12 then 8 else 0)
  {
    forall k | 0 <= k < |GRAY_COLORS|
      ensures GrayLevel(GRAY_COLORS[k]) == 0x20 + 8 * k + (if k >= 12 then 8 else 0)
    {
      if k < 12 {
        LowerLevels(k);
      } else {
        UpperLevels(k);
      }
    }
  }

  /** The gray levels increase strictly along the table and 0x80 is not among them. */
  lemma TableIncreasing()
    ensures forall k :: 0 <= k < |GRAY_COLORS| ==> |GRAY_COLORS[k]| == 7
    ensures forall i, j :: 0 <= i < j < |GRAY_COLORS| ==> GrayLevel(GRAY_COLORS[i]) < GrayLevel(GRAY_COLORS[j])
    ensures forall k :: 0 <= k < |GRAY_COLORS| ==> GrayLevel(GRAY_COLORS[k]) != 0x80
  {
    TableLevels();
  }

  // ---------------------------------------------------------------------------
  // generateRandomColorHex

  /** Math.random() * 0xFF | 0 */
  function GrayValue(r: real): (v: int)
    requires 0.0 <= r < 1.0
    ensures 0 <= v <= 254
    ensures v as real <= r * 255.0 < v as real + 1.0
  {
    ToInt32(r * 255.0)
  }

  /** (value << 16) | (value << 8) | value, for a byte value. */
  function Grayscale(v: bv8): (g: nat)
    ensures g == v as int * 0x01_0101 && g < 0x100_0000
  {
    (((v as bv32) << 16) | ((v as bv32) << 8) | (v as bv32)) as int
  }

  /** Red, green and blue of the replicated gray are all the level itself. */
  lemma GrayscaleBytes(v: bv8)
    ensures var g := Grayscale(v);
            g / 0x1_0000 == v as int && (g / 0x100) % 0x100 == v as int && g % 0x100 == v as int
  {
    ReplicatedBytes(v as int, Grayscale(v));
  }

  lemma ReplicatedBytes(v: int, g: int)
    requires 0 <= v < 0x100 && g == v * 0x01_0101
    ensures g / 0x1_0000 == v && (g / 0x100) % 0x100 == v && g % 0x100 == v
  {
    assert g == v * 0x1_0000 + v * 0x101 && v * 0x101 < 0x1_0000;
    assert g == v * 0x101 * 0x100 + v;
    assert v * 0x101 == v * 0x100 + v;
  }

  /** A level in [0, 255] as the byte of the same value, counted up from zero. */
  function ByteOf(v: int): (b: bv8)
    requires 0 <= v < 0x100
    ensures b as int == v
  {
    if v == 0 then 0 else ByteOf(v - 1) + 1
  }

  /** The gray level replicated into three bytes is level * 0x010101. */
  lemma GrayOfLevel(r: real)
    requires 0.0 <= r < 1.0
    ensures Grayscale(ByteOf(GrayValue(r))) == GrayValue(r) * 0x01_0101
  {
  }

  lemma Pow16Values()
    ensures Pow16(4) == 0x1_0000 && Pow16(5) == 0x10_0000 && Pow16(6) == 0x100_0000
  {
  }

  /** A level replicated into three bytes has one hex digit for level 0, five for levels 1 to 15 and six from 16 on. */
  lemma ReplicatedLength(v: int, g: nat)
    requires 0 <= v < 256 && g == v * 0x01_0101
    ensures v == 0 ==> ToHex(g) == "0"
    ensures 1 <= v < 16 ==> |ToHex(g)| == 5
    ensures 16 <= v ==> |ToHex(g)| == 6
  {
    Pow16Values();
    if 16 <= v {
      assert g >= 16 * 0x01_0101;
      HexLength(g, 6);
    } else if 1 <= v {
      assert 0x01_0101 <= g <= 15 * 0x01_0101;
      HexLength(g, 5);
    }
  }

  /** '#' + grayscale.toString(16), for the random number r the function draws. */
  function GenerateRandomColorHex(r: real): (color: string)
    requires 0.0 <= r < 1.0
    ensures |color| >= 2 && color[0] == '#'
    ensures forall i :: 1 <= i < |color| ==> IsLowerHex(color[i])
  {
    "#" + ToHex(Grayscale(ByteOf(GrayValue(r))))
  }

  /** The colour reads back as the gray level replicated into red, green and blue. */
  lemma ColorReadsBack(r: real)
    requires 0.0 <= r < 1.0
    ensures HexValue(GenerateRandomColorHex(r)[1..]) == GrayValue(r) * 0x01_0101
  {
    var g := Grayscale(ByteOf(GrayValue(r)));
    GrayOfLevel(r);
    HexRoundTrip(g);
    assert GenerateRandomColorHex(r)[1..] == ToHex(g);
  }

  /**
   * The colour has six digits exactly when the level is at least 16; level 0
   * gives "#0" and levels 1 to 15 give five digits.
   */
  lemma ColorLength(r: real)
    requires 0.0 <= r < 1.0
    ensures |GenerateRandomColorHex(r)| == 7 <==> GrayValue(r) >= 16
    ensures GrayValue(r) == 0 ==> GenerateRandomColorHex(r) == "#0"
    ensures 1 <= GrayValue(r) <= 15 ==> |GenerateRandomColorHex(r)| == 6
  {
    var g := Grayscale(ByteOf(GrayValue(r)));
    ReplicatedLength(GrayValue(r), g);
    var hex := ToHex(g);
    assert GenerateRandomColorHex(r) == "#" + hex && |"#" + hex| == |hex| + 1;
  }

  /** A random number below 16/255 draws a colour with fewer than six digits. */
  lemma ShortColorForDarkGrays()
    ensures GenerateRandomColorHex(0.0) == "#0"
    ensures |GenerateRandomColorHex(0.05)| == 6
  {
    ColorLength(0.0);
    ColorLength(0.05);
  }

  /** ("00000" + hex).slice(-6): the last six characters after padding with zeros (all of them if fewer). */
  function PadSix(hex: string): (s: string)
    ensures |hex| >= 1 ==> |s| == 6
  {
    var padded := "00000" + hex;
    if |padded| >= 6 then padded[|padded| - 6..] else padded
  }

  /** Up to six digits, padding puts 6 - |hex| zeros in front. */
  lemma PadSixSplit(hex: string)
    requires 1 <= |hex| <= 6
    ensures PadSix(hex) == "00000"[|hex| - 1..] + hex
  {
    var padded := "00000" + hex;
    assert padded[|padded| - 6..] == "00000"[|hex| - 1..] + hex;
  }

  /** Padding a number of at most six digits keeps its digits and its value. */
  lemma PadSixValue(hex: string)
    requires 1 <= |hex| <= 6 && forall i :: 0 <= i < |hex| ==> IsLowerHex(hex[i])
    ensures forall i :: 0 <= i < 6 ==> IsLowerHex(PadSix(hex)[i])
    ensures HexValue(PadSix(hex)) == HexValue(hex)
  {
    PadSixSplit(hex);
    ZerosValue(hex, "00000"[|hex| - 1..]);
  }

  lemma ZerosValue(hex: string, zeros: string)
    requires forall i :: 0 <= i < |hex| ==> IsLowerHex(hex[i])
    requires forall i :: 0 <= i < |zeros| ==> zeros[i] == '0'
    ensures forall i :: 0 <= i < |zeros + hex| ==> IsLowerHex((zeros + hex)[i])
    ensures HexValue(zeros + hex) == HexValue(hex)
  {
    LeadingZeros(zeros, hex);
  }

  /** The colour with the six-digit padding of the commented-out variant on line 24. */
  function PaddedRandomColorHex(r: real): (color: string)
    requires 0.0 <= r < 1.0
  {
    "#" + PadSix(ToHex(Grayscale(ByteOf(GrayValue(r)))))
  }

  /** Any number below 2^24 pads to six lowercase digits worth the number. */
  lemma PaddedHex(g: nat)
    requires g < 0x100_0000
    ensures |PadSix(ToHex(g))| == 6
    ensures forall i :: 0 <= i < 6 ==> IsLowerHex(PadSix(ToHex(g))[i])
    ensures HexValue(PadSix(ToHex(g))) == g
  {
    HexRoundTrip(g);
    Pow16Values();
    if g > 0 {
      var k := |ToHex(g)|;
      if k > 6 {
        HexLowerBound(g);
        Pow16Monotone(6, k - 1);
      }
    }
    PadSixValue(ToHex(g));
  }

  /** A number written with k > 0 digits and no leading zero is at least 16^(k-1). */
  lemma {:induction false} HexLowerBound(n: nat)
    requires n > 0
    ensures Pow16(|ToHex(n)| - 1) <= n
  {
    if n >= 16 {
      HexLowerBound(n / 16);
    }
  }

  lemma {:induction false} Pow16Monotone(i: nat, j: nat)
    requires i <= j
    ensures Pow16(i) <= Pow16(j)
    decreases j - i
  {
    if i < j {
      Pow16Monotone(i + 1, j);
    }
  }

  /** The padded colour is always '#' and six lowercase digits worth the replicated gray level. */
  lemma PaddedColorIsSixDigits(r: real)
    requires 0.0 <= r < 1.0
    ensures |PaddedRandomColorHex(r)| == 7 && PaddedRandomColorHex(r)[0] == '#'
    ensures forall i :: 1 <= i < 7 ==> IsLowerHex(PaddedRandomColorHex(r)[i])
    ensures HexValue(PaddedRandomColorHex(r)[1..]) == GrayValue(r) * 0x01_0101
  {
    var g := Grayscale(ByteOf(GrayValue(r)));
    GrayOfLevel(r);
    PaddedHex(g);
    var p := PadSix(ToHex(g));
    var color := PaddedRandomColorHex(r);
    assert color == "#" + p;
    assert color[1..] == p;
    assert forall i :: 1 <= i < 7 ==> color[i] == p[i - 1];
  }
}
