/** The manufacturer-data serial matcher (parseSerialNumber), in both of its copies. */
module SerialMatch {
  import opened Python

  /** What bluepy's getValueText(255) hands over for one advertisement. */
  datatype ManuData =
    | Absent                 // no manufacturer data in the advertisement (Python None)
    | NoneText               // the four-character text "None"
    | Hex(bytes: seq<byte>)  // hexadecimal text, given here already decoded into its bytes

  /** What the matcher returns: the string "Unknown" or an integer serial. */
  datatype Serial = Unknown | Number(value: nat)

  /** The vendor magic expected in the first two bytes. */
  const VendorMagic: nat := 0x0334

  function Pow2(k: nat): (r: nat)
    ensures r >= 1
  {
    if k == 0 then 1 else 2 * Pow2(k - 1)
  }

  /** Python's `x << k` on a non-negative integer. */
  function ShiftLeft(x: nat, k: nat): nat {
    x * Pow2(k)
  }

  /** Python's `a | b` on non-negative integers, one bit at a time from the lowest. */
  function BitOr(a: nat, b: nat): nat
    decreases a + b
  {
    if a == 0 then b
    else if b == 0 then a
    else 2 * BitOr(a / 2, b / 2) + (if a % 2 == 1 || b % 2 == 1 then 1 else 0)
  }

  /** Or-ing in a value shifted above every bit of x is addition. */
  lemma {:induction false} BitOrDisjoint(x: nat, y: nat, k: nat)
    requires x < Pow2(k)
    ensures BitOr(x, ShiftLeft(y, k)) == x + ShiftLeft(y, k)
    decreases k
  {
    if x == 0 || y == 0 {
    } else {
      assert k > 0;
      var b := ShiftLeft(y, k);
      assert b == 2 * ShiftLeft(y, k - 1);
      assert b / 2 == ShiftLeft(y, k - 1) && b % 2 == 0;
      BitOrDisjoint(x / 2, y, k - 1);
    }
  }

  /** The magic test of the source: (b1 << 8) | b0. */
  function Magic(d: seq<byte>): nat
    requires |d| >= 2
  {
    BitOr(ShiftLeft(d[1], 8), d[0])
  }

  /** The serial of the source: b2, then |= b3 << 8, |= b4 << 16, |= b5 << 24. */
  function SerialBits(d: seq<byte>): nat
    requires |d| >= 6
  {
    BitOr(BitOr(BitOr(d[2], ShiftLeft(d[3], 8)), ShiftLeft(d[4], 16)), ShiftLeft(d[5], 24))
  }

  /** Bytes d[2..6] read as an unsigned little-endian integer. */
  function LittleEndian32(d: seq<byte>): nat
    requires |d| >= 6
  {
    d[2] as int + 0x100 * (d[3] as int) + 0x1_0000 * (d[4] as int) + 0x100_0000 * (d[5] as int)
  }

  /** True when the first two bytes are the vendor's, 0x34 then 0x03. */
  predicate HasVendorPrefix(d: seq<byte>)
    requires |d| >= 2
  {
    d[0] == 0x34 && d[1] == 0x03
  }

  lemma BitOrCommutes(a: nat, b: nat)
    ensures BitOr(a, b) == BitOr(b, a)
    decreases a + b
  {
    if a != 0 && b != 0 {
      BitOrCommutes(a / 2, b / 2);
    }
  }

  lemma Pow2Values()
    ensures Pow2(8) == 0x100 && Pow2(16) == 0x1_0000 && Pow2(24) == 0x100_0000
  {
    assert Pow2(8) == 0x100 by {
      assert Pow2(4) == 16;
    }
    assert Pow2(16) == 0x100 * Pow2(8) by {
      Pow2Add(8, 8);
    }
    assert Pow2(24) == 0x100 * Pow2(16) by {
      Pow2Add(8, 16);
    }
  }

  lemma {:induction false} Pow2Add(i: nat, j: nat)
    ensures Pow2(i + j) == Pow2(i) * Pow2(j)
    decreases j
  {
    if j > 0 {
      Pow2Add(i, j - 1);
    }
  }

  lemma MagicMeansPrefix(d: seq<byte>)
    requires |d| >= 2
    ensures Magic(d) == d[0] as int + 0x100 * (d[1] as int)
    ensures Magic(d) == VendorMagic <==> HasVendorPrefix(d)
  {
    Pow2Values();
    BitOrCommutes(ShiftLeft(d[1], 8), d[0]);
    BitOrDisjoint(d[0], d[1], 8);
  }

  lemma SerialBitsIsLittleEndian(d: seq<byte>)
    requires |d| >= 6
    ensures SerialBits(d) == LittleEndian32(d)
  {
    Pow2Values();
    BitOrDisjoint(d[2], d[3], 8);
    var lo: nat := d[2] as int + 0x100 * (d[3] as int);
    BitOrDisjoint(lo, d[4], 16);
    var mid: nat := lo + 0x1_0000 * (d[4] as int);
    BitOrDisjoint(mid, d[5], 24);
  }

  /** The matcher on decoded bytes, common to both copies (src/wave.py:50-56, read_wave.py:124-130). */
  function MatchBytes(d: seq<byte>): (r: Result<Serial>)
    ensures r == Err(IndexError) <==> |d| < 2 || (HasVendorPrefix(d) && |d| < 6)
    ensures r == Ok(Unknown) <==> |d| >= 2 && !HasVendorPrefix(d)
    ensures r.Ok? && r.value.Number? ==>
              |d| >= 6 && HasVendorPrefix(d) && r.value.value == LittleEndian32(d) < 0x1_0000_0000
    ensures |d| >= 6 && HasVendorPrefix(d) ==> r == Ok(Number(LittleEndian32(d)))
  {
    if |d| < 2 then Err(IndexError)
    else
      MagicMeansPrefix(d);
      if Magic(d) != VendorMagic then Ok(Unknown)
      else if |d| < 6 then Err(IndexError)
      else
        SerialBitsIsLittleEndian(d);
        Ok(Number(SerialBits(d)))
  }

  /** parseSerialNumber of src/wave.py: None means "Unknown"; otherwise the text is decoded as hex. */
  function ParseSerialNumber(m: ManuData): (r: Result<Serial>)
    ensures m.Absent? ==> r == Ok(Unknown)
    ensures m.NoneText? ==> r == Err(ValueError)
    ensures m.Hex? ==> r == MatchBytes(m.bytes)
  {
    match m
    case Absent => Ok(Unknown)
    case NoneText => Err(ValueError)  // bytearray.fromhex("None") rejects the non-hex 'N'
    case Hex(d) => MatchBytes(d)
  }

  /** parseSerialNumber of read_wave.py: only the text "None" means "Unknown"; a real None reaches fromhex. */
  function ParseSerialNumberScript(m: ManuData): (r: Result<Serial>)
    ensures m.Absent? ==> r == Err(TypeError)
    ensures m.NoneText? ==> r == Ok(Unknown)
    ensures m.Hex? ==> r == MatchBytes(m.bytes)
  {
    match m
    case Absent => Err(TypeError)  // bytearray.fromhex(None)
    case NoneText => Ok(Unknown)
    case Hex(d) => MatchBytes(d)
  }

  /** The six-byte manufacturer record a device with serial n advertises. */
  function VendorRecord(n: nat): (d: seq<byte>)
    requires n < 0x1_0000_0000
    ensures |d| == 6 && HasVendorPrefix(d)
  {
    var q1 := n / 0x100;
    var q2 := q1 / 0x100;
    var q3 := q2 / 0x100;
    [0x34, 0x03, n % 0x100, q1 % 0x100, q2 % 0x100, q3]
  }

  /** Every serial below 2^32 is recovered from its record, whatever bytes follow it. */
  lemma RecordRoundTrip(n: nat, tail: seq<byte>)
    requires n < 0x1_0000_0000
    ensures MatchBytes(VendorRecord(n) + tail) == Ok(Number(n))
  {
    var d := VendorRecord(n) + tail;
    assert d[..6] == VendorRecord(n);
    var q1 := n / 0x100;
    var q2 := q1 / 0x100;
    var q3 := q2 / 0x100;
    assert q3 < 0x100;
    assert LittleEndian32(d) == n % 0x100 + 0x100 * (q1 % 0x100 + 0x100 * (q2 % 0x100 + 0x100 * q3));
  }

  lemma DigitSplit(x: nat, lo: byte, hi: nat)
    requires x == lo + 0x100 * hi
    ensures x % 0x100 == lo && x / 0x100 == hi
  {
  }

  /** Bytes 2..5 read as a little-endian serial are the serial bytes of that serial's record. */
  lemma LittleEndianRecord(d: seq<byte>, n: nat)
    requires |d| >= 6 && HasVendorPrefix(d) && n == LittleEndian32(d)
    ensures n < 0x1_0000_0000 && d[..6] == VendorRecord(n)
  {
    var e := VendorRecord(n);
    var hi: nat := d[4] as int + 0x100 * (d[5] as int);
    var mid: nat := d[3] as int + 0x100 * hi;
    assert n == d[2] as int + 0x100 * mid;
    DigitSplit(n, d[2], mid);
    DigitSplit(mid, d[3], hi);
    DigitSplit(hi, d[4], d[5]);
    assert e[2] == d[2];
    assert e[3] == d[3];
    assert e[4] == d[4];
    assert e[5] == d[5];
  }

  /** A matched serial determines the record it came from, and bytes past index 5 are ignored. */
  lemma RecordDeterminesSerial(d: seq<byte>, n: nat)
    requires MatchBytes(d) == Ok(Number(n))
    ensures n < 0x1_0000_0000 && d[..6] == VendorRecord(n)
    ensures forall tail: seq<byte> :: MatchBytes(d[..6] + tail) == Ok(Number(n))
  {
    LittleEndianRecord(d, n);
    forall tail: seq<byte> ensures MatchBytes(d[..6] + tail) == Ok(Number(n)) {
      RecordRoundTrip(n, tail);
    }
  }

  /** The two copies disagree only on what stands for "no manufacturer data". */
  lemma CopiesAgreeOnBytes(m: ManuData)
    ensures ParseSerialNumber(m) == ParseSerialNumberScript(m) <==> m.Hex?
  {
  }
}
