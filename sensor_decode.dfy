/** The fixed binary layouts of the Wave's characteristics, as Wave.read unpacks them (little-endian host). */
module SensorDecode {
  import opened Python

  /** One decoded reading. Humidity and temperature keep the source's division by 100 as hundredths. */
  datatype Reading =
    | Timestamp(year: nat, month: byte, day: byte, hour: byte, minute: byte, second: byte)
    | Humidity(centiPercent: nat)     // %rH times 100
    | Temperature(centiDegrees: int)  // degrees Celsius times 100
    | RadonShortTerm(becquerel: nat)  // Bq/m3
    | RadonLongTerm(becquerel: nat)   // Bq/m3

  /** Two bytes read as an unsigned little-endian integer. */
  function Word(lo: byte, hi: byte): (w: nat)
    ensures w < 0x1_0000
  {
    lo as int + 0x100 * (hi as int)
  }

  /** struct.unpack('H', raw)[0]. */
  function UnpackU16(raw: seq<byte>): (r: Result<nat>)
    ensures r.Ok? <==> |raw| == 2
    ensures r.Err? ==> r.fault == StructError
    ensures r.Ok? ==> r.value < 0x1_0000
  {
    if |raw| != 2 then Err(StructError) else Ok(Word(raw[0], raw[1]))
  }

  /** struct.unpack('h', raw)[0]: the same two bytes read in two's complement. */
  function UnpackS16(raw: seq<byte>): (r: Result<int>)
    ensures r.Ok? <==> |raw| == 2
    ensures r.Err? ==> r.fault == StructError
    ensures r.Ok? ==> -0x8000 <= r.value < 0x8000
    ensures r.Ok? ==> (r.value < 0 <==> raw[1] >= 0x80)
  {
    if |raw| != 2 then Err(StructError)
    else
      var w := Word(raw[0], raw[1]);
      Ok(if w >= 0x8000 then w - 0x1_0000 else w)
  }

  /** struct.unpack('HBBBBB', raw): a two-byte year, then month, day, hour, minute and second. */
  function UnpackDateTime(raw: seq<byte>): (r: Result<Reading>)
    ensures r.Ok? <==> |raw| == 7
    ensures r.Err? ==> r.fault == StructError
    ensures r.Ok? ==> r.value.Timestamp? && r.value.year < 0x1_0000
  {
    if |raw| != 7 then Err(StructError)
    else Ok(Timestamp(Word(raw[0], raw[1]), raw[2], raw[3], raw[4], raw[5], raw[6]))
  }

  function DecodeHumidity(raw: seq<byte>): Result<Reading> {
    match UnpackU16(raw)
    case Ok(v) => Ok(Humidity(v))
    case Err(f) => Err(f)
  }

  function DecodeTemperature(raw: seq<byte>): Result<Reading> {
    match UnpackS16(raw)
    case Ok(v) => Ok(Temperature(v))
    case Err(f) => Err(f)
  }

  function DecodeRadonShortTerm(raw: seq<byte>): Result<Reading> {
    match UnpackU16(raw)
    case Ok(v) => Ok(RadonShortTerm(v))
    case Err(f) => Err(f)
  }

  function DecodeRadonLongTerm(raw: seq<byte>): Result<Reading> {
    match UnpackU16(raw)
    case Ok(v) => Ok(RadonLongTerm(v))
    case Err(f) => Err(f)
  }

  /** The unpacking Wave.read applies to the characteristic of sensor index idx. */
  function Decode(idx: nat, raw: seq<byte>): (r: Result<Reading>)
    requires idx < 5
    ensures r.Err? ==> r.fault == StructError
  {
    if idx == 0 then UnpackDateTime(raw)
    else if idx == 1 then DecodeHumidity(raw)
    else if idx == 2 then DecodeTemperature(raw)
    else if idx == 3 then DecodeRadonShortTerm(raw)
    else DecodeRadonLongTerm(raw)
  }

  // Encoders: what a device sends for a given value. They are the partners the decoders are checked against.

  function PackU16(v: nat): (raw: seq<byte>)
    requires v < 0x1_0000
    ensures |raw| == 2
  {
    [v % 0x100, v / 0x100]
  }

  function PackS16(v: int): (raw: seq<byte>)
    requires -0x8000 <= v < 0x8000
    ensures |raw| == 2
  {
    PackU16(if v < 0 then v + 0x1_0000 else v)
  }

  function PackDateTime(t: Reading): (raw: seq<byte>)
    requires t.Timestamp? && t.year < 0x1_0000
    ensures |raw| == 7
  {
    PackU16(t.year) + [t.month, t.day, t.hour, t.minute, t.second]
  }

  lemma U16RoundTrip(v: nat)
    requires v < 0x1_0000
    ensures UnpackU16(PackU16(v)) == Ok(v)
  {
  }

  /** Unpacking loses nothing: the two bytes are recovered from the value. */
  lemma U16Injective(raw: seq<byte>)
    requires UnpackU16(raw).Ok?
    ensures PackU16(UnpackU16(raw).value) == raw
  {
  }

  lemma S16RoundTrip(v: int)
    requires -0x8000 <= v < 0x8000
    ensures UnpackS16(PackS16(v)) == Ok(v)
  {
  }

  lemma S16Injective(raw: seq<byte>)
    requires UnpackS16(raw).Ok?
    ensures PackS16(UnpackS16(raw).value) == raw
  {
  }

  lemma DateTimeRoundTrip(t: Reading)
    requires t.Timestamp? && t.year < 0x1_0000
    ensures UnpackDateTime(PackDateTime(t)) == Ok(t)
  {
  }

  lemma DateTimeInjective(raw: seq<byte>)
    requires UnpackDateTime(raw).Ok?
    ensures PackDateTime(UnpackDateTime(raw).value) == raw
  {
    assert raw == raw[..2] + raw[2..];
  }

  /** Every reading of the humidity characteristic is a value in [0, 655.35] %rH, and every such value can be read. */
  lemma HumidityDecoding(raw: seq<byte>, h: nat)
    ensures DecodeHumidity(raw) == Ok(Humidity(h)) <==> h < 0x1_0000 && raw == PackU16(h)
  {
    if DecodeHumidity(raw) == Ok(Humidity(h)) {
      U16Injective(raw);
    }
  }

  /** Temperature is the signed reading: every value in [-327.68, 327.67] degrees, and only it, comes from its two bytes. */
  lemma TemperatureDecoding(raw: seq<byte>, c: int)
    ensures DecodeTemperature(raw) == Ok(Temperature(c)) <==> -0x8000 <= c < 0x8000 && raw == PackS16(c)
  {
    if DecodeTemperature(raw) == Ok(Temperature(c)) {
      S16Injective(raw);
    }
  }

  lemma RadonDecoding(raw: seq<byte>, bq: nat)
    ensures DecodeRadonShortTerm(raw) == Ok(RadonShortTerm(bq)) <==> bq < 0x1_0000 && raw == PackU16(bq)
    ensures DecodeRadonLongTerm(raw) == Ok(RadonLongTerm(bq)) <==> bq < 0x1_0000 && raw == PackU16(bq)
  {
    if DecodeRadonShortTerm(raw) == Ok(RadonShortTerm(bq)) || DecodeRadonLongTerm(raw) == Ok(RadonLongTerm(bq)) {
      U16Injective(raw);
    }
  }

  /** Worked values: 4500 is 45.00 %rH, the bytes 0x6a 0xff are -1.50 degrees, 120 is 120 Bq/m3. */
  lemma WorkedValues()
    ensures DecodeHumidity([0x94, 0x11]) == Ok(Humidity(4500))
    ensures DecodeTemperature([0x6a, 0xff]) == Ok(Temperature(-150))
    ensures DecodeRadonShortTerm([0x78, 0x00]) == Ok(RadonShortTerm(120))
  {
  }
}
