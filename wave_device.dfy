/**
 * The Wave device handle: the bounded scan that finds the advertising device with the
 * configured serial, the five characteristics it attaches, indexed reads and disconnect.
 * Scan results and characteristic bytes come from the BLE stack and are inputs here.
 */
module WaveDevice {
  import opened Python
  import opened SerialMatch
  import opened SensorDecode

  const SensorIdxDateTime: int := 0
  const SensorIdxHumidity: int := 1
  const SensorIdxTemperature: int := 2
  const SensorIdxRadonStAvg: int := 3
  const SensorIdxRadonLtAvg: int := 4

  /** The number of 0.1-second scans connect makes before giving up. */
  const MaxScans: nat := 50

  /** A BLE MAC address as bluepy prints it. */
  type Address = string

  datatype Uuid = Uuid16(short: nat) | Uuid128(text: string)

  const UuidDateTime := Uuid16(0x2A08)
  const UuidHumidity := Uuid16(0x2A6F)
  const UuidTemperature := Uuid16(0x2A6E)
  const UuidRadonStAvg := Uuid128("b42e01aa-ade7-11e4-89d3-123b93f75cba")
  const UuidRadonLtAvg := Uuid128("b42e0a4c-ade7-11e4-89d3-123b93f75cba")

  /** An open GATT connection, and a characteristic resolved on it. */
  datatype Peripheral = Peripheral(addr: Address)
  datatype Characteristic = Characteristic(addr: Address, uuid: Uuid)

  /** One device seen by a scan: its address and its manufacturer data. */
  datatype Advertisement = Advertisement(addr: Address, manu: ManuData)

  /** Which copy of the class: src/wave.py's, or the duplicate in read_wave.py, which calls its own parseSerialNumber. */
  datatype Copy = Library | Script

  function Parse(copy: Copy, m: ManuData): Result<Serial> {
    match copy
    case Library => ParseSerialNumber(m)
    case Script => ParseSerialNumberScript(m)
  }

  /** The devices the k-th scan reports; scans the input does not list report nothing. */
  function ScanAt(scans: seq<seq<Advertisement>>, k: nat): seq<Advertisement> {
    if k < |scans| then scans[k] else []
  }

  /** The test `SN == int(self.SN)` for one device. */
  function Check(copy: Copy, adv: Advertisement, serial: string): (r: Result<bool>)
    ensures r.Err? ==> r.fault in {IndexError, TypeError, ValueError}
  {
    match Parse(copy, adv.manu)
    case Err(f) => Err(f)
    case Ok(sn) =>
      match IntOf(serial)
      case Err(f) => Err(f)
      case Ok(target) => Ok(sn == Number(target))
  }

  /**
   * The test raises exactly when the manufacturer data or int(serial) fails; otherwise it holds
   * exactly when the advertised serial is the number int(serial), so "Unknown" never matches.
   */
  lemma CheckDecides(copy: Copy, adv: Advertisement, serial: string)
    ensures Check(copy, adv, serial).Err? <==> Parse(copy, adv.manu).Err? || IntOf(serial).Err?
    ensures Check(copy, adv, serial) == Ok(true) <==>
              IntOf(serial).Ok? && Parse(copy, adv.manu) == Ok(Number(IntOf(serial).value))
    ensures Check(copy, adv, serial) == Ok(false) <==>
              IntOf(serial).Ok? && Parse(copy, adv.manu).Ok? && Parse(copy, adv.manu) != Ok(Number(IntOf(serial).value))
  {
  }

  /** What connect asks of each device it is shown: a decision, or the exception that ends the search. */
  type DeviceTest = Advertisement -> Result<bool>

  /** connect's test on a handle of the given copy whose serial is the text serial. */
  function SerialTest(copy: Copy, serial: string): DeviceTest {
    adv => Check(copy, adv, serial)
  }

  /** The test raises nothing outside fs. */
  ghost predicate RaisesOnly(test: DeviceTest, fs: set<Fault>) {
    forall adv :: test(adv).Err? ==> test(adv).fault in fs
  }

  /** Some device of devs at address a passes the test. */
  predicate SomeMatchAt(devs: seq<Advertisement>, test: DeviceTest, a: Address) {
    exists i :: 0 <= i < |devs| && devs[i].addr == a && test(devs[i]) == Ok(true)
  }

  /** The test raises f on some device of devs. */
  predicate SomeRaises(devs: seq<Advertisement>, test: DeviceTest, f: Fault) {
    exists i :: 0 <= i < |devs| && test(devs[i]) == Err(f)
  }

  datatype RoundOutcome = Hit(addr: Address) | Miss | Raised(fault: Fault)

  /** The inner `for dev in devices` loop: the first device that matches, or the first exception. */
  function ScanRound(devs: seq<Advertisement>, test: DeviceTest): (r: RoundOutcome)
    ensures r.Hit? ==> SomeMatchAt(devs, test, r.addr)
    ensures r.Raised? ==> SomeRaises(devs, test, r.fault)
    decreases |devs|
  {
    if devs == [] then Miss
    else
      match test(devs[0])
      case Err(f) => Raised(f)
      case Ok(true) => Hit(devs[0].addr)
      case Ok(false) => ScanRound(devs[1..], test)
  }

  datatype SearchOutcome = Found(addr: Address, scansUsed: nat) | NotFound | Failed(fault: Fault)

  /** The outer `while` loop from scan number done on: stop at the first hit, an exception, or MaxScans scans. */
  function Search(scans: seq<seq<Advertisement>>, test: DeviceTest, done: nat): (r: SearchOutcome)
    requires done <= MaxScans
    ensures r.Found? ==> done < r.scansUsed <= MaxScans
    decreases MaxScans - done
  {
    if done == MaxScans then NotFound
    else
      match ScanRound(ScanAt(scans, done), test)
      case Hit(a) => Found(a, done + 1)
      case Raised(f) => Failed(f)
      case Miss => Search(scans, test, done + 1)
  }

  /** The search loop of connect, scan by scan and device by device, applying test to each device. */
  method SearchDevice(scans: seq<seq<Advertisement>>, test: DeviceTest) returns (r: SearchOutcome)
    ensures r == Search(scans, test, 0)
  {
    var deviceFound := false;
    var searchCount := 0;
    var macAddr := "";
    while !deviceFound && searchCount < MaxScans
      invariant 0 <= searchCount <= MaxScans
      invariant !deviceFound ==> Search(scans, test, 0) == Search(scans, test, searchCount)
      invariant deviceFound ==> Search(scans, test, 0) == Found(macAddr, searchCount)
    {
      var devices := ScanAt(scans, searchCount);
      ghost var round := ScanRound(devices, test);
      assert Search(scans, test, searchCount) ==
             match round
             case Hit(a) => Found(a, searchCount + 1)
             case Raised(f) => Failed(f)
             case Miss => Search(scans, test, searchCount + 1);
      searchCount := searchCount + 1;
      var i := 0;
      while i < |devices|
        invariant 0 <= i <= |devices|
        invariant round == ScanRound(devices[i..], test)
      {
        var c := test(devices[i]);
        ScanRoundStep(devices[i..], test);
        if c.Err? {
          assert round == Raised(c.fault);
          return Failed(c.fault);
        }
        if c.value {
          macAddr := devices[i].addr;
          deviceFound := true;
          assert round == Hit(macAddr);
          break;
        }
        assert devices[i..][1..] == devices[i + 1..];
        i := i + 1;
      }
      if !deviceFound {
        assert devices[i..] == [];
        assert round == Miss;
      }
    }
    if !deviceFound {
      r := NotFound;
    } else {
      r := Found(macAddr, searchCount);
    }
  }

  /** The device answers the search: the test holds for it. */
  predicate Matches(test: DeviceTest, adv: Advertisement) {
    test(adv) == Ok(true)
  }

  /** The device is looked at and passed over without an exception. */
  predicate Passes(test: DeviceTest, adv: Advertisement) {
    test(adv) == Ok(false)
  }

  predicate AllPass(devs: seq<Advertisement>, test: DeviceTest) {
    forall i :: 0 <= i < |devs| ==> Passes(test, devs[i])
  }

  /** One scan misses exactly when every device in it is passed over. */
  lemma {:induction false} ScanRoundMiss(devs: seq<Advertisement>, test: DeviceTest)
    ensures ScanRound(devs, test) == Miss <==> AllPass(devs, test)
    decreases |devs|
  {
    if devs != [] {
      ScanRoundMiss(devs[1..], test);
      if AllPass(devs, test) {
        assert Passes(test, devs[0]);
        assert AllPass(devs[1..], test) by {
          forall i | 0 <= i < |devs[1..]| ensures Passes(test, devs[1..][i]) {
            assert devs[1..][i] == devs[i + 1];
          }
        }
      }
      if ScanRound(devs, test) == Miss {
        forall i | 0 <= i < |devs| ensures Passes(test, devs[i]) {
          if i > 0 {
            assert devs[i] == devs[1..][i - 1];
          }
        }
      }
    }
  }

  /** One step of the inner loop: a match ends the scan, a pass moves on, an exception ends it. */
  lemma ScanRoundStep(devs: seq<Advertisement>, test: DeviceTest)
    requires devs != []
    ensures Matches(test, devs[0]) ==> ScanRound(devs, test) == Hit(devs[0].addr)
    ensures Passes(test, devs[0]) ==> ScanRound(devs, test) == ScanRound(devs[1..], test)
    ensures test(devs[0]).Err? ==> ScanRound(devs, test) == Raised(test(devs[0]).fault)
  {
  }

  /** A scan raises only what the test raises. */
  lemma {:induction false} ScanRoundRaisesOnly(devs: seq<Advertisement>, test: DeviceTest, fs: set<Fault>)
    requires RaisesOnly(test, fs)
    ensures ScanRound(devs, test).Raised? ==> ScanRound(devs, test).fault in fs
    decreases |devs|
  {
    if devs != [] && test(devs[0]) == Ok(false) {
      ScanRoundRaisesOnly(devs[1..], test, fs);
    }
  }

  /** Device j of a scan is the one connect picks: it matches, and every device before it is passed over. */
  predicate FirstMatchAt(devs: seq<Advertisement>, j: int, test: DeviceTest, a: Address) {
    0 <= j < |devs| && devs[j].addr == a && Matches(test, devs[j]) &&
    forall i :: 0 <= i < j ==> Passes(test, devs[i])
  }

  /** A passing first device, then k passing devices after it, are k + 1 passing devices. */
  lemma PassesUnshift(devs: seq<Advertisement>, k: nat, test: DeviceTest)
    requires k < |devs| && Passes(test, devs[0])
    requires forall i :: 0 <= i < k ==> Passes(test, devs[1..][i])
    ensures forall i :: 0 <= i < k + 1 ==> Passes(test, devs[i])
  {
    forall i | 0 < i < k + 1 ensures Passes(test, devs[i]) {
      assert devs[i] == devs[1..][i - 1];
    }
  }

  lemma {:induction false} ScanRoundHitHasFirstMatch(devs: seq<Advertisement>, test: DeviceTest, a: Address) returns (j: nat)
    requires ScanRound(devs, test) == Hit(a)
    ensures FirstMatchAt(devs, j, test, a)
    decreases |devs|
  {
    ScanRoundStep(devs, test);
    if Matches(test, devs[0]) {
      j := 0;
    } else {
      assert Passes(test, devs[0]);
      var k := ScanRoundHitHasFirstMatch(devs[1..], test, a);
      j := k + 1;
      PassesUnshift(devs, k, test);
      assert devs[j] == devs[1..][k];
    }
  }

  /** Dropping the first device of a scan shifts "every device before j passes" to "every device before j - 1". */
  lemma PassesShift(devs: seq<Advertisement>, j: nat, test: DeviceTest)
    requires 0 < j <= |devs|
    requires forall i :: 0 <= i < j ==> Passes(test, devs[i])
    ensures forall i :: 0 <= i < j - 1 ==> Passes(test, devs[1..][i])
  {
    forall i | 0 <= i < j - 1 ensures Passes(test, devs[1..][i]) {
      assert devs[1..][i] == devs[i + 1];
    }
  }

  lemma {:induction false} FirstMatchIsHit(devs: seq<Advertisement>, j: nat, test: DeviceTest, a: Address)
    requires FirstMatchAt(devs, j, test, a)
    ensures ScanRound(devs, test) == Hit(a)
    decreases j
  {
    ScanRoundStep(devs, test);
    if j > 0 {
      PassesShift(devs, j, test);
      assert FirstMatchAt(devs[1..], j - 1, test, a) by {
        assert devs[1..][j - 1] == devs[j];
      }
      FirstMatchIsHit(devs[1..], j - 1, test, a);
      assert Passes(test, devs[0]);
    }
  }

  /** One scan hits address a exactly when some device at a matches and every device before it is passed over. */
  lemma ScanRoundHit(devs: seq<Advertisement>, test: DeviceTest, a: Address)
    ensures ScanRound(devs, test) == Hit(a) <==> exists j :: FirstMatchAt(devs, j, test, a)
  {
    if ScanRound(devs, test) == Hit(a) {
      var j := ScanRoundHitHasFirstMatch(devs, test, a);
    }
    if j :| FirstMatchAt(devs, j, test, a) {
      FirstMatchIsHit(devs, j, test, a);
    }
  }

  /** The search from scan done on finds a in scan n exactly when scan n-1 hits a and every scan before it misses. */
  lemma {:induction false} SearchFoundFrom(scans: seq<seq<Advertisement>>, test: DeviceTest, done: nat, a: Address, n: nat)
    requires done <= MaxScans
    ensures Search(scans, test, done) == Found(a, n) <==>
              done < n <= MaxScans && ScanRound(ScanAt(scans, n - 1), test) == Hit(a) &&
              forall k :: done <= k < n - 1 ==> ScanRound(ScanAt(scans, k), test) == Miss
  {
    if Search(scans, test, done) == Found(a, n) {
      FoundHasHitAfterMisses(scans, test, done, a, n);
    }
    if done < n <= MaxScans && ScanRound(ScanAt(scans, n - 1), test) == Hit(a) &&
       forall k :: done <= k < n - 1 ==> ScanRound(ScanAt(scans, k), test) == Miss {
      HitAfterMissesIsFound(scans, test, done, a, n);
    }
  }

  /** A success in scan n comes from a hit in scan n - 1 after misses in every scan from done on. */
  lemma {:induction false} FoundHasHitAfterMisses(scans: seq<seq<Advertisement>>, test: DeviceTest, done: nat, a: Address, n: nat)
    requires done <= MaxScans && Search(scans, test, done) == Found(a, n)
    ensures done < n <= MaxScans && ScanRound(ScanAt(scans, n - 1), test) == Hit(a)
    ensures forall k :: done <= k < n - 1 ==> ScanRound(ScanAt(scans, k), test) == Miss
    decreases MaxScans - done
  {
    var round := ScanRound(ScanAt(scans, done), test);
    if round.Miss? {
      FoundHasHitAfterMisses(scans, test, done + 1, a, n);
      forall k | done <= k < n - 1 ensures ScanRound(ScanAt(scans, k), test) == Miss {
      }
    }
  }

  /** Misses in every scan from done on, then a hit in scan n - 1, are a success in scan n. */
  lemma {:induction false} HitAfterMissesIsFound(scans: seq<seq<Advertisement>>, test: DeviceTest, done: nat, a: Address, n: nat)
    requires done < n <= MaxScans && ScanRound(ScanAt(scans, n - 1), test) == Hit(a)
    requires forall k :: done <= k < n - 1 ==> ScanRound(ScanAt(scans, k), test) == Miss
    ensures Search(scans, test, done) == Found(a, n)
    decreases n - done
  {
    if done < n - 1 {
      assert ScanRound(ScanAt(scans, done), test) == Miss;
      HitAfterMissesIsFound(scans, test, done + 1, a, n);
    }
  }

  /** The devices of the last of n scans. */
  function FinalScan(scans: seq<seq<Advertisement>>, n: nat): seq<Advertisement>
    requires n >= 1
  {
    ScanAt(scans, n - 1)
  }

  /**
   * connect succeeds with the n-th scan (n <= 50) on the first device whose serial matches: every
   * device of the earlier scans, and every device before it in that scan, was looked at and passed over.
   */
  lemma FoundIsFirstMatch(scans: seq<seq<Advertisement>>, test: DeviceTest, a: Address, n: nat)
    requires Search(scans, test, 0) == Found(a, n)
    ensures 1 <= n <= MaxScans
    ensures forall k :: 0 <= k < n - 1 ==> AllPass(ScanAt(scans, k), test)
    ensures exists j :: FirstMatchAt(FinalScan(scans, n), j, test, a)
  {
    SearchFoundFrom(scans, test, 0, a, n);
    forall k | 0 <= k < n - 1 ensures AllPass(ScanAt(scans, k), test) {
      ScanRoundMiss(ScanAt(scans, k), test);
    }
    var j := ScanRoundHitHasFirstMatch(FinalScan(scans, n), test, a);
  }

  lemma {:induction false} SearchNotFoundFrom(scans: seq<seq<Advertisement>>, test: DeviceTest, done: nat)
    requires done <= MaxScans
    ensures Search(scans, test, done) == NotFound <==>
              forall k :: done <= k < MaxScans ==> ScanRound(ScanAt(scans, k), test) == Miss
    decreases MaxScans - done
  {
    if done < MaxScans {
      SearchNotFoundFrom(scans, test, done + 1);
    }
  }

  /** connect gives up (and exits with code 1) exactly when all 50 scans pass over every device they report. */
  lemma NotFoundMeansAllPassed(scans: seq<seq<Advertisement>>, test: DeviceTest)
    ensures Search(scans, test, 0) == NotFound <==>
              forall k :: 0 <= k < MaxScans ==> AllPass(ScanAt(scans, k), test)
  {
    SearchNotFoundFrom(scans, test, 0);
    forall k | 0 <= k < MaxScans {
      ScanRoundMiss(ScanAt(scans, k), test);
    }
  }

  /** A search raises only what the test raises. */
  lemma {:induction false} SearchRaisesOnly(scans: seq<seq<Advertisement>>, test: DeviceTest, fs: set<Fault>, done: nat)
    requires RaisesOnly(test, fs) && done <= MaxScans
    ensures Search(scans, test, done).Failed? ==> Search(scans, test, done).fault in fs
    decreases MaxScans - done
  {
    if done < MaxScans {
      ScanRoundRaisesOnly(ScanAt(scans, done), test, fs);
      SearchRaisesOnly(scans, test, fs, done + 1);
    }
  }

  /** connect fails only with the matcher's or int()'s IndexError, TypeError or ValueError, never with an exit. */
  lemma SearchFailureIsException(scans: seq<seq<Advertisement>>, copy: Copy, serial: string)
    ensures Search(scans, SerialTest(copy, serial), 0).Failed? ==>
              Search(scans, SerialTest(copy, serial), 0).fault in {IndexError, TypeError, ValueError}
  {
    SearchRaisesOnly(scans, SerialTest(copy, serial), {IndexError, TypeError, ValueError}, 0);
  }

  /** "Unknown", and every serial of 2^32 or more, never matches. */
  lemma MatchNeedsNumberBelow2To32(copy: Copy, adv: Advertisement, serial: string)
    requires Matches(SerialTest(copy, serial), adv)
    ensures Parse(copy, adv.manu) == Ok(Number(IntOf(serial).value))
    ensures IntOf(serial).value < 0x1_0000_0000
  {
    assert Check(copy, adv, serial) == Ok(true);
  }

  /** A scan hits only when the configured serial is a number below 2^32. */
  lemma ScanRoundHitMatches(devs: seq<Advertisement>, copy: Copy, serial: string)
    requires ScanRound(devs, SerialTest(copy, serial)).Hit?
    ensures IntOf(serial).Ok? && IntOf(serial).value < 0x1_0000_0000
  {
    var j := ScanRoundHitHasFirstMatch(devs, SerialTest(copy, serial), ScanRound(devs, SerialTest(copy, serial)).addr);
    MatchNeedsNumberBelow2To32(copy, devs[j], serial);
  }

  /**
   * A configured serial of 2^32 or more (4294967296 to 9999999999 pass the 10-digit check)
   * is never found: the advertised serial has only four bytes.
   */
  lemma LargeSerialNeverFound(scans: seq<seq<Advertisement>>, copy: Copy, serial: string)
    requires IntOf(serial).Ok? && IntOf(serial).value >= 0x1_0000_0000
    ensures !Search(scans, SerialTest(copy, serial), 0).Found?
  {
    var test := SerialTest(copy, serial);
    if Search(scans, test, 0).Found? {
      var r := Search(scans, test, 0);
      SearchFoundFrom(scans, test, 0, r.addr, r.scansUsed);
      ScanRoundHitMatches(ScanAt(scans, r.scansUsed - 1), copy, serial);
    }
  }

  lemma {:induction false} OnlyFirstScansMatterFrom(scans: seq<seq<Advertisement>>, more: seq<seq<Advertisement>>, test: DeviceTest, done: nat)
    requires |scans| >= MaxScans && done <= MaxScans
    ensures Search(scans + more, test, done) == Search(scans, test, done)
    decreases MaxScans - done
  {
    if done < MaxScans {
      assert ScanAt(scans + more, done) == ScanAt(scans, done);
      OnlyFirstScansMatterFrom(scans, more, test, done + 1);
    }
  }

  /** Whatever the BLE stack would report after the 50th scan is never looked at. */
  lemma OnlyFirstScansMatter(scans: seq<seq<Advertisement>>, more: seq<seq<Advertisement>>, test: DeviceTest)
    requires |scans| >= MaxScans
    ensures Search(scans + more, test, 0) == Search(scans, test, 0)
  {
    OnlyFirstScansMatterFrom(scans, more, test, 0);
  }

  /** The characteristic fields connect sets on a peripheral at addr, in sensor-index order. */
  function AttachedChars(addr: Address): seq<Option<Characteristic>> {
    [Some(Characteristic(addr, UuidDateTime)), Some(Characteristic(addr, UuidHumidity)),
     Some(Characteristic(addr, UuidTemperature)), Some(Characteristic(addr, UuidRadonStAvg)),
     Some(Characteristic(addr, UuidRadonLtAvg))]
  }

  /** A handle on one Wave device: a peripheral connection and five characteristics, all set or all None. */
  class Wave {
    const copy: Copy
    var serial: string
    var periph: Option<Peripheral>
    var datetimeChar: Option<Characteristic>
    var humidityChar: Option<Characteristic>
    var temperatureChar: Option<Characteristic>
    var radonStAvgChar: Option<Characteristic>
    var radonLtAvgChar: Option<Characteristic>

    /** The five characteristic fields, in sensor-index order. */
    function Chars(): seq<Option<Characteristic>>
      reads this
    {
      [datetimeChar, humidityChar, temperatureChar, radonStAvgChar, radonLtAvgChar]
    }

    predicate Connected()
      reads this
    {
      periph.Some?
    }

    /** Either disconnected with every field None, or connected with the five characteristics of that peripheral. */
    ghost predicate Valid()
      reads this
    {
      match periph
      case None => forall i :: 0 <= i < 5 ==> Chars()[i].None?
      case Some(p) => Chars() == AttachedChars(p.addr)
    }

    /** The characteristic read(idx) uses; None for an index outside 0..4. */
    function CharFor(idx: int): Option<Characteristic>
      reads this
    {
      if 0 <= idx < 5 then Chars()[idx] else None
    }

    constructor (serialNumber: string, copy: Copy)
      ensures Valid() && !Connected()
      ensures this.copy == copy && serial == serialNumber
    {
      this.copy := copy;
      serial := serialNumber;
      periph := None;
      datetimeChar, humidityChar, temperatureChar := None, None, None;
      radonStAvgChar, radonLtAvgChar := None, None;
    }

    /**
     * Searches the scans for the device with this handle's serial and attaches to it. Not finding
     * it is sys.exit(1); an exception from the matcher or from int() propagates. Either way
     * nothing changes.
     */
    method Connect(scans: seq<seq<Advertisement>>) returns (r: Result<Address>)
      requires Valid()
      modifies this
      ensures Valid() && serial == old(serial)
      ensures match Search(scans, SerialTest(copy, serial), 0)
              case Found(a, _) => r == Ok(a) && periph == Some(Peripheral(a)) && Chars() == AttachedChars(a)
              case NotFound => r == Err(Exit(1)) && unchanged(this)
              case Failed(f) => r == Err(f) && unchanged(this)
    {
      var found := SearchDevice(scans, SerialTest(copy, serial));
      match found
      case NotFound => r := Err(Exit(1));
      case Failed(f) => r := Err(f);
      case Found(macAddr, _) =>
        periph := Some(Peripheral(macAddr));
        datetimeChar := Some(Characteristic(macAddr, UuidDateTime));
        humidityChar := Some(Characteristic(macAddr, UuidHumidity));
        temperatureChar := Some(Characteristic(macAddr, UuidTemperature));
        radonStAvgChar := Some(Characteristic(macAddr, UuidRadonStAvg));
        radonLtAvgChar := Some(Characteristic(macAddr, UuidRadonLtAvg));
        r := Ok(macAddr);
    }

    /**
     * Reads sensor idx, whose characteristic answers with the bytes raw. An index outside 0..4, or
     * one whose characteristic is None, is sys.exit(1) and decodes nothing.
     */
    method Read(idx: int, raw: seq<byte>) returns (r: Result<Reading>)
      ensures r == Err(Exit(1)) <==> CharFor(idx).None?
      ensures CharFor(idx).Some? ==> r == Decode(idx, raw)
    {
      if idx == SensorIdxDateTime && datetimeChar.Some? {
        r := UnpackDateTime(raw);
      } else if idx == SensorIdxHumidity && humidityChar.Some? {
        r := DecodeHumidity(raw);
      } else if idx == SensorIdxTemperature && temperatureChar.Some? {
        r := DecodeTemperature(raw);
      } else if idx == SensorIdxRadonStAvg && radonStAvgChar.Some? {
        r := DecodeRadonShortTerm(raw);
      } else if idx == SensorIdxRadonLtAvg && radonLtAvgChar.Some? {
        r := DecodeRadonLongTerm(raw);
      } else {
        r := Err(Exit(1));
      }
    }

    /** Closes the connection and clears every field; on a handle already disconnected it does nothing. */
    method Disconnect()
      requires Valid()
      modifies this
      ensures Valid() && !Connected()
      ensures forall i :: 0 <= i < 5 ==> Chars()[i].None?
      ensures serial == old(serial)
      ensures !old(Connected()) ==> unchanged(this)
    {
      if periph.Some? {
        periph := None;
        datetimeChar, humidityChar, temperatureChar := None, None, None;
        radonStAvgChar, radonLtAvgChar := None, None;
      }
    }
  }

  /** A connected handle reads every one of the five sensors, so read can then fail only in unpacking. */
  lemma ConnectedReadsAll(w: Wave, idx: int)
    requires w.Valid() && w.Connected() && 0 <= idx < 5
    ensures w.CharFor(idx).Some?
  {
  }

  /** A disconnected handle reads nothing. */
  lemma DisconnectedReadsNothing(w: Wave, idx: int)
    requires w.Valid() && !w.Connected()
    ensures w.CharFor(idx).None?
  {
  }

  /** What the BLE stack answers during one connection: the scans, then each characteristic's bytes. */
  datatype Device = Device(
    scans: seq<seq<Advertisement>>,
    dateTimeRaw: seq<byte>,
    humidityRaw: seq<byte>,
    temperatureRaw: seq<byte>,
    radonStAvgRaw: seq<byte>,
    radonLtAvgRaw: seq<byte>)

  /** The five values the scripts read, in the order they read them. */
  datatype Readings = Readings(dateTime: Reading, humidity: Reading, temperature: Reading, radonStAvg: Reading, radonLtAvg: Reading)

  /** The five reads of a connected handle: the readings, or the first unpacking failure. */
  function DecodeAll(d: Device): (r: Result<Readings>)
    ensures r.Ok? <==> Decode(0, d.dateTimeRaw).Ok? && Decode(1, d.humidityRaw).Ok? && Decode(2, d.temperatureRaw).Ok? &&
                       Decode(3, d.radonStAvgRaw).Ok? && Decode(4, d.radonLtAvgRaw).Ok?
    ensures r.Ok? ==> r.value.humidity.Humidity? && r.value.temperature.Temperature? &&
                      r.value.radonStAvg.RadonShortTerm? && r.value.radonLtAvg.RadonLongTerm? && r.value.dateTime.Timestamp?
    ensures r.Ok? ==> Decode(0, d.dateTimeRaw) == Ok(r.value.dateTime) && Decode(1, d.humidityRaw) == Ok(r.value.humidity) &&
                      Decode(2, d.temperatureRaw) == Ok(r.value.temperature) && Decode(3, d.radonStAvgRaw) == Ok(r.value.radonStAvg) &&
                      Decode(4, d.radonLtAvgRaw) == Ok(r.value.radonLtAvg)
    ensures r.Err? ==> r.fault == StructError
  {
    match Decode(0, d.dateTimeRaw)
    case Err(f) => Err(f)
    case Ok(t) =>
      match Decode(1, d.humidityRaw)
      case Err(f) => Err(f)
      case Ok(h) =>
        match Decode(2, d.temperatureRaw)
        case Err(f) => Err(f)
        case Ok(c) =>
          match Decode(3, d.radonStAvgRaw)
          case Err(f) => Err(f)
          case Ok(st) =>
            match Decode(4, d.radonLtAvgRaw)
            case Err(f) => Err(f)
            case Ok(lt) => Ok(Readings(t, h, c, st, lt))
  }

  /** The five successive `w.read(SENSOR_IDX_...)` calls of both scripts; the first failure ends them. */
  method ReadAll(w: Wave, d: Device) returns (r: Result<Readings>)
    requires w.Valid() && w.Connected()
    ensures r == DecodeAll(d)
  {
    var dateTime := w.Read(SensorIdxDateTime, d.dateTimeRaw);
    if dateTime.Err? { return Err(dateTime.fault); }
    var humidity := w.Read(SensorIdxHumidity, d.humidityRaw);
    if humidity.Err? { return Err(humidity.fault); }
    var temperature := w.Read(SensorIdxTemperature, d.temperatureRaw);
    if temperature.Err? { return Err(temperature.fault); }
    var radonStAvg := w.Read(SensorIdxRadonStAvg, d.radonStAvgRaw);
    if radonStAvg.Err? { return Err(radonStAvg.fault); }
    var radonLtAvg := w.Read(SensorIdxRadonLtAvg, d.radonLtAvgRaw);
    if radonLtAvg.Err? { return Err(radonLtAvg.fault); }
    r := Ok(Readings(dateTime.value, humidity.value, temperature.value, radonStAvg.value, radonLtAvg.value));
  }
}
