# wave-mqtt-bridge in Dafny

This project models the decision core of wave-mqtt-bridge. The bridge reads an Airthings Wave radon
monitor over Bluetooth Low Energy and forwards the readings to an MQTT broker. The modelled core:

- **The serial matcher.** `parseSerialNumber` recognises the Airthings vendor magic `0x0334` in a
  device's manufacturer data and assembles the 32-bit little-endian serial that follows it. There
  are two copies, and they differ in how they treat missing data (module `SerialMatch`).
- **The sensor decoding.** The `struct` layouts of the five characteristics: date and time,
  humidity, temperature, and short- and long-term radon averages. Readings are kept as integers,
  with humidity and temperature in hundredths (module `SensorDecode`).
- **The `Wave` device handle.** A class with a peripheral and five characteristic fields.
  - `Connect` runs the bounded scan search: at most 50 scans, and the first device whose serial
    matches wins. Its loop is proved against the recursive specification `Search`. The scan
    lemmas hold for any per-device test; `SerialTest` is the one connect applies, `SN == int(self.SN)`.
  - `Read` is the guarded per-index dispatch. `Disconnect` clears every field.
  - `ReadAll` makes the five reads both scripts perform (module `WaveDevice`).
- **Start-up validation.** `AW_SERIAL`, `VM_INTERVAL_S` and `AW_TYPE`, including the misspelt
  `aw_TYPE` fallback, which selects no branch (module `Config`).
- **The MQTT batch.** `publish_mqtt` builds an ordered list of `(topic, payload, 1, False)`
  entries, one for each configured topic, plus the optional auth (module `MqttBatch`, with the
  7-topic builder in `Bridge` and the 4-topic builder in `ReadWave`).
- **The polling bridge.** One cycle of the WAVE branch, with `try`/`except Exception`/`finally`,
  and the integer sleep before the next cycle (module `Bridge`).
- **The single-shot script.** `read_wave.py`: guards, then connect, read, publish and disconnect
  (module `ReadWave`).

Python 2 semantics are written out:

- `/` on integers is floor division. For the positive divisors used here it equals Dafny's `/`.
- `<<` and `|` are multiplication by a power of two and a bitwise or on naturals (`BitOr`).
- `str.isdigit` and `int` are modelled on ASCII digits.
- `sys.exit(1)` is the fault `Exit(1)`. `SystemExit` is not an `Exception`, so `except Exception`
  lets it through.

Module `Python` holds these shared pieces.

## Model

| member | source | states |
|---|---|---|
| SerialMatch.MatchBytes | src/wave.py:48-56 | IndexError exactly when the data has fewer than 2 bytes, or carries the vendor prefix 0x34 0x03 with fewer than 6; "Unknown" exactly when the prefix is absent; a number exactly for the prefix with at least 6 bytes, and always the little-endian value of bytes 2..5, below 2^32 |
| SerialMatch.MagicMeansPrefix | src/wave.py:50 | `(b1<<8)\|b0` is b0 + 256*b1, and it equals 0x0334 exactly when b0 = 0x34 and b1 = 0x03 |
| SerialMatch.SerialBitsIsLittleEndian | src/wave.py:51-54 | the four or-ed shifted bytes equal the little-endian value of bytes 2..5, since the shifted bytes never overlap |
| SerialMatch.BitOrDisjoint | src/wave.py:52-54 | an or with a value shifted past the other operand's bits is an addition |
| SerialMatch.ParseSerialNumber | src/wave.py:44-57 | no manufacturer data gives "Unknown"; the text "None" fails in fromhex (ValueError); hex data goes through the matcher |
| SerialMatch.ParseSerialNumberScript | read_wave.py:118-131 | only the text "None" gives "Unknown"; real missing data reaches fromhex and raises TypeError; hex data goes through the same matcher |
| SerialMatch.CopiesAgreeOnBytes | read_wave.py:118-131 | the two copies give the same result exactly on hex data |
| SerialMatch.RecordRoundTrip | src/wave.py:50-54 | every serial below 2^32, advertised as a vendor record, is recovered whatever bytes follow |
| SerialMatch.LittleEndianRecord | src/wave.py:50-54 | bytes 2..5 after the vendor prefix are exactly the record of their little-endian value, which is below 2^32 |
| SerialMatch.RecordDeterminesSerial | src/wave.py:50-54 | a matched serial determines bytes 0..5, and bytes past index 5 never change the result |
| SensorDecode.UnpackU16 | src/wave.py:111 | `struct.unpack('H')` succeeds exactly on 2 bytes, giving a value below 65536 (that it is lo + 256*hi is stated by `U16RoundTrip` and `U16Injective`); otherwise struct.error |
| SensorDecode.UnpackS16 | src/wave.py:115 | `struct.unpack('h')` succeeds exactly on 2 bytes, giving a value in [-32768, 32768) that is negative exactly when the high byte is 0x80 or more |
| SensorDecode.UnpackDateTime | src/wave.py:106-107 | `'HBBBBB'` succeeds exactly on 7 bytes: a 2-byte year and five 1-byte fields |
| SensorDecode.Decode | src/wave.py:103-124 | each index has its own layout; it fails only with struct.error |
| SensorDecode.U16RoundTrip | src/wave.py:111 | unpacking the little-endian encoding of any value below 65536 gives it back |
| SensorDecode.U16Injective | src/wave.py:111 | a decodable 2-byte input is the encoding of its value |
| SensorDecode.S16RoundTrip | src/wave.py:115 | unpacking the two's-complement encoding of any value in [-32768, 32768) gives it back |
| SensorDecode.S16Injective | src/wave.py:115 | a decodable signed input is the encoding of its value |
| SensorDecode.DateTimeRoundTrip | src/wave.py:106 | a timestamp with a year below 65536 survives packing and unpacking |
| SensorDecode.DateTimeInjective | src/wave.py:106 | a decodable 7-byte input is the packing of its timestamp |
| SensorDecode.HumidityDecoding | src/wave.py:109-111 | humidity reads h hundredths of a percent exactly when the bytes are the encoding of h < 65536 |
| SensorDecode.TemperatureDecoding | src/wave.py:113-115 | temperature reads c hundredths of a degree exactly when the bytes are the signed encoding of c |
| SensorDecode.RadonDecoding | src/wave.py:117-124 | both radon averages read the unsigned 16-bit value unscaled, exactly for its encoding |
| SensorDecode.WorkedValues | src/wave.py:109-120 | 0x1194 is 45.00 %rH, raw -150 is -1.50 degC, 0x0078 is 120 Bq/m3 |
| WaveDevice.Check | src/wave.py:84-86 | one device's test either decides or raises IndexError, TypeError or ValueError, never an exit |
| WaveDevice.CheckDecides | src/wave.py:84-86 | the test raises exactly when the data or int(serial) fails; it holds exactly when the parsed serial is the number int(serial), and passes over the device exactly when both parse and differ |
| WaveDevice.ScanRound | src/wave.py:83-89 | the inner loop ends at a device whose test holds, with its address, or with an exception the test raised on one of the devices; otherwise it misses |
| WaveDevice.ScanRoundRaisesOnly | src/wave.py:83-89 | the inner loop raises only what the per-device test raises |
| WaveDevice.ScanRoundStep | src/wave.py:83-89 | a matching first device ends the scan with its address, a passing one moves on to the rest, a raising one ends it with that exception |
| WaveDevice.Search | src/wave.py:78-94 | a success happens within scans 1..50 |
| WaveDevice.SearchRaisesOnly | src/wave.py:80-90 | the search raises only what the per-device test raises |
| WaveDevice.SearchFailureIsException | src/wave.py:80-94 | connect's search fails only with IndexError, TypeError or ValueError from the matcher or int(), never with an exit |
| WaveDevice.SearchDevice | src/wave.py:78-90 | the while/for/break loop, applying the per-device test in scan order, equals the recursive search specification |
| WaveDevice.ScanRoundMiss | src/wave.py:83-89 | a scan misses exactly when every device it reports parses and does not match |
| WaveDevice.ScanRoundHit | src/wave.py:83-89 | a scan hits address a exactly when some device is the first match and has address a |
| WaveDevice.ScanRoundHitHasFirstMatch | src/wave.py:83-89 | a hit comes with the index of the first matching device |
| WaveDevice.FirstMatchIsHit | src/wave.py:83-89 | the first matching device, after only passing devices, makes the scan hit |
| WaveDevice.SearchFoundFrom | src/wave.py:80-89 | a success in scan n means every earlier scan missed and scan n hit, and conversely |
| WaveDevice.FoundHasHitAfterMisses | src/wave.py:80-89 | a success in scan n comes from a hit in scan n after misses in every earlier scan |
| WaveDevice.HitAfterMissesIsFound | src/wave.py:80-89 | misses in every earlier scan, then a hit in scan n, are a success in scan n |
| WaveDevice.FoundIsFirstMatch | src/wave.py:78-89 | connect's device is the first match of the n-th scan, n <= 50, and every earlier scan passed over all its devices |
| WaveDevice.SearchNotFoundFrom | src/wave.py:80-94 | from scan k on, the search gives up exactly when every remaining scan misses |
| WaveDevice.NotFoundMeansAllPassed | src/wave.py:80-94 | connect gives up exactly when all 50 scans pass over every device they report |
| WaveDevice.MatchNeedsNumberBelow2To32 | src/wave.py:85-86 | "Unknown" never matches; a match is an advertised number equal to int(serial), so below 2^32 |
| WaveDevice.ScanRoundHitMatches | src/wave.py:83-89 | a hit needs the configured serial to be a number below 2^32 |
| WaveDevice.LargeSerialNeverFound | src/wave.py:80-94 | a 10-digit serial of 2^32 or more is never found |
| WaveDevice.OnlyFirstScansMatterFrom | src/wave.py:80 | scans after the 50th never change the search, from any scan on |
| WaveDevice.OnlyFirstScansMatter | src/wave.py:80 | at most 50 scans are made: scans after the 50th never change the result |
| WaveDevice.Wave.constructor | src/wave.py:67-74 | a new handle is disconnected, with every characteristic None |
| WaveDevice.Wave.Connect | src/wave.py:76-101 | on a match it sets the peripheral and all five characteristics of that device; not finding it is exit 1 and an exception propagates, both leaving the handle unchanged; the copy at read_wave.py:163-188 differs only in its matcher |
| WaveDevice.Wave.Read | src/wave.py:103-129 | exit 1 exactly when the index is outside 0..4 or its characteristic is None; otherwise that index's decoding; the copy at read_wave.py:190-216 is the same |
| WaveDevice.Wave.Disconnect | src/wave.py:131-139 | afterwards the peripheral and all five characteristics are None; on a disconnected handle nothing changes; the copy at read_wave.py:218-226 is the same |
| WaveDevice.ConnectedReadsAll | src/wave.py:96-101 | a connected handle has all five characteristics, so every read gets past the guard |
| WaveDevice.DisconnectedReadsNothing | src/wave.py:125-128 | a disconnected handle fails every read with exit 1 |
| WaveDevice.DecodeAll | src/wave.py:103-124 | the five reads succeed exactly when each sensor decodes, and then each reading is its own characteristic's decoding, of its sensor's kind; a failure is struct.error |
| WaveDevice.ReadAll | src/wave-mqtt-bridge.py:143-147 | the five reads of a connected handle give the decoded readings or the first failure |
| Python.DecimalValue | src/wave-mqtt-bridge.py:71 | int() of an all-digit text of length k is below 10^k |
| Python.DecimalRoundTrip | src/wave-mqtt-bridge.py:71 | int(str(n)) == n |
| Python.IntOf | src/wave.py:86 | int() succeeds exactly on a non-empty all-digit text; otherwise ValueError |
| Config.ValidateSerial | src/wave-mqtt-bridge.py:77-87 | AW_SERIAL is accepted, unchanged, exactly when it is set, 10 long and all digits; otherwise exit 1; the guards of read_wave.py:106-116 are the same |
| Config.DefaultIntervalValue | src/wave-mqtt-bridge.py:63-65 | the default text "300" is numeric and means 300 |
| Config.ValidateInterval | src/wave-mqtt-bridge.py:63-75 | unset gives 300; a set value is accepted exactly when all digits and at least 30, as its integer value; otherwise exit 1 |
| Config.IntervalRoundTrip | src/wave-mqtt-bridge.py:67-75 | any n written in decimal is accepted as n when n >= 30 and refused with exit 1 otherwise |
| Config.SelectBranch | src/wave-mqtt-bridge.py:89-91 | the WAVE branch runs exactly for "WAVE" and the WAVEPLUS branch exactly for "WAVEPLUS" |
| Config.UnrecognisedTypeRunsNoBranch | src/wave-mqtt-bridge.py:89-91 | an unset or unknown AW_TYPE, logged as defaulting to WAVE, runs no branch at all |
| MqttBatch.MessagesShape | src/wave-mqtt-bridge.py:110-127 | no more entries than candidates, each with qos 1 and retain False |
| MqttBatch.AppendIfSet | src/wave-mqtt-bridge.py:114-115 | one `if topic != None: append` step adds exactly that candidate's part |
| MqttBatch.MessagesAppend | src/wave-mqtt-bridge.py:114-127 | the batch of consecutive candidate runs is the concatenation of their batches |
| MqttBatch.MessagesSnoc | src/wave-mqtt-bridge.py:114-127 | one more candidate extends the batch by its part |
| MqttBatch.PrefixStep | src/wave-mqtt-bridge.py:114-127 | the batch after k+1 appends is the batch after k plus candidate k's part |
| MqttBatch.RankShift | src/wave-mqtt-bridge.py:114-127 | the position of an entry moves by one for each set candidate in front of it |
| MqttBatch.MessagesLength | src/wave-mqtt-bridge.py:114-127 | the batch has one entry per set topic |
| MqttBatch.SetSlotPublished | src/wave-mqtt-bridge.py:114-127 | a candidate with a set topic is in the batch, with that topic and payload, after the set candidates before it |
| MqttBatch.UnsetSlotIgnored | src/wave-mqtt-bridge.py:114-127 | a candidate with an unset topic has no entry: its payload never affects the batch |
| MqttBatch.RankIncreasing | src/wave-mqtt-bridge.py:114-127 | set candidates keep their relative order in the batch |
| MqttBatch.EntryFromSetSlot | src/wave-mqtt-bridge.py:114-127 | every entry comes from a candidate with a set topic, carrying its topic and payload |
| MqttBatch.AuthFor | src/wave-mqtt-bridge.py:111-113 | auth is present exactly when MQTT_USER is set, and then carries the user and the password |
| Bridge.Startup | src/wave-mqtt-bridge.py:62-91 | start-up passes exactly when both the interval and the serial guards pass, keeping the validated VM_INTERVAL_S value (300 when unset, at least 30) and the 10-digit serial; otherwise exit 1 |
| Bridge.PublishMqtt | src/wave-mqtt-bridge.py:108-127 | the batch is the entries for the set topics in the order LT, ST, T, H, P, CO2, VOC, at most 7, with the MQTT_USER auth |
| Bridge.SlotsMessages | src/wave-mqtt-bridge.py:114-127 | the batch of the seven candidates is their parts in LT, ST, T, H, P, CO2, VOC order |
| Bridge.UnsetCo2NeverPublished | src/wave-mqtt-bridge.py:124-125 | with MQTT_TOPIC_CO2 unset the CO2 value never reaches the batch, which then has at most 6 entries |
| Bridge.RankBound | src/wave-mqtt-bridge.py:114-127 | an unset topic among the first i leaves at most i-1 entries before position i |
| Bridge.RankAtMost | src/wave-mqtt-bridge.py:114-127 | the first i candidates give at most i entries |
| Bridge.WaveBranchPublishesNoneForPlusSensors | src/wave-mqtt-bridge.py:150 | on the WAVE branch a set pressure, CO2 or VOC topic still gets an entry, with payload None |
| Bridge.SleepSeconds | src/wave-mqtt-bridge.py:194-198 | the sleep is at least 10 and at least the rest of the interval, and it is one of those two |
| Bridge.ElapsedMs | src/wave-mqtt-bridge.py:193 | the elapsed time in milliseconds, with Python 2's integer division of the microseconds, lies within the whole second given by the days and seconds |
| Bridge.ElapsedWholeSeconds | src/wave-mqtt-bridge.py:192-194 | elapsed_ms/1000 is the whole seconds of the time difference |
| Bridge.SleepKeepsCadence | src/wave-mqtt-bridge.py:192-198 | when at least 10 s of the interval is left, the cycle plus the sleep lasts the interval, to within a second |
| Bridge.WorkedSleeps | src/wave-mqtt-bridge.py:194-198 | 300 s with 12 s elapsed sleeps 288 s; with 295 s elapsed it sleeps 10 s |
| Bridge.WaveBranchCycle | src/wave-mqtt-bridge.py:138-156 | the handle ends disconnected; the process exits with 1 exactly when the device is not found; a batch is published exactly when it is found, every sensor decodes and MQTT_HOST is set |
| Bridge.Cycle | src/wave-mqtt-bridge.py:133-201 | an unknown type publishes nothing and sleeps; on WAVE the process exits exactly when the device is not found, and a batch is published exactly when it is found, every sensor decodes and MQTT_HOST is set; otherwise it sleeps as computed, at least 10 s |
| ReadWave.PublishMqtt | read_wave.py:66-95 | the batch is the entries for the set topics in the order LT, ST, T, H, at most 4, with the MQTT_USER auth; the light value is never in it |
| ReadWave.SlotsMessages | read_wave.py:83-90 | the batch of the four candidates is their parts in LT, ST, T, H order |
| ReadWave.ScriptBatchEntries | read_wave.py:83-90 | each of the four sensors has an entry in its place exactly when its topic is set |
| ReadWave.Run | read_wave.py:228-248 | a failed serial guard (lines 106-116) exits with 1 before any handle exists; otherwise the handle ends disconnected, the exit code is 1 exactly when the device is not found, and a batch is published exactly when it is found, every sensor decodes and MQTT_HOST is set |
| ReadWave.AbsentDataAbortsScriptScan | read_wave.py:170-173 | a device without manufacturer data ends the script's scan with a TypeError, where the library copy passes over it |

## Left out

- Bluetooth: `Scanner.scan`, `Peripheral`, characteristic `.read()` and `periph.disconnect()` are
  not modelled as calls. The scan results and each characteristic's bytes are inputs (`Device`).
- `getCharacteristics(...)[0]` always finds its characteristic: the `IndexError` of a device that
  lacks one is not modelled.
- `bytearray.fromhex` is not modelled. Manufacturer data is given as bytes, or as missing, or as
  the text "None".
- MQTT: `publish.multiple`, `MQTT_PORT`, the client id and the swallowing of publish exceptions are
  not modelled. The model stops at the list of entries and the auth that would be handed over.
- Environment variables are `Option<string>` inputs. Logging, `WM_LOGFILE` and `JSON_PATH` are not
  modelled.
- `datetime.now()` and `time.sleep` are not modelled. A cycle takes the days, seconds and
  microseconds of the elapsed time as inputs and returns the sleep length.
- The `while True` loop is modelled as one cycle (`Bridge.Cycle`).
- The WAVEPLUS branch (src/wave-mqtt-bridge.py:160-188) is not modelled. Its `waveplus` module is
  not part of this model, and line 162 names an undefined `SerialNumber`.
- Bridge.Cycle: requires that the WAVEPLUS branch is not selected, because that branch is not modelled.
- Readings stay integers: hundredths for humidity and temperature, Bq/m3 for radon. The float
  scaling and `str(data)` formatting are not modelled.
- The calendar check of the `datetime(...)` constructor is not modelled. Any 7 decodable bytes give
  a `Timestamp`.
- `struct.unpack` is modelled for a little-endian host and exact-length inputs. A wrong length is
  `StructError`.
- Python.IntOf: models `int()` on ASCII digits only. Python also accepts surrounding whitespace, a
  sign and other Unicode digits, which the 10-digit guard and `isdigit` never let through here.
- Config.ValidateSerial: models `str.isdigit` on ASCII digits only. Unicode digits are not modelled.
- The handle keeps the configured serial in both copies. The read_wave.py constructor drops its
  argument and connect reads the global `aw_serial`, which is the same value.

Short manufacturer data raises `IndexError` rather than giving "Unknown": the matcher indexes the
bytes before it tests them, so fewer than 2 bytes, or the vendor prefix with fewer than 6, fail
(`MatchBytes`).
