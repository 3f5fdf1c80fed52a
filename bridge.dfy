/**
 * The polling bridge (wave-mqtt-bridge.py): start-up validation, the seven-topic batch,
 * one cycle of the WAVE branch, and the sleep before the next cycle.
 */
module Bridge {
  import opened Python
  import opened SensorDecode
  import opened WaveDevice
  import opened MqttBatch
  import opened Config

  /** The environment variables the bridge reads; None for an unset one. */
  datatype Env = Env(
    mqttHost: Option<string>,
    mqttUser: Option<string>,
    mqttPass: Option<string>,
    topicLt: Option<string>,    // MQTT_TOPIC_RADON_LT
    topicSt: Option<string>,    // MQTT_TOPIC_RADON_ST
    topicT: Option<string>,     // MQTT_TOPIC_TEMPERATURE
    topicH: Option<string>,     // MQTT_TOPIC_HUMIDITY
    topicP: Option<string>,     // MQTT_TOPIC_PRESSURE
    topicC: Option<string>,     // MQTT_TOPIC_CO2
    topicV: Option<string>,     // MQTT_TOPIC_VOC
    awSerial: Option<string>,
    awType: Option<string>,
    intervalS: Option<string>)  // VM_INTERVAL_S

  /** What survives start-up: the interval as an integer, the serial, and the branch each cycle runs. */
  datatype Settings = Settings(interval: nat, serial: string, branch: Branch)

  /** The start-up guards in order: interval first, then serial; AW_TYPE never fails. */
  function Startup(env: Env): (r: Result<Settings>)
    ensures r.Ok? <==> ValidateInterval(env.intervalS).Ok? && ValidateSerial(env.awSerial).Ok?
    ensures r.Err? ==> r.fault == Exit(1)
    ensures r.Ok? ==> r.value.interval >= MinInterval && |r.value.serial| == 10 && IsDigit(r.value.serial)
    ensures r.Ok? ==> r.value.interval == ValidateInterval(env.intervalS).value
    ensures r.Ok? ==> r.value.serial == env.awSerial.value && r.value.branch == SelectBranch(env.awType)
  {
    match ValidateInterval(env.intervalS)
    case Err(f) => Err(f)
    case Ok(interval) =>
      match ValidateSerial(env.awSerial)
      case Err(f) => Err(f)
      case Ok(serial) => Ok(Settings(interval, serial, SelectBranch(env.awType)))
  }

  /** The seven candidate entries, in the order publish_mqtt appends them: LT, ST, T, H, P, CO2, VOC. */
  function Slots<V>(env: Env, st: V, lt: V, temp: V, humidity: V, pressure: V, co2: V, voc: V): seq<Slot<V>> {
    [Slot(env.topicLt, lt), Slot(env.topicSt, st), Slot(env.topicT, temp), Slot(env.topicH, humidity),
     Slot(env.topicP, pressure), Slot(env.topicC, co2), Slot(env.topicV, voc)]
  }

  /** publish_mqtt up to the hand-over to publish.multiple: the batch it builds, append by append. */
  method PublishMqtt<V>(env: Env, st: V, lt: V, temp: V, humidity: V, pressure: V, co2: V, voc: V) returns (b: Batch<V>)
    ensures b.msgs == Messages(Slots(env, st, lt, temp, humidity, pressure, co2, voc))
    ensures b.auth == AuthFor(env.mqttUser, env.mqttPass)
    ensures |b.msgs| <= 7
  {
    var msgs: seq<Message<V>> := [];
    var auth: Option<Auth> := None;
    if env.mqttUser.Some? {
      auth := Some(Auth(env.mqttUser.value, env.mqttPass));
    }
    msgs := AppendIfSet(msgs, env.topicLt, lt);
    msgs := AppendIfSet(msgs, env.topicSt, st);
    msgs := AppendIfSet(msgs, env.topicT, temp);
    msgs := AppendIfSet(msgs, env.topicH, humidity);
    msgs := AppendIfSet(msgs, env.topicP, pressure);
    msgs := AppendIfSet(msgs, env.topicC, co2);
    msgs := AppendIfSet(msgs, env.topicV, voc);
    ghost var slots := Slots(env, st, lt, temp, humidity, pressure, co2, voc);
    SlotsMessages(slots);
    MessagesShape(slots);
    b := Batch(msgs, auth);
  }

  /** The batch of seven candidates is their parts in order. */
  lemma SlotsMessages<V>(s: seq<Slot<V>>)
    requires |s| == 7
    ensures Messages(s) == [] + Part(s[0]) + Part(s[1]) + Part(s[2]) + Part(s[3]) + Part(s[4]) + Part(s[5]) + Part(s[6])
  {
    assert s[..0] == [];
    PrefixStep(s, 0);
    PrefixStep(s, 1);
    PrefixStep(s, 2);
    PrefixStep(s, 3);
    PrefixStep(s, 4);
    PrefixStep(s, 5);
    PrefixStep(s, 6);
    assert s[..7] == s;
  }

  /** An unset MQTT_TOPIC_CO2 keeps the CO2 value out of the batch: the batch is the same whatever that value is. */
  lemma UnsetCo2NeverPublished<V>(env: Env, st: V, lt: V, temp: V, humidity: V, pressure: V, co2: V, voc: V, other: V)
    requires env.topicC.None?
    ensures Messages(Slots(env, st, lt, temp, humidity, pressure, other, voc)) ==
            Messages(Slots(env, st, lt, temp, humidity, pressure, co2, voc))
    ensures |Messages(Slots(env, st, lt, temp, humidity, pressure, co2, voc))| <= 6
  {
    var slots := Slots(env, st, lt, temp, humidity, pressure, co2, voc);
    UnsetSlotIgnored(slots, 5, other);
    assert slots[5 := Slot(None, other)] == Slots(env, st, lt, temp, humidity, pressure, other, voc);
    MessagesLength(slots);
    RankBound(slots, 7, 5);
  }

  /** At most how many of the first i slots are set, when slot u among them is unset. */
  lemma {:induction false} RankBound<V>(slots: seq<Slot<V>>, i: nat, u: nat)
    requires u < i <= |slots| && slots[u].topic.None?
    ensures Rank(slots, i) <= i - 1
  {
    if i - 1 != u {
      RankBound(slots, i - 1, u);
    } else {
      RankAtMost(slots, i - 1);
    }
  }

  lemma {:induction false} RankAtMost<V>(slots: seq<Slot<V>>, i: nat)
    requires i <= |slots|
    ensures Rank(slots, i) <= i
  {
    if i > 0 {
      RankAtMost(slots, i - 1);
    }
  }

  /**
   * On the WAVE branch pressure, CO2 and VOC are passed as None, yet a configured topic for them
   * still gets an entry, with payload None, after the entries of the four Wave sensors.
   */
  lemma WaveBranchPublishesNoneForPlusSensors(env: Env, st: Reading, lt: Reading, temp: Reading, humidity: Reading, idx: nat)
    requires 4 <= idx < 7
    requires Slots<Option<Reading>>(env, Some(st), Some(lt), Some(temp), Some(humidity), None, None, None)[idx].topic.Some?
    ensures var slots := Slots<Option<Reading>>(env, Some(st), Some(lt), Some(temp), Some(humidity), None, None, None);
            var k := Rank(slots, idx);
            k < |Messages(slots)| && Messages(slots)[k].payload.None? && Messages(slots)[k].topic == slots[idx].topic.value
  {
    var slots := Slots<Option<Reading>>(env, Some(st), Some(lt), Some(temp), Some(humidity), None, None, None);
    SetSlotPublished(slots, idx);
  }

  /** elapsed_ms of a timedelta: days, seconds and microseconds, with Python 2's integer division. */
  function ElapsedMs(days: int, seconds: nat, microseconds: nat): (r: int)
    ensures microseconds < 1_000_000 ==> 1000 * (days * 86_400 + seconds) <= r < 1000 * (days * 86_400 + seconds) + 1000
  {
    days * 86_400_000 + seconds * 1000 + microseconds / 1000
  }

  /** The shortest pause between cycles. */
  const MinSleep: int := 10

  /** sleep_s: what is left of the interval after elapsed_ms, but never less than 10 seconds. */
  function SleepSeconds(interval: int, elapsedMs: int): (s: int)
    ensures s >= MinSleep
    ensures s == interval - elapsedMs / 1000 || s == MinSleep
    ensures s >= interval - elapsedMs / 1000
  {
    var sleep := interval - elapsedMs / 1000;
    if sleep < MinSleep then MinSleep else sleep
  }

  /** The microseconds of a normalised timedelta never add a whole second to elapsed_ms / 1000. */
  lemma ElapsedWholeSeconds(days: int, seconds: nat, microseconds: nat)
    requires microseconds < 1_000_000
    ensures ElapsedMs(days, seconds, microseconds) / 1000 == days * 86_400 + seconds
  {
    var ms := ElapsedMs(days, seconds, microseconds);
    assert ms == 1000 * (days * 86_400 + seconds) + microseconds / 1000;
  }

  /**
   * A cycle that leaves at least 10 seconds of its interval sleeps exactly the rest, so a new cycle
   * starts every interval seconds, give or take the sub-second part that integer division drops.
   */
  lemma SleepKeepsCadence(interval: nat, elapsedMs: int)
    requires 0 <= elapsedMs && elapsedMs / 1000 <= interval - MinSleep
    ensures SleepSeconds(interval, elapsedMs) == interval - elapsedMs / 1000
    ensures interval * 1000 <= elapsedMs + 1000 * SleepSeconds(interval, elapsedMs) < interval * 1000 + 1000
  {
  }

  /** The worked timings: 300 s with 12 s elapsed sleeps 288 s; with 295 s elapsed it sleeps the floor of 10 s. */
  lemma WorkedSleeps()
    ensures SleepSeconds(300, ElapsedMs(0, 12, 0)) == 288
    ensures SleepSeconds(300, ElapsedMs(0, 295, 0)) == 10
  {
  }

  /** The batch the WAVE branch hands over for its readings: pressure, CO2 and VOC are None. */
  function WaveBatch(env: Env, r: Readings): Batch<Option<Reading>> {
    Batch(Messages(Slots(env, Some(r.radonStAvg), Some(r.radonLtAvg), Some(r.temperature), Some(r.humidity), None, None, None)),
          AuthFor(env.mqttUser, env.mqttPass))
  }

  /**
   * The WAVE branch of one cycle: connect, read the five sensors, publish when MQTT_HOST is set.
   * An exception ends the try block early; sys.exit(1) from connect is not an Exception and ends
   * the process; the finally block disconnects on every path.
   */
  method WaveBranchCycle(s: Settings, env: Env, d: Device) returns (published: Option<Batch<Option<Reading>>>, exit: Option<int>, w: Wave)
    ensures fresh(w) && w.Valid() && !w.Connected()
    ensures exit.Some? <==> Search(d.scans, SerialTest(Library, s.serial), 0) == NotFound
    ensures exit.Some? ==> exit.value == 1
    ensures published.Some? <==> Search(d.scans, SerialTest(Library, s.serial), 0).Found? && DecodeAll(d).Ok? && env.mqttHost.Some?
    ensures published.Some? ==> published.value == WaveBatch(env, DecodeAll(d).value)
  {
    published, exit := None, None;
    w := new Wave(s.serial, Library);
    SearchFailureIsException(d.scans, Library, s.serial);
    var connected := w.Connect(d.scans);
    if connected.Ok? {
      var readings := ReadAll(w, d);
      if readings.Ok? && env.mqttHost.Some? {
        var r := readings.value;
        var b := PublishMqtt(env, Some(r.radonStAvg), Some(r.radonLtAvg), Some(r.temperature), Some(r.humidity), None, None, None);
        published := Some(b);
      }
    } else if connected.fault.Exit? {
      exit := Some(connected.fault.code);
    }
    w.Disconnect();
  }

  /** How one pass of the polling loop ends: it sleeps, or SystemExit ends the process. */
  datatype CycleEnd = Sleep(seconds: int) | ProcessExit(code: int)

  /**
   * One pass of `while True`, taking days/seconds/microseconds of datetime.now() - start as
   * inputs: the selected branch, then the sleep before the next pass.
   */
  method Cycle(s: Settings, env: Env, d: Device, days: int, seconds: nat, microseconds: nat)
    returns (published: Option<Batch<Option<Reading>>>, end: CycleEnd)
    requires s.branch != WavePlusBranch
    ensures s.branch == NoBranch ==> published.None? && end.Sleep?
    ensures s.branch == WaveBranch ==>
              (published.Some? <==> Search(d.scans, SerialTest(Library, s.serial), 0).Found? && DecodeAll(d).Ok? && env.mqttHost.Some?)
    ensures s.branch == WaveBranch ==> (end.ProcessExit? <==> Search(d.scans, SerialTest(Library, s.serial), 0) == NotFound)
    ensures end.ProcessExit? ==> end.code == 1 && published.None?
    ensures end.Sleep? ==> end.seconds == SleepSeconds(s.interval, ElapsedMs(days, seconds, microseconds)) >= MinSleep
    ensures s.branch == WaveBranch && published.Some? ==>
              DecodeAll(d).Ok? && env.mqttHost.Some? && published.value == WaveBatch(env, DecodeAll(d).value)
  {
    published := None;
    if s.branch == WaveBranch {
      var exit, w;
      published, exit, w := WaveBranchCycle(s, env, d);
      if exit.Some? {
        return published, ProcessExit(exit.value);
      }
    }
    var elapsedMs := ElapsedMs(days, seconds, microseconds);
    end := Sleep(SleepSeconds(s.interval, elapsedMs));
  }
}
