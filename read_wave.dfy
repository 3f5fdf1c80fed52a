/**
 * The single-shot script (read_wave.py): serial guards, one connect/read/publish pass with its
 * own copy of the Wave class and matcher, and a disconnect in `finally`.
 */
module ReadWave {
  import opened Python
  import opened SerialMatch
  import opened SensorDecode
  import opened WaveDevice
  import opened MqttBatch
  import opened Config

  /** The environment variables the script reads; None for an unset one. */
  datatype Env = Env(
    mqttHost: Option<string>,
    mqttUser: Option<string>,
    mqttPass: Option<string>,
    topicLt: Option<string>,  // MQTT_TOPIC_RADON_LT
    topicSt: Option<string>,  // MQTT_TOPIC_RADON_ST
    topicT: Option<string>,   // MQTT_TOPIC_RADON_TEMPERATURE
    topicH: Option<string>,   // MQTT_TOPIC_RADON_HUMIDITY
    topicL: Option<string>,   // MQTT_TOPIC_RADON_LIGHT: read and logged, never used for a message
    awSerial: Option<string>)

  /** The four candidate entries, in the order publish_mqtt appends them: LT, ST, temperature, humidity. */
  function Slots<V>(env: Env, st: V, lt: V, temp: V, humidity: V): seq<Slot<V>> {
    [Slot(env.topicLt, lt), Slot(env.topicSt, st), Slot(env.topicT, temp), Slot(env.topicH, humidity)]
  }

  /** publish_mqtt up to publish.multiple; the light argument is accepted and never appended. */
  method PublishMqtt<V, L>(env: Env, st: V, lt: V, temp: V, humidity: V, light: L) returns (b: Batch<V>)
    ensures b.msgs == Messages(Slots(env, st, lt, temp, humidity))
    ensures b.auth == AuthFor(env.mqttUser, env.mqttPass)
    ensures |b.msgs| <= 4
  {
    var msgs: seq<Message<V>> := [];
    var auth: Option<Auth> := None;
    if env.mqttUser.Some? {
      auth := Some(Auth(env.mqttUser.value, env.mqttPass));
    }
    msgs := AppendIfSet(msgs, env.topicLt, lt);
    msgs := AppendIfSet(msgs, env.topicSt, st);
    msgs := AppendIfSet(msgs, env.topicT, temp);
    msgs := AppendIfSet(msgs, env.topicH, humidity);
    ghost var slots := Slots(env, st, lt, temp, humidity);
    SlotsMessages(slots);
    MessagesShape(slots);
    b := Batch(msgs, auth);
  }

  /** The batch of four candidates is their parts in order. */
  lemma SlotsMessages<V>(s: seq<Slot<V>>)
    requires |s| == 4
    ensures Messages(s) == [] + Part(s[0]) + Part(s[1]) + Part(s[2]) + Part(s[3])
  {
    assert s[..0] == [];
    PrefixStep(s, 0);
    PrefixStep(s, 1);
    PrefixStep(s, 2);
    PrefixStep(s, 3);
    assert s[..4] == s;
  }

  /** Each of the four sensors is in the batch exactly when its topic is set, at its place in LT, ST, T, H order. */
  lemma ScriptBatchEntries<V>(env: Env, st: V, lt: V, temp: V, humidity: V, i: nat, other: V)
    requires i < 4
    ensures var slots := Slots(env, st, lt, temp, humidity);
            slots[i].topic.Some? ==>
              Rank(slots, i) < |Messages(slots)| &&
              Messages(slots)[Rank(slots, i)] == Message(slots[i].topic.value, slots[i].payload, 1, false)
    ensures var slots := Slots(env, st, lt, temp, humidity);
            slots[i].topic.None? ==> Messages(slots[i := Slot(None, other)]) == Messages(slots)
  {
    var slots := Slots(env, st, lt, temp, humidity);
    if slots[i].topic.Some? {
      SetSlotPublished(slots, i);
    } else {
      UnsetSlotIgnored(slots, i, other);
    }
  }

  /** The batch the script hands over for its readings. */
  function ScriptBatch(env: Env, r: Readings): Batch<Reading> {
    Batch(Messages(Slots(env, r.radonStAvg, r.radonLtAvg, r.temperature, r.humidity)), AuthFor(env.mqttUser, env.mqttPass))
  }

  /**
   * The script from the serial guards on: guards, then try connect and the five reads, publish
   * when MQTT_HOST is set, and disconnect in `finally`. An Exception is logged and the script ends
   * normally; sys.exit(1) from a guard or from connect ends it with code 1.
   */
  method Run(env: Env, d: Device) returns (exitCode: int, published: Option<Batch<Reading>>, w: Wave?)
    ensures ValidateSerial(env.awSerial).Err? ==> exitCode == 1 && published.None? && w == null
    ensures ValidateSerial(env.awSerial).Ok? ==>
              w != null && fresh(w) && w.Valid() && !w.Connected() &&
              (exitCode == 1 <==> Search(d.scans, SerialTest(Script, env.awSerial.value), 0) == NotFound) &&
              (exitCode == 0 || exitCode == 1)
    ensures published.Some? <==>
              ValidateSerial(env.awSerial).Ok? && Search(d.scans, SerialTest(Script, env.awSerial.value), 0).Found? &&
              DecodeAll(d).Ok? && env.mqttHost.Some?
    ensures published.Some? ==> published.value == ScriptBatch(env, DecodeAll(d).value)
  {
    published, w := None, null;
    var serial := ValidateSerial(env.awSerial);
    if serial.Err? {
      return 1, None, null;
    }
    exitCode := 0;
    var wave := new Wave(serial.value, Script);
    w := wave;
    SearchFailureIsException(d.scans, Script, serial.value);
    var connected := wave.Connect(d.scans);
    if connected.Ok? {
      var readings := ReadAll(wave, d);
      if readings.Ok? && env.mqttHost.Some? {
        var r := readings.value;
        var b := PublishMqtt(env, r.radonStAvg, r.radonLtAvg, r.temperature, r.humidity, 0);
        published := Some(b);
      }
    } else if connected.fault.Exit? {
      exitCode := connected.fault.code;
    }
    wave.Disconnect();
  }

  /**
   * A device without manufacturer data ends the script's scan with a TypeError, where the library
   * copy passes over it: with it first in the first scan, the script never finds anything.
   */
  lemma AbsentDataAbortsScriptScan(scans: seq<seq<Advertisement>>, serial: string, addr: Address)
    requires |scans| > 0 && |scans[0]| > 0 && scans[0][0] == Advertisement(addr, Absent)
    ensures Search(scans, SerialTest(Script, serial), 0) == Failed(TypeError)
    ensures IsDigit(serial) ==> Passes(SerialTest(Library, serial), scans[0][0])
  {
  }
}
