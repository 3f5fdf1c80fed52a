/** The batch both publish_mqtt functions hand to paho's publish.multiple: messages and optional auth. */
module MqttBatch {
  import opened Python

  /** One (topic, payload, qos, retain) tuple. */
  datatype Message<V> = Message(topic: string, payload: V, qos: nat, retain: bool)

  /** The auth dictionary {'username': ..., 'password': ...}; the password may be None. */
  datatype Auth = Auth(username: string, password: Option<string>)

  datatype Batch<V> = Batch(msgs: seq<Message<V>>, auth: Option<Auth>)

  /** One sensor's candidate entry: the topic configured for it (None when unset) and its value. */
  datatype Slot<V> = Slot(topic: Option<string>, payload: V)

  /** The entry publish_mqtt appends for a slot whose topic is set. */
  function EntryFor<V>(s: Slot<V>): Message<V>
    requires s.topic.Some?
  {
    Message(s.topic.value, s.payload, 1, false)
  }

  /** What one slot contributes: its entry when its topic is set, nothing otherwise. */
  function Part<V>(s: Slot<V>): seq<Message<V>> {
    if s.topic.Some? then [EntryFor(s)] else []
  }

  /** The entries for the slots whose topic is set, in slot order. */
  function Messages<V>(slots: seq<Slot<V>>): seq<Message<V>> {
    if slots == [] then [] else Part(slots[0]) + Messages(slots[1..])
  }

  /** No more entries than slots, and every entry is sent with qos 1 and retain False. */
  lemma {:induction false} MessagesShape<V>(slots: seq<Slot<V>>)
    ensures |Messages(slots)| <= |slots|
    ensures forall k :: 0 <= k < |Messages(slots)| ==> Messages(slots)[k].qos == 1 && !Messages(slots)[k].retain
  {
    if slots != [] {
      MessagesShape(slots[1..]);
    }
  }

  lemma {:induction false} MessagesAppend<V>(a: seq<Slot<V>>, b: seq<Slot<V>>)
    ensures Messages(a + b) == Messages(a) + Messages(b)
  {
    if a == [] {
      assert a + b == b;
    } else {
      assert (a + b)[1..] == a[1..] + b;
      MessagesAppend(a[1..], b);
    }
  }

  /** `if topic != None: mqtt_msgs.append((topic, payload, 1, False))`. */
  method AppendIfSet<V>(msgs: seq<Message<V>>, topic: Option<string>, payload: V) returns (msgs': seq<Message<V>>)
    ensures msgs' == msgs + Part(Slot(topic, payload))
  {
    msgs' := msgs;
    if topic.Some? {
      msgs' := msgs' + [Message(topic.value, payload, 1, false)];
    }
  }

  /** Appending one slot appends its entry exactly when its topic is set. */
  lemma MessagesSnoc<V>(slots: seq<Slot<V>>, s: Slot<V>)
    ensures Messages(slots + [s]) == Messages(slots) + Part(s)
  {
    MessagesAppend(slots, [s]);
    assert Messages([s]) == Part(s) + Messages([]);
  }

  /** Building the batch slot by slot: the entries of a prefix one slot longer. */
  lemma PrefixStep<V>(slots: seq<Slot<V>>, k: nat)
    requires k < |slots|
    ensures Messages(slots[..k + 1]) == Messages(slots[..k]) + Part(slots[k])
  {
    assert slots[..k + 1] == slots[..k] + [slots[k]];
    MessagesSnoc(slots[..k], slots[k]);
  }

  /** The number of slots before index i whose topic is set: the position of slot i's entry. */
  function Rank<V>(slots: seq<Slot<V>>, i: nat): nat
    requires i <= |slots|
  {
    if i == 0 then 0 else Rank(slots, i - 1) + (if slots[i - 1].topic.Some? then 1 else 0)
  }

  lemma {:induction false} RankShift<V>(slots: seq<Slot<V>>, i: nat)
    requires 0 < i <= |slots|
    ensures Rank(slots, i) == (if slots[0].topic.Some? then 1 else 0) + Rank(slots[1..], i - 1)
  {
    if i > 1 {
      RankShift(slots, i - 1);
    }
  }

  /** Exactly one entry per slot whose topic is set. */
  lemma {:induction false} MessagesLength<V>(slots: seq<Slot<V>>)
    ensures |Messages(slots)| == Rank(slots, |slots|)
  {
    if slots != [] {
      MessagesLength(slots[1..]);
      RankShift(slots, |slots|);
    }
  }

  /** A slot whose topic is set has its entry, with its payload, qos 1 and retain False, at position Rank(slots, i). */
  lemma {:induction false} SetSlotPublished<V>(slots: seq<Slot<V>>, i: nat)
    requires i < |slots| && slots[i].topic.Some?
    ensures Rank(slots, i) < |Messages(slots)|
    ensures Messages(slots)[Rank(slots, i)] == Message(slots[i].topic.value, slots[i].payload, 1, false)
  {
    if i == 0 {
    } else {
      SetSlotPublished(slots[1..], i - 1);
      RankShift(slots, i);
    }
  }

  /** A slot whose topic is unset contributes nothing: the batch is the same whatever its value. */
  lemma {:induction false} UnsetSlotIgnored<V>(slots: seq<Slot<V>>, i: nat, v: V)
    requires i < |slots| && slots[i].topic.None?
    ensures Messages(slots[i := Slot(None, v)]) == Messages(slots)
  {
    if i > 0 {
      assert slots[i := Slot(None, v)][1..] == slots[1..][i - 1 := Slot(None, v)];
      UnsetSlotIgnored(slots[1..], i - 1, v);
    }
  }

  /** Entries keep slot order: a set slot earlier in the list has its entry earlier in the batch. */
  lemma {:induction false} RankIncreasing<V>(slots: seq<Slot<V>>, i: nat, j: nat)
    requires i < j <= |slots| && slots[i].topic.Some?
    ensures Rank(slots, i) < Rank(slots, j)
    decreases j
  {
    if j > i + 1 {
      RankIncreasing(slots, i, j - 1);
    }
  }

  /** Every entry in the batch comes from a slot whose topic is set. */
  lemma {:induction false} EntryFromSetSlot<V>(slots: seq<Slot<V>>, k: nat)
    requires k < |Messages(slots)|
    ensures exists i :: 0 <= i < |slots| && slots[i].topic.Some? && Messages(slots)[k] == EntryFor(slots[i])
  {
    if slots[0].topic.Some? && k == 0 {
      assert Messages(slots)[0] == EntryFor(slots[0]);
    } else {
      var k' := if slots[0].topic.Some? then k - 1 else k;
      EntryFromSetSlot(slots[1..], k');
      var i :| 0 <= i < |slots[1..]| && slots[1..][i].topic.Some? && Messages(slots[1..])[k'] == EntryFor(slots[1..][i]);
      assert slots[i + 1] == slots[1..][i];
    }
  }

  /** The auth publish_mqtt passes: present exactly when a user is configured, carrying user and password. */
  function AuthFor(user: Option<string>, pass: Option<string>): (a: Option<Auth>)
    ensures a.Some? <==> user.Some?
    ensures a.Some? ==> a.value.username == user.value && a.value.password == pass
  {
    if user.Some? then Some(Auth(user.value, pass)) else None
  }
}
