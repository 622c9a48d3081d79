/**
 * Wire-level vocabulary shared by the car and phone connections and the
 * coordinator: decoded message values, the reserved field names, the kinds
 * of coordinator events, and Java's `Long.intValue` truncation.
 */
module Protocol {

  datatype Option<T> = None | Some(value: T)

  /** One decoded value of a received message: a Java `Long`, a `String`,
      a `List<String>`, or anything else the decoder produced. */
  datatype Value = LongV(n: int) | StrV(s: string) | ListV(items: seq<string>) | OtherV

  /** A decoded message, or an outbound / forward buffer: field name to value. */
  type Message = map<string, Value>

  /** The reserved field names. Only their distinctness matters to the model;
      the strings follow the Java identifiers of the keyword set. */
  const StateKey: string := "state"
  const StopKey: string := "stop"
  const ConnectKey: string := "connect"
  const RequestKey: string := "request"
  const PropertiesKey: string := "properties"
  const PhoneControlKey: string := "phoneControl"
  const UltrasonicSensorKey: string := "ultrasonicSensor"
  const LeftInfraredSensorKey: string := "leftInfraredSensor"
  const RightInfraredSensorKey: string := "rightInfraredSensor"
  const HallSensorKey: string := "hallSensor"

  /** The four sensor fields a car forwards to its phone. */
  const SensorKeys: set<string> :=
    {UltrasonicSensorKey, LeftInfraredSensorKey, RightInfraredSensorKey, HallSensorKey}

  /** Status codes written under `state`. */
  const Rejected: int := -1
  const Disconnected: int := 0
  const Accepted: int := 1
  const Linked: int := 2

  /** The kind of a coordinator event (a queue element's operation type). */
  datatype OperationType = SocketError | Connect | Register | Link | Close | UpdateInfo

  /** `decodedDataset.get(key) instanceof Long`. */
  predicate HoldsLong(msg: Message, key: string) {
    key in msg && msg[key].LongV?
  }

  /** The fields among `keys` whose value is a Long: what the staging loops copy. */
  function LongFields(msg: Message, keys: set<string>): Message {
    map k | k in keys && HoldsLong(msg, k) :: msg[k]
  }

  /** The keywords of a list, as a set. */
  function KeySet(keys: seq<string>): set<string> {
    set k | k in keys
  }

  /** Staging one more keyword: the buffer gains that field exactly when its
      value is a Long, written last. */
  lemma LongFieldsAdd(buf: Message, msg: Message, keys: set<string>, k: string)
    ensures buf + LongFields(msg, keys + {k}) ==
      if HoldsLong(msg, k) then (buf + LongFields(msg, keys))[k := msg[k]]
      else buf + LongFields(msg, keys)
  {
  }

  const TwoTo32: int := 0x1_0000_0000
  const TwoTo31: int := 0x8000_0000

  predicate IsInt32(x: int) {
    -TwoTo31 <= x < TwoTo31
  }

  /** `Long.intValue()`: keep the low 32 bits, read them as a signed int.
      The result is the unique 32-bit value congruent to `x` modulo 2^32. */
  function IntValue(x: int): (r: int)
    ensures IsInt32(r)
    ensures (x - r) % TwoTo32 == 0
    ensures IsInt32(x) ==> r == x
  {
    var low := x % TwoTo32;
    if low >= TwoTo31 then low - TwoTo32 else low
  }

  /** A `connect` value of 2^32 - 1 truncates to -1 (the unlink request), and
      2^32 + 42 truncates to 42 (a link request for car 42). */
  lemma IntValueWrapsAround()
    ensures IntValue(TwoTo32 - 1) == -1
    ensures IntValue(TwoTo32 + 42) == 42
    ensures IntValue(-TwoTo32) == 0
  {
  }
}
