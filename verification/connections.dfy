/**
 * The two kinds of connection and the link-pointer protocol between them.
 *
 * A car and a phone each hold a nullable back-reference to their peer
 * (`linkedPhone`, `linkedCar`). Each connection also carries the state of
 * its (unshown) base class that the code here touches: the outbound message
 * map flushed to its own client (`output`, last write per key wins), the map
 * of values staged for the peer (`forward`), and the close-request flag.
 *
 * Method frames name single fields of single objects, so each contract also
 * says which fields of which connections are left alone.
 */
module Connections {
  import opened Protocol
  import opened CarInfo

  /** The object as a singleton set, or the empty set for null. */
  function PhoneSet(p: PhoneConnection?): set<PhoneConnection> {
    if p == null then {} else {p}
  }

  function CarSet(c: CarConnection?): set<CarConnection> {
    if c == null then {} else {c}
  }

  /** The phones the given cars point to. */
  function LinkedPhonesOf(cars: set<CarConnection>): set<PhoneConnection>
    reads cars
  {
    set c | c in cars && c.linkedPhone != null :: c.linkedPhone
  }

  /** The cars the given phones point to. */
  function LinkedCarsOf(phones: set<PhoneConnection>): set<CarConnection>
    reads phones
  {
    set p | p in phones && p.linkedCar != null :: p.linkedCar
  }

  /** Java's `Connection` reference: a car, a phone, or null. */
  datatype Connection = CarConn(car: CarConnection) | PhoneConn(phone: PhoneConnection) | Null {
    function Cars(): set<CarConnection> {
      if CarConn? then {car} else {}
    }
    function Phones(): set<PhoneConnection> {
      if PhoneConn? then {phone} else {}
    }
  }

  /** An event for the coordinator: what happened, and to which connection. */
  datatype QueueElement = QueueElement(operationType: OperationType, connection: Connection)

  /** The capability names a car may report, and the flag each one sets. */
  function Recognise(caps: Capabilities, info: string): Capabilities {
    if info == "camera" then caps.(camera := true)
    else if info == "lights" then caps.(lights := true)
    else if info == "winkers" then caps.(winkers := true)
    else if info == UltrasonicSensorKey then caps.(frontDistanceSensor := true)
    else if info == LeftInfraredSensorKey then caps.(leftDistanceSensor := true)
    else if info == RightInfraredSensorKey then caps.(rightDistanceSensor := true)
    else if info == HallSensorKey then caps.(velocitySensor := true)
    else caps
  }

  /** The flags after the capability names `infos` have been applied in order. */
  function ApplyCapabilities(caps: Capabilities, infos: seq<string>): Capabilities
    decreases |infos|
  {
    if infos == [] then caps else ApplyCapabilities(Recognise(caps, infos[0]), infos[1..])
  }

  /** One capability name sets exactly its own flag, if it is one of the
      seven names, and nothing else. */
  lemma RecogniseExactly(caps: Capabilities, info: string)
    ensures var r := Recognise(caps, info);
      && r.camera == (caps.camera || info == "camera")
      && r.lights == (caps.lights || info == "lights")
      && r.winkers == (caps.winkers || info == "winkers")
      && r.frontDistanceSensor == (caps.frontDistanceSensor || info == UltrasonicSensorKey)
      && r.leftDistanceSensor == (caps.leftDistanceSensor || info == LeftInfraredSensorKey)
      && r.rightDistanceSensor == (caps.rightDistanceSensor || info == RightInfraredSensorKey)
      && r.velocitySensor == (caps.velocitySensor || info == HallSensorKey)
  {
    // The seven names are told apart by their lengths, except "camera" and
    // "lights", which differ in their first letter.
    if info == "camera" {
      assert |info| == 6 && info[0] == 'c';
    } else if info == "lights" {
      assert |info| == 6;
    } else if info == "winkers" {
      assert |info| == 7;
    } else if info == UltrasonicSensorKey {
      assert |info| == 16;
    } else if info == LeftInfraredSensorKey {
      assert |info| == 18;
    } else if info == RightInfraredSensorKey {
      assert |info| == 19;
    } else if info == HallSensorKey {
      assert |info| == 10;
    }
  }

  /** A flag is set afterwards iff it was set before or its name was reported:
      recognised names set exactly their own flag, other names are ignored,
      and no flag is ever cleared. */
  lemma {:induction false} ApplyCapabilitiesExactly(caps: Capabilities, infos: seq<string>)
    ensures var r := ApplyCapabilities(caps, infos);
      && r.camera == (caps.camera || "camera" in infos)
      && r.lights == (caps.lights || "lights" in infos)
      && r.winkers == (caps.winkers || "winkers" in infos)
      && r.frontDistanceSensor == (caps.frontDistanceSensor || UltrasonicSensorKey in infos)
      && r.leftDistanceSensor == (caps.leftDistanceSensor || LeftInfraredSensorKey in infos)
      && r.rightDistanceSensor == (caps.rightDistanceSensor || RightInfraredSensorKey in infos)
      && r.velocitySensor == (caps.velocitySensor || HallSensorKey in infos)
    decreases |infos|
  {
    if infos != [] {
      var info, rest := infos[0], infos[1..];
      assert infos == [info] + rest;
      RecogniseExactly(caps, info);
      ApplyCapabilitiesExactly(Recognise(caps, info), rest);
      forall name: string
        ensures name in infos <==> name == info || name in rest
      {
      }
    }
  }

  class CarConnection {
    var id: int
    var carInfo: CarInformation?
    var linkedPhone: PhoneConnection?
    var output: Message
    var forward: Message
    var closeRequested: bool

    /** A freshly accepted car: not registered, not linked, nothing buffered. */
    constructor ()
      ensures id == 0 && carInfo == null && linkedPhone == null
      ensures output == map[] && forward == map[] && !closeRequested
    {
      id := 0;
      carInfo := null;
      linkedPhone := null;
      output := map[];
      forward := map[];
      closeRequested := false;
    }

    method AddToOutputMessageMap(key: string, value: Value)
      modifies this`output
      ensures output == old(output)[key := value]
    {
      output := output[key := value];
    }

    method AddToForwardMessageMap(key: string, value: Value)
      modifies this`forward
      ensures forward == old(forward)[key := value]
    {
      forward := forward[key := value];
    }

    method FinishConnection()
      modifies this`closeRequested
      ensures closeRequested
    {
      closeRequested := true;
    }

    /** Replace the linked phone. A previously linked phone other than the new
        one is told `state=0`; the new phone is told `state=2`; unlinking
        (null) tells the car itself to stop. */
    method SetLinkedPhone(phone: PhoneConnection?)
      modifies this`linkedPhone, this`output, LinkedPhonesOf({this})`output, PhoneSet(phone)`output
      ensures linkedPhone == phone
      ensures phone == null ==> output == old(output)[StopKey := LongV(1)]
      ensures phone != null ==> output == old(output)
      ensures phone != null ==> phone.output == old(phone.output)[StateKey := LongV(Linked)]
      ensures old(linkedPhone) != null && old(linkedPhone) != phone ==>
        old(linkedPhone).output == old(linkedPhone.output)[StateKey := LongV(Disconnected)]
    {
      if linkedPhone != null {
        assert linkedPhone in LinkedPhonesOf({this});
        linkedPhone.AddToOutputMessageMap(StateKey, LongV(Disconnected));
      }
      linkedPhone := phone;
      if linkedPhone == null {
        AddToOutputMessageMap(StopKey, LongV(1));
      } else {
        linkedPhone.AddToOutputMessageMap(StateKey, LongV(Linked));
      }
    }

    /** The link part of closing a car. The linked phone q is unlinked through
        `q.SetLinkedCar(null)`, which clears the back-reference of whatever car
        q points to but leaves q's own `linkedCar` in place; then the car drops
        q. So q keeps pointing at the car it had (possibly this one). */
    method CloseConnection()
      modifies this`linkedPhone, this`output
      modifies LinkedPhonesOf({this})`output, LinkedPhonesOf({this})`linkedCar
      modifies LinkedCarsOf(LinkedPhonesOf({this}))`linkedPhone
      modifies LinkedCarsOf(LinkedPhonesOf({this}))`output
      modifies LinkedPhonesOf(LinkedCarsOf(LinkedPhonesOf({this})))`output
      ensures linkedPhone == null
      ensures old(linkedPhone) == null ==> output == old(output)
      ensures old(linkedPhone) != null ==>
        && output == old(output)[StopKey := LongV(1)]
        && old(linkedPhone).output == old(linkedPhone.output)[StateKey := LongV(Disconnected)]
        && old(linkedPhone).linkedCar == old(linkedPhone.linkedCar)
      ensures old(linkedPhone) != null && old(linkedPhone.linkedCar) != null
              && old(linkedPhone.linkedCar) != this ==>
        var c := old(linkedPhone.linkedCar);
        && c.linkedPhone == null
        && c.output == old(c.output)[StopKey := LongV(1)]
        && (old(c.linkedPhone) != null ==>
              old(c.linkedPhone).output == old(c.linkedPhone.output)[StateKey := LongV(Disconnected)])
    {
      if linkedPhone != null {
        var q := linkedPhone;
        assert LinkedPhonesOf({this}) == {q};
        assert LinkedCarsOf({q}) == CarSet(q.linkedCar);
        var c := q.linkedCar;
        q.SetLinkedCar(null);
        if c == null || c != this {
          assert linkedPhone == q;
          SetLinkedPhone(null);
        } else {
          // q's car was this one, which has already let q go.
          assert linkedPhone == null;
          SetLinkedPhone(null);
        }
      }
    }

    /** Registration (the first statements of the car's loop): the id read
        from the client, a fresh record with that id and ip and no
        capabilities, and `state=1` to the client. */
    method Register(registeredId: int, ip: Option<string>)
      modifies this`id, this`carInfo, this`output
      ensures id == registeredId
      ensures carInfo != null && fresh(carInfo)
      ensures carInfo.id == registeredId && carInfo.ip == ip && carInfo.Flags() == Uniform(false)
      ensures output == old(output)[StateKey := LongV(Accepted)]
    {
      id := registeredId;
      carInfo := new CarInformation.WithIp(registeredId, ip);
      AddToOutputMessageMap(StateKey, LongV(Accepted));
    }

    /** Sets the flag of every recognised capability name, in order. */
    method ProcessCarInformation(infos: seq<string>)
      requires carInfo != null
      modifies carInfo`camera, carInfo`lights, carInfo`winkers, carInfo`frontDistanceSensor
      modifies carInfo`leftDistanceSensor, carInfo`rightDistanceSensor, carInfo`velocitySensor
      ensures carInfo.Flags() == ApplyCapabilities(old(carInfo.Flags()), infos)
    {
      for i := 0 to |infos|
        invariant ApplyCapabilities(carInfo.Flags(), infos[i..]) == ApplyCapabilities(old(carInfo.Flags()), infos)
      {
        var info := infos[i];
        assert infos[i..] == [info] + infos[i + 1..];
        if info == "camera" {
          carInfo.SetCamera(true);
        } else if info == "lights" {
          carInfo.SetLights(true);
        } else if info == "winkers" {
          carInfo.SetWinkers(true);
        } else if info == UltrasonicSensorKey {
          carInfo.SetFrontDistanceSensor(true);
        } else if info == LeftInfraredSensorKey {
          carInfo.SetLeftDistanceSensor(true);
        } else if info == RightInfraredSensorKey {
          carInfo.SetRightDistanceSensor(true);
        } else if info == HallSensorKey {
          carInfo.SetVelocitySensor(true);
        }
      }
    }

    /** Stages for the phone exactly those of the four sensor fields whose
        value is a Long. */
    method ProcessSensorData(msg: Message)
      modifies this`forward
      ensures forward == old(forward) + LongFields(msg, SensorKeys)
    {
      ghost var keys: set<string> := {};
      assert forward == old(forward) + LongFields(msg, keys);
      LongFieldsAdd(old(forward), msg, keys, UltrasonicSensorKey);
      if HoldsLong(msg, UltrasonicSensorKey) {
        AddToForwardMessageMap(UltrasonicSensorKey, msg[UltrasonicSensorKey]);
      }
      keys := keys + {UltrasonicSensorKey};
      LongFieldsAdd(old(forward), msg, keys, LeftInfraredSensorKey);
      if HoldsLong(msg, LeftInfraredSensorKey) {
        AddToForwardMessageMap(LeftInfraredSensorKey, msg[LeftInfraredSensorKey]);
      }
      keys := keys + {LeftInfraredSensorKey};
      LongFieldsAdd(old(forward), msg, keys, RightInfraredSensorKey);
      if HoldsLong(msg, RightInfraredSensorKey) {
        AddToForwardMessageMap(RightInfraredSensorKey, msg[RightInfraredSensorKey]);
      }
      keys := keys + {RightInfraredSensorKey};
      LongFieldsAdd(old(forward), msg, keys, HallSensorKey);
      if HoldsLong(msg, HallSensorKey) {
        AddToForwardMessageMap(HallSensorKey, msg[HallSensorKey]);
      }
      keys := keys + {HallSensorKey};
      assert keys == SensorKeys;
    }

    /** One received message: a capability list updates the record and emits
        UPDATE_INFO; while a phone is linked, a Long `phoneControl` and the
        Long sensor fields are staged for it. */
    method ProcessMessage(msg: Message) returns (events: seq<OperationType>)
      requires carInfo != null
      modifies this`forward
      modifies carInfo`camera, carInfo`lights, carInfo`winkers, carInfo`frontDistanceSensor
      modifies carInfo`leftDistanceSensor, carInfo`rightDistanceSensor, carInfo`velocitySensor
      ensures events == if PropertiesKey in msg && msg[PropertiesKey].ListV? then [UpdateInfo] else []
      ensures carInfo.Flags() ==
        if PropertiesKey in msg && msg[PropertiesKey].ListV?
        then ApplyCapabilities(old(carInfo.Flags()), msg[PropertiesKey].items)
        else old(carInfo.Flags())
      ensures forward ==
        if linkedPhone != null then old(forward) + LongFields(msg, {PhoneControlKey} + SensorKeys)
        else old(forward)
    {
      events := [];
      if PropertiesKey in msg && msg[PropertiesKey].ListV? {
        ProcessCarInformation(msg[PropertiesKey].items);
        events := events + [UpdateInfo];
      }
      if linkedPhone != null {
        if HoldsLong(msg, PhoneControlKey) {
          AddToForwardMessageMap(PhoneControlKey, msg[PhoneControlKey]);
        }
        ProcessSensorData(msg);
      }
    }
  }

  class PhoneConnection {
    var id: string
    var linkedCar: CarConnection?
    var linkRequestId: int
    var output: Message
    var forward: Message
    var closeRequested: bool

    /** A freshly accepted phone: not registered, not linked, no request. */
    constructor ()
      ensures id == "" && linkedCar == null && linkRequestId == 0
      ensures output == map[] && forward == map[] && !closeRequested
    {
      id := "";
      linkedCar := null;
      linkRequestId := 0;
      output := map[];
      forward := map[];
      closeRequested := false;
    }

    method AddToOutputMessageMap(key: string, value: Value)
      modifies this`output
      ensures output == old(output)[key := value]
    {
      output := output[key := value];
    }

    method AddToForwardMessageMap(key: string, value: Value)
      modifies this`forward
      ensures forward == old(forward)[key := value]
    {
      forward := forward[key := value];
    }

    method FinishConnection()
      modifies this`closeRequested
      ensures closeRequested
    {
      closeRequested := true;
    }

    /** The linked car, as a set, when `unlink` holds; otherwise nothing. */
    function UnlinkTarget(unlink: bool): set<CarConnection>
      reads this
    {
      if unlink then CarSet(linkedCar) else {}
    }

    /** Registration: the id read from the client. */
    method Register(registeredId: string)
      modifies this`id
      ensures id == registeredId
    {
      id := registeredId;
    }

    /** Unlinking (null while linked) goes through the car, which drops its
        back-reference and stops, and tells this phone `state=0` -- and returns
        without clearing this phone's own `linkedCar`. Any other call only
        assigns the field. */
    method SetLinkedCar(car: CarConnection?)
      modifies this`linkedCar, this`output
      modifies UnlinkTarget(car == null)`linkedPhone, UnlinkTarget(car == null)`output
      modifies LinkedPhonesOf(UnlinkTarget(car == null))`output
      ensures car == null && old(linkedCar) != null ==>
        var c := old(linkedCar);
        && linkedCar == c
        && c.linkedPhone == null
        && c.output == old(c.output)[StopKey := LongV(1)]
        && output == old(output)[StateKey := LongV(Disconnected)]
        && (old(c.linkedPhone) != null ==>
              old(c.linkedPhone).output == old(c.linkedPhone.output)[StateKey := LongV(Disconnected)])
      ensures !(car == null && old(linkedCar) != null) ==> linkedCar == car && output == old(output)
    {
      if car == null && linkedCar != null {
        linkedCar.SetLinkedPhone(null);
        AddToOutputMessageMap(StateKey, LongV(Disconnected));
        return;
      }
      linkedCar := car;
    }

    /** The link part of closing a phone: the linked car drops its
        back-reference (and stops), then the phone drops the car. */
    method CloseConnection()
      modifies this`linkedCar, LinkedCarsOf({this})`linkedPhone, LinkedCarsOf({this})`output
      modifies LinkedPhonesOf(LinkedCarsOf({this}))`output
      ensures linkedCar == null
      ensures old(linkedCar) != null ==>
        var c := old(linkedCar);
        && c.linkedPhone == null
        && c.output == old(c.output)[StopKey := LongV(1)]
        && (old(c.linkedPhone) != null ==>
              old(c.linkedPhone).output == old(c.linkedPhone.output)[StateKey := LongV(Disconnected)])
    {
      if linkedCar != null {
        assert LinkedCarsOf({this}) == {linkedCar};
        linkedCar.SetLinkedPhone(null);
        linkedCar := null;
      }
    }

    /** A `connect` value: a Long truncated to 32 bits; a positive id is
        recorded as the link request and emits LINK; -1 while linked unlinks
        locally, without an event; anything else changes nothing. */
    method ProcessConnectRequest(carId: Value) returns (events: seq<OperationType>)
      modifies this`linkRequestId, this`linkedCar
      modifies UnlinkTarget(IsUnlinkRequest(carId))`linkedPhone, UnlinkTarget(IsUnlinkRequest(carId))`output
      modifies LinkedPhonesOf(UnlinkTarget(IsUnlinkRequest(carId)))`output
      ensures events == if IsLinkRequest(carId) then [Link] else []
      ensures linkRequestId == if IsLinkRequest(carId) then IntValue(carId.n) else old(linkRequestId)
      ensures linkedCar == if IsUnlinkRequest(carId) then null else old(linkedCar)
      ensures IsUnlinkRequest(carId) && old(linkedCar) != null ==>
        var c := old(linkedCar);
        && c.linkedPhone == null
        && c.output == old(c.output)[StopKey := LongV(1)]
        && (old(c.linkedPhone) != null ==>
              old(c.linkedPhone).output == old(c.linkedPhone.output)[StateKey := LongV(Disconnected)])
    {
      events := [];
      if !carId.LongV? {
        return;
      }
      var id := IntValue(carId.n);
      if id > 0 {
        linkRequestId := id;
        events := [Link];
      } else if id == -1 && linkedCar != null {
        linkedCar.SetLinkedPhone(null);
        linkedCar := null;
      }
    }

    /** While linked, stages exactly the forward keywords whose value is a Long. */
    method ProcessRemainingData(msg: Message, forwardKeywords: seq<string>)
      modifies this`forward
      ensures linkedCar == null ==> forward == old(forward)
      ensures linkedCar != null ==> forward == old(forward) + LongFields(msg, KeySet(forwardKeywords))
    {
      if linkedCar == null {
        return;
      }
      for i := 0 to |forwardKeywords|
        invariant forward == old(forward) + LongFields(msg, KeySet(forwardKeywords[..i]))
      {
        var keyword := forwardKeywords[i];
        assert KeySet(forwardKeywords[..i + 1]) == KeySet(forwardKeywords[..i]) + {keyword} by {
          assert forwardKeywords[..i + 1] == forwardKeywords[..i] + [keyword];
        }
        LongFieldsAdd(old(forward), msg, KeySet(forwardKeywords[..i]), keyword);
        if HoldsLong(msg, keyword) {
          AddToForwardMessageMap(keyword, msg[keyword]);
        }
      }
      assert forwardKeywords[..|forwardKeywords|] == forwardKeywords;
    }

    /** One received message: a Long `connect` field is handled as a connect
        request (and `request` is then not looked at); afterwards, if the
        phone is still linked, its forward keywords are staged for the car. */
    method ProcessMessage(msg: Message, forwardKeywords: seq<string>) returns (events: seq<OperationType>)
      modifies this`linkRequestId, this`linkedCar, this`forward
      modifies UnlinkTarget(IsUnlinkMessage(msg))`linkedPhone, UnlinkTarget(IsUnlinkMessage(msg))`output
      modifies LinkedPhonesOf(UnlinkTarget(IsUnlinkMessage(msg)))`output
      ensures events == if HoldsLong(msg, ConnectKey) && IsLinkRequest(msg[ConnectKey]) then [Link] else []
      ensures linkRequestId ==
        if HoldsLong(msg, ConnectKey) && IsLinkRequest(msg[ConnectKey])
        then IntValue(msg[ConnectKey].n) else old(linkRequestId)
      ensures linkedCar == if IsUnlinkMessage(msg) then null else old(linkedCar)
      ensures IsUnlinkMessage(msg) && old(linkedCar) != null ==> old(linkedCar).linkedPhone == null
      ensures forward ==
        if linkedCar != null then old(forward) + LongFields(msg, KeySet(forwardKeywords))
        else old(forward)
    {
      events := [];
      if HoldsLong(msg, ConnectKey) {
        events := ProcessConnectRequest(msg[ConnectKey]);
      }
      if linkedCar != null {
        ProcessRemainingData(msg, forwardKeywords);
      }
    }
  }

  /** A `connect` value that asks to be linked: a Long whose 32-bit truncation is positive. */
  predicate IsLinkRequest(v: Value) {
    v.LongV? && IntValue(v.n) > 0
  }

  /** A `connect` value that asks to be unlinked: a Long whose 32-bit truncation is -1. */
  predicate IsUnlinkRequest(v: Value) {
    v.LongV? && IntValue(v.n) == -1
  }

  /** A message whose `connect` field asks to be unlinked. */
  predicate IsUnlinkMessage(msg: Message) {
    HoldsLong(msg, ConnectKey) && IsUnlinkRequest(msg[ConnectKey])
  }

  /** Unlinking from the phone side leaves a half-link: the car no longer
      points at the phone, but the phone still points at the car. */
  method PhoneSideUnlinkLeavesHalfLink() returns (car: CarConnection, phone: PhoneConnection)
    ensures car.linkedPhone == null && phone.linkedCar == car
    ensures StopKey in car.output && car.output[StopKey] == LongV(1)
    ensures StateKey in phone.output && phone.output[StateKey] == LongV(Disconnected)
  {
    car := new CarConnection();
    phone := new PhoneConnection();
    car.SetLinkedPhone(phone);
    phone.SetLinkedCar(car);
    phone.SetLinkedCar(null);
  }

  /** Linking a car to a second phone the way the coordinator does (car side,
      then phone side) leaves the first phone pointing at the car: it is told
      `state=0`, but its `linkedCar` is not cleared. */
  method RelinkLeavesFirstPhonePointing()
    returns (car: CarConnection, first: PhoneConnection, second: PhoneConnection)
    ensures car.linkedPhone == second && second.linkedCar == car
    ensures first.linkedCar == car && first != second
    ensures StateKey in first.output && first.output[StateKey] == LongV(Disconnected)
  {
    car := new CarConnection();
    first := new PhoneConnection();
    second := new PhoneConnection();
    car.SetLinkedPhone(first);
    first.SetLinkedCar(car);
    car.SetLinkedPhone(second);
    second.SetLinkedCar(car);
  }
}
