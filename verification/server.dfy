/**
 * The coordinator: the registries of connections, the whitelist that says
 * which phone may control which car, the fleet snapshot of car records, and
 * the handlers the single coordinator thread runs for each queued event.
 *
 * The link handlers follow the code's pointer protocol exactly, including
 * its half-links: unlinking a phone through `SetLinkedCar(null)` clears the
 * car's back-reference but leaves the phone's own `linkedCar` in place.
 */
module Coordinator {
  import opened Protocol
  import opened Seqs
  import opened CarInfo
  import opened Connections

  /** How handling one event ends: normally, by exiting the process
      (`System.exit`), or by a NullPointerException that ends the thread. */
  datatype Outcome = Continue | Exit | Abort

  function CarsOf(devs: seq<Connection>): set<CarConnection> {
    set d | d in devs && d.CarConn? :: d.car
  }

  function PhonesOf(devs: seq<Connection>): set<PhoneConnection> {
    set d | d in devs && d.PhoneConn? :: d.phone
  }

  function InfoSet(infos: seq<CarInformation?>): set<CarInformation> {
    set i | 0 <= i < |infos| && infos[i] != null :: infos[i]
  }

  /** The outbound map of a connection (empty for null). */
  function OutputOf(c: Connection): Message
    reads c.Cars(), c.Phones()
  {
    match c
    case CarConn(car) => car.output
    case PhoneConn(phone) => phone.output
    case Null => map[]
  }

  predicate IsCarWithId(d: Connection, carId: int)
    reads d.Cars()
  {
    d.CarConn? && d.car.id == carId
  }

  predicate IsPhoneWithId(d: Connection, phoneId: string)
    reads d.Phones()
  {
    d.PhoneConn? && d.phone.id == phoneId
  }

  /** The first position at or after `k` holding a car with this id. */
  function FirstCarFrom(devs: seq<Connection>, carId: int, k: nat): (r: Option<nat>)
    requires k <= |devs|
    reads CarsOf(devs)
    ensures r.Some? ==> k <= r.value < |devs| && IsCarWithId(devs[r.value], carId)
    ensures forall j | k <= j < |devs| && (r.None? || j < r.value) :: !IsCarWithId(devs[j], carId)
    decreases |devs| - k
  {
    if k == |devs| then None
    else if IsCarWithId(devs[k], carId) then Some(k)
    else FirstCarFrom(devs, carId, k + 1)
  }

  /** The first position at or after `k` holding a phone with this id. */
  function FirstPhoneFrom(devs: seq<Connection>, phoneId: string, k: nat): (r: Option<nat>)
    requires k <= |devs|
    reads PhonesOf(devs)
    ensures r.Some? ==> k <= r.value < |devs| && IsPhoneWithId(devs[r.value], phoneId)
    ensures forall j | k <= j < |devs| && (r.None? || j < r.value) :: !IsPhoneWithId(devs[j], phoneId)
    decreases |devs| - k
  {
    if k == |devs| then None
    else if IsPhoneWithId(devs[k], phoneId) then Some(k)
    else FirstPhoneFrom(devs, phoneId, k + 1)
  }

  /** The car `findCar` answers: the first registered car with this id, or null
      exactly when there is none. */
  function FoundCar(devs: seq<Connection>, carId: int): (car: CarConnection?)
    reads CarsOf(devs)
    ensures car != null ==> car in CarsOf(devs) && car.id == carId
    ensures car == null <==> forall j | 0 <= j < |devs| :: !IsCarWithId(devs[j], carId)
  {
    match FirstCarFrom(devs, carId, 0)
    case None => null
    case Some(i) => devs[i].car
  }

  /** The phone `findPhone` answers: the first registered phone with this id,
      or null exactly when there is none. */
  function FoundPhone(devs: seq<Connection>, phoneId: string): (phone: PhoneConnection?)
    reads PhonesOf(devs)
    ensures phone != null ==> phone in PhonesOf(devs) && phone.id == phoneId
    ensures phone == null <==> forall j | 0 <= j < |devs| :: !IsPhoneWithId(devs[j], phoneId)
  {
    match FirstPhoneFrom(devs, phoneId, 0)
    case None => null
    case Some(i) => devs[i].phone
  }

  /** No two registered cars share an id. */
  predicate UniqueCarIds(devs: seq<Connection>)
    reads CarsOf(devs)
  {
    forall i, j | 0 <= i < j < |devs| && devs[i].CarConn? && devs[j].CarConn? ::
      devs[i].car.id != devs[j].car.id
  }

  /** `List.remove(o)` on the record list: null matches null, anything else
      matches by `equals`, that is by id. */
  predicate Matches(o: CarInformation?, e: CarInformation?)
    reads o, e
    ensures Matches(o, e) <==> if o == null then e == null else e != null && e.id == o.id
  {
    if o == null then e == null else o.Equals(e)
  }

  /** The first position at or after `k` whose record `o` matches. */
  function FirstRecordFrom(infos: seq<CarInformation?>, o: CarInformation?, k: nat): (r: Option<nat>)
    requires k <= |infos|
    reads InfoSet(infos), o
    ensures r.Some? ==> k <= r.value < |infos| && Matches(o, infos[r.value])
    ensures forall j | k <= j < |infos| && (r.None? || j < r.value) :: !Matches(o, infos[j])
    decreases |infos| - k
  {
    if k == |infos| then None
    else if Matches(o, infos[k]) then Some(k)
    else FirstRecordFrom(infos, o, k + 1)
  }

  /** `carInformations.remove(o)`: drops the first matching record, if any. */
  function RemoveRecord(infos: seq<CarInformation?>, o: CarInformation?): (r: seq<CarInformation?>)
    reads InfoSet(infos), o
    ensures (forall i | 0 <= i < |infos| :: !Matches(o, infos[i])) ==> r == infos
    ensures (exists i | 0 <= i < |infos| :: Matches(o, infos[i])) ==> |r| == |infos| - 1
    ensures forall x | x in r :: x in infos
  {
    match FirstRecordFrom(infos, o, 0)
    case None => infos
    case Some(i) =>
      assert forall x | x in infos[..i] + infos[i + 1..] :: x in infos[..i] || x in infos[i + 1..];
      infos[..i] + infos[i + 1..]
  }

  /** The record `remove` drops is the first one that matches; the records
      before and after it keep their order. */
  lemma RemoveRecordDropsFirstMatch(infos: seq<CarInformation?>, o: CarInformation?, i: nat)
    requires i < |infos| && Matches(o, infos[i])
    requires forall j | 0 <= j < i :: !Matches(o, infos[j])
    ensures RemoveRecord(infos, o) == infos[..i] + infos[i + 1..]
  {
    assert FirstRecordFrom(infos, o, 0) == Some(i);
  }

  /** The fleet snapshot holds at most one record per id. */
  predicate UniqueInfoIds(infos: seq<CarInformation?>)
    reads InfoSet(infos)
  {
    forall i, j | 0 <= i < j < |infos| && infos[i] != null && infos[j] != null ::
      infos[i].id != infos[j].id
  }

  /** Every link of a car or phone among these points back into them. */
  predicate LinksClosed(cars: set<CarConnection>, phones: set<PhoneConnection>)
    reads cars`linkedPhone, phones`linkedCar
  {
    && (forall car | car in cars :: car.linkedPhone == null || car.linkedPhone in phones)
    && (forall phone | phone in phones :: phone.linkedCar == null || phone.linkedCar in cars)
  }

  /** A list whose entries all occur in another registers no other cars or phones. */
  lemma RegisteredSubset(a: seq<Connection>, b: seq<Connection>)
    requires forall d | d in a :: d in b
    ensures CarsOf(a) <= CarsOf(b) && PhonesOf(a) <= PhonesOf(b)
  {
  }

  /** Removing one entry keeps car ids unique. */
  lemma {:induction false} RemoveFirstKeepsCarIdsUnique(devs: seq<Connection>, c: Connection)
    requires UniqueCarIds(devs)
    ensures UniqueCarIds(RemoveFirst(devs, c))
  {
    if c in devs {
      var k := IndexOf(devs, c);
      var r := RemoveFirst(devs, c);
      RemoveFirstAt(devs, c);
      forall i, j | 0 <= i < j < |r| && r[i].CarConn? && r[j].CarConn?
        ensures r[i].car.id != r[j].car.id
      {
        RemoveAtSelects(devs, k, i);
        RemoveAtSelects(devs, k, j);
      }
    }
  }

  /** Appending a phone, or a car whose id no registered car has, keeps car
      ids unique. */
  lemma AppendKeepsCarIdsUnique(devs: seq<Connection>, d: Connection)
    requires UniqueCarIds(devs)
    requires d.CarConn? ==> FoundCar(devs, d.car.id) == null
    ensures UniqueCarIds(devs + [d])
  {
    var r := devs + [d];
    forall i, j | 0 <= i < j < |r| && r[i].CarConn? && r[j].CarConn?
      ensures r[i].car.id != r[j].car.id
    {
      if j == |devs| {
        assert !IsCarWithId(devs[i], d.car.id);
      }
    }
  }

  /** Replacing the record of a car (remove by id, then append) keeps one
      record per id, puts the new record last, and keeps every record with
      another id. */
  lemma {:induction false} ReplaceRecordKeepsIdsUnique(infos: seq<CarInformation?>, o: CarInformation?)
    requires UniqueInfoIds(infos)
    ensures var r := RemoveRecord(infos, o) + [o];
      && UniqueInfoIds(r)
      && r[|r| - 1] == o
      && (o != null ==> forall x | x in infos && x != null && x.id != o.id :: x in r)
  {
    var removed := RemoveRecord(infos, o);
    var r := removed + [o];
    forall i, j | 0 <= i < j < |r| && r[i] != null && r[j] != null
      ensures r[i].id != r[j].id
    {
      match FirstRecordFrom(infos, o, 0)
      case None =>
        if j == |removed| {
          assert r[j] == o && !Matches(o, infos[i]);
        }
      case Some(k) =>
        var pi := if i < k then i else i + 1;
        RemoveAtSelects(infos, k, i);
        assert r[i] == infos[pi] && pi != k;
        if j < |removed| {
          var pj := if j < k then j else j + 1;
          RemoveAtSelects(infos, k, j);
          assert r[j] == infos[pj] && pi < pj;
        } else {
          // The removed record has the new record's id, and no kept one does.
          assert r[j] == o && infos[k] != null && infos[k].id == o.id;
        }
    }
    if o != null {
      forall x | x in infos && x != null && x.id != o.id
        ensures x in r
      {
        var i' :| 0 <= i' < |infos| && infos[i'] == x;
        match FirstRecordFrom(infos, o, 0)
        case None =>
        case Some(k) =>
          assert i' != k;
          var i := if i' < k then i' else i' - 1;
          RemoveAtSelects(infos, k, i);
          assert r[i] == x;
      }
    }
  }

  class Server {
    /** Connections that have not registered yet. */
    var unidentifiedDevices: seq<Connection>
    /** Registered connections, in registration order. */
    var identifiedDevices: seq<Connection>
    /** Phone id to the id of the one car it may control. */
    var whitelist: map<string, int>
    /** The fleet snapshot: one record per car id. */
    var carInformations: seq<CarInformation?>

    /** The coordinator's invariant: registered car ids and snapshot ids are unique. */
    predicate Valid()
      reads this, CarsOf(identifiedDevices), InfoSet(carInformations)
    {
      UniqueCarIds(identifiedDevices) && UniqueInfoIds(carInformations)
    }

    /** The objects the coordinator may touch while it runs: the registered
        connections, and every link of a car or phone in the world stays in
        the world. */
    predicate World(cars: set<CarConnection>, phones: set<PhoneConnection>)
      reads this`identifiedDevices, cars`linkedPhone, phones`linkedCar
    {
      && CarsOf(identifiedDevices) <= cars
      && PhonesOf(identifiedDevices) <= phones
      && LinksClosed(cars, phones)
    }

    constructor ()
      ensures unidentifiedDevices == [] && identifiedDevices == []
      ensures whitelist == map[] && carInformations == []
      ensures Valid()
    {
      unidentifiedDevices := [];
      identifiedDevices := [];
      whitelist := map[];
      carInformations := [];
    }

    /** `findCar`: scans the registered connections for the first car with this id. */
    method FindCar(carId: int) returns (car: CarConnection?)
      ensures car == FoundCar(identifiedDevices, carId)
    {
      for i := 0 to |identifiedDevices|
        invariant FirstCarFrom(identifiedDevices, carId, i) == FirstCarFrom(identifiedDevices, carId, 0)
      {
        var conn := identifiedDevices[i];
        if conn.CarConn? && conn.car.id == carId {
          return conn.car;
        }
      }
      return null;
    }

    /** `findPhone`: scans the registered connections for the first phone with this id. */
    method FindPhone(phoneId: string) returns (phone: PhoneConnection?)
      ensures phone == FoundPhone(identifiedDevices, phoneId)
    {
      for i := 0 to |identifiedDevices|
        invariant FirstPhoneFrom(identifiedDevices, phoneId, i) == FirstPhoneFrom(identifiedDevices, phoneId, 0)
      {
        var conn := identifiedDevices[i];
        if conn.PhoneConn? && conn.phone.id == phoneId {
          return conn.phone;
        }
      }
      return null;
    }

    /** CONNECT: the connection moves to the end of the unregistered list,
        where it then occurs once (if it occurred at most once before). */
    method AddUnidentifiedDevice(c: Connection)
      modifies this`unidentifiedDevices
      ensures unidentifiedDevices == RemoveFirst(old(unidentifiedDevices), c) + [c]
      ensures multiset(old(unidentifiedDevices))[c] <= 1 ==>
        && unidentifiedDevices[|unidentifiedDevices| - 1] == c
        && multiset(unidentifiedDevices)[c] == 1
    {
      if multiset(unidentifiedDevices)[c] <= 1 {
        RemoveThenAppendKeepsOneCopy(unidentifiedDevices, c);
      }
      unidentifiedDevices := RemoveFirst(unidentifiedDevices, c);
      unidentifiedDevices := unidentifiedDevices + [c];
    }

    /** Whether REGISTER accepts the connection: a phone must be whitelisted,
        a car's id must not be registered already. */
    predicate Admissible(c: Connection)
      reads this, c.Phones(), c.Cars(), CarsOf(identifiedDevices)
    {
      match c
      case PhoneConn(phone) => phone.id in whitelist
      case CarConn(car) => FoundCar(identifiedDevices, car.id) == null
      case Null => false
    }

    /** REGISTER. An admissible connection is appended to the registered list,
        told `state=1` and dropped from the unregistered list. Otherwise it is
        told `state=-1`, both lists stay as they are, and a phone (not a car)
        is asked to close. A null connection throws (`ok` is false). */
    method IdentifyDevice(c: Connection) returns (ok: bool)
      modifies this`identifiedDevices, this`unidentifiedDevices
      modifies c.Cars()`output, c.Phones()`output, c.Phones()`closeRequested
      ensures ok <==> !c.Null?
      ensures !ok ==> identifiedDevices == old(identifiedDevices) && unidentifiedDevices == old(unidentifiedDevices)
      ensures ok && old(Admissible(c)) ==>
        && identifiedDevices == old(identifiedDevices) + [c]
        && unidentifiedDevices == RemoveFirst(old(unidentifiedDevices), c)
        && OutputOf(c) == old(OutputOf(c))[StateKey := LongV(Accepted)]
      ensures ok && !old(Admissible(c)) ==>
        && identifiedDevices == old(identifiedDevices)
        && unidentifiedDevices == old(unidentifiedDevices)
        && OutputOf(c) == old(OutputOf(c))[StateKey := LongV(Rejected)]
      ensures c.PhoneConn? ==> c.phone.closeRequested == (old(c.phone.closeRequested) || !old(Admissible(c)))
      ensures c.CarConn? ==> c.car.closeRequested == old(c.car.closeRequested)
      ensures forall d | d in identifiedDevices :: d in old(identifiedDevices) || d == c
      ensures old(Valid()) ==> Valid()
    {
      match c {
        case Null =>
          // `connection.addToOutputMessageMap` on null
          return false;
        case PhoneConn(phone) =>
          if phone.id in whitelist {
            if Valid() {
              AppendKeepsCarIdsUnique(identifiedDevices, c);
            }
            identifiedDevices := identifiedDevices + [c];
            phone.AddToOutputMessageMap(StateKey, LongV(Accepted));
          } else {
            phone.AddToOutputMessageMap(StateKey, LongV(Rejected));
            phone.FinishConnection();
            return true;
          }
        case CarConn(car) =>
          var found := FindCar(car.id);
          if found == null {
            if Valid() {
              AppendKeepsCarIdsUnique(identifiedDevices, c);
            }
            identifiedDevices := identifiedDevices + [c];
            car.AddToOutputMessageMap(StateKey, LongV(Accepted));
          } else {
            car.AddToOutputMessageMap(StateKey, LongV(Rejected));
            return true;
          }
      }
      unidentifiedDevices := RemoveFirst(unidentifiedDevices, c);
      return true;
    }

    /** The car a LINK event for `c` will link: the first registered car with
        the requested id, when `c` is a phone whitelisted for exactly that id. */
    function LinkTarget(c: Connection): set<CarConnection>
      reads this, c.Phones(), CarsOf(identifiedDevices)
    {
      if c.PhoneConn? && c.phone.id in whitelist && whitelist[c.phone.id] == c.phone.linkRequestId
      then CarSet(FoundCar(identifiedDevices, c.phone.linkRequestId))
      else {}
    }

    /** LINK. A phone whose whitelist entry is the requested car id, and whose
        requested car is registered, is linked to it both ways and told
        `state=2`; the car's previous phone is told `state=0` but keeps its
        `linkedCar`, and the phone's previous car keeps pointing at the phone.
        Any other phone is told `state=0`. A phone without a whitelist entry
        throws on unboxing (`ok` is false). Other connections are ignored. */
    method LinkDevices(c: Connection, ghost cars: set<CarConnection>, ghost phones: set<PhoneConnection>)
      returns (ok: bool)
      requires World(cars, phones) && c.Phones() <= phones
      modifies c.Phones()`output, c.Phones()`linkedCar
      modifies LinkTarget(c)`linkedPhone, LinkTarget(c)`output, LinkedPhonesOf(LinkTarget(c))`output
      ensures ok <==> !(c.PhoneConn? && c.phone.id !in whitelist)
      ensures !ok ==> c.phone.output == old(c.phone.output) && c.phone.linkedCar == old(c.phone.linkedCar)
      ensures ok && c.PhoneConn? ==>
        var phone, car := c.phone, old(FoundCar(identifiedDevices, c.phone.linkRequestId));
        if whitelist[phone.id] == phone.linkRequestId && car != null then
          && car.linkedPhone == phone
          && phone.linkedCar == car
          && phone.output == old(phone.output)[StateKey := LongV(Linked)]
          && car.output == old(car.output)
          && (old(car.linkedPhone) != null && old(car.linkedPhone) != phone ==>
                && old(car.linkedPhone).output == old(car.linkedPhone.output)[StateKey := LongV(Disconnected)]
                && old(car.linkedPhone).linkedCar == old(car.linkedPhone.linkedCar))
          && (old(phone.linkedCar) != null && old(phone.linkedCar) != car ==>
                old(phone.linkedCar).linkedPhone == old(phone.linkedCar.linkedPhone))
        else
          && phone.output == old(phone.output)[StateKey := LongV(Disconnected)]
          && phone.linkedCar == old(phone.linkedCar)
      ensures World(cars, phones)
    {
      if !c.PhoneConn? {
        return true;
      }
      var phone := c.phone;
      if phone.id !in whitelist {
        // unboxing the missing entry for the comparison
        return false;
      }
      if whitelist[phone.id] != phone.linkRequestId {
        phone.AddToOutputMessageMap(StateKey, LongV(Disconnected));
        return true;
      }
      var car := FindCar(phone.linkRequestId);
      if car != null {
        car.SetLinkedPhone(phone);
        phone.SetLinkedCar(car);
        phone.AddToOutputMessageMap(StateKey, LongV(Linked));
      } else {
        phone.AddToOutputMessageMap(StateKey, LongV(Disconnected));
      }
      return true;
    }

    /** CLOSE: the connection is dropped from the unregistered list if it is
        there, otherwise from the registered list (if it is there). */
    method RemoveDevice(c: Connection)
      modifies this`unidentifiedDevices, this`identifiedDevices
      ensures c in old(unidentifiedDevices) ==>
        && unidentifiedDevices == RemoveFirst(old(unidentifiedDevices), c)
        && identifiedDevices == old(identifiedDevices)
      ensures c !in old(unidentifiedDevices) ==>
        && unidentifiedDevices == old(unidentifiedDevices)
        && identifiedDevices == RemoveFirst(old(identifiedDevices), c)
      ensures forall d | d in identifiedDevices :: d in old(identifiedDevices)
      ensures old(Valid()) ==> Valid()
    {
      if Valid() {
        RemoveFirstKeepsCarIdsUnique(identifiedDevices, c);
      }
      RemoveFirstSubset(identifiedDevices, c);
      if c in unidentifiedDevices {
        unidentifiedDevices := RemoveFirst(unidentifiedDevices, c);
        return;
      }
      identifiedDevices := RemoveFirst(identifiedDevices, c);
    }

    /** UPDATE_INFO: a car's record replaces the snapshot's record with the
        same id (or is added). The car need not be registered. */
    method UpdateCarInformations(c: Connection)
      modifies this`carInformations
      ensures c.CarConn? ==> carInformations == RemoveRecord(old(carInformations), c.car.carInfo) + [c.car.carInfo]
      ensures !c.CarConn? ==> carInformations == old(carInformations)
      ensures old(Valid()) ==> Valid()
    {
      if !c.CarConn? {
        return;
      }
      var info := c.car.carInfo;
      if Valid() {
        ReplaceRecordKeepsIdsUnique(carInformations, info);
      }
      carInformations := RemoveRecord(carInformations, info);
      carInformations := carInformations + [info];
    }

    /** Whether handling `e` ends the event loop: a SOCKET_ERROR, a REGISTER
        of no connection, or a LINK from a phone without a whitelist entry. */
    predicate Stops(e: QueueElement)
      reads this`whitelist, e.connection.Phones()`id
    {
      || e.operationType == SocketError
      || (e.operationType == Register && e.connection.Null?)
      || (e.operationType == Link && e.connection.PhoneConn? && e.connection.phone.id !in whitelist)
    }

    /** One queued event, dispatched on its type. SOCKET_ERROR exits; a null
        REGISTER and a LINK from a phone without a whitelist entry abort the
        coordinator; everything else continues. The invariant and the closed
        world are kept, and the whitelist is never changed here. */
    method ProcessQueueElement(e: QueueElement, ghost cars: set<CarConnection>, ghost phones: set<PhoneConnection>)
      returns (outcome: Outcome)
      requires World(cars, phones)
      requires e.connection.Cars() <= cars && e.connection.Phones() <= phones
      modifies this`unidentifiedDevices, this`identifiedDevices, this`carInformations
      modifies cars`linkedPhone, cars`output, phones`linkedCar, phones`output, phones`closeRequested
      ensures outcome == Exit <==> e.operationType == SocketError
      ensures outcome == Abort <==>
        || (e.operationType == Register && e.connection.Null?)
        || (e.operationType == Link && e.connection.PhoneConn? && e.connection.phone.id !in old(whitelist))
      ensures outcome != Continue <==> Stops(e)
      ensures e.operationType == Connect ==>
        unidentifiedDevices == RemoveFirst(old(unidentifiedDevices), e.connection) + [e.connection]
      ensures e.operationType == Close && e.connection in old(unidentifiedDevices) ==>
        && unidentifiedDevices == RemoveFirst(old(unidentifiedDevices), e.connection)
        && identifiedDevices == old(identifiedDevices)
      ensures e.operationType == Close && e.connection !in old(unidentifiedDevices) ==>
        && unidentifiedDevices == old(unidentifiedDevices)
        && identifiedDevices == RemoveFirst(old(identifiedDevices), e.connection)
      ensures e.operationType == Close ==>
        |unidentifiedDevices| + |identifiedDevices| ==
          |old(unidentifiedDevices)| + |old(identifiedDevices)| -
          (if e.connection in old(unidentifiedDevices) || e.connection in old(identifiedDevices) then 1 else 0)
      ensures World(cars, phones)
      ensures old(Valid()) ==> Valid()
    {
      var c := e.connection;
      match e.operationType {
        case SocketError =>
          return Exit;
        case Connect =>
          AddUnidentifiedDevice(c);
        case Register =>
          var ok := IdentifyDevice(c);
          RegisteredSubset(identifiedDevices, old(identifiedDevices) + [c]);
          if !ok {
            return Abort;
          }
        case Link =>
          var ok := LinkDevices(c, cars, phones);
          if !ok {
            return Abort;
          }
        case Close =>
          RemoveDevice(c);
          RegisteredSubset(identifiedDevices, old(identifiedDevices));
          if c in old(identifiedDevices) {
            RemoveFirstMultiset(old(identifiedDevices), c);
          }
          if c in old(unidentifiedDevices) {
            RemoveFirstMultiset(old(unidentifiedDevices), c);
          }
        case UpdateInfo =>
          UpdateCarInformations(c);
      }
      return Continue;
    }

    /** The coordinator loop over a finite stretch of the queue: events are
        handled in order until one exits or aborts. */
    method Run(queue: seq<QueueElement>, ghost cars: set<CarConnection>, ghost phones: set<PhoneConnection>)
      returns (outcome: Outcome, processed: nat)
      requires World(cars, phones)
      requires forall e | e in queue :: e.connection.Cars() <= cars && e.connection.Phones() <= phones
      modifies this`unidentifiedDevices, this`identifiedDevices, this`carInformations
      modifies cars`linkedPhone, cars`output, phones`linkedCar, phones`output, phones`closeRequested
      ensures processed <= |queue|
      ensures outcome == Continue ==> processed == |queue|
      ensures outcome != Continue ==> processed > 0
      ensures outcome == Exit ==> queue[processed - 1].operationType == SocketError
      ensures outcome == Abort ==>
        queue[processed - 1].operationType == Register || queue[processed - 1].operationType == Link
      ensures outcome == Continue ==> forall e | e in queue :: e.operationType != SocketError
      ensures forall i | 0 <= i < |queue| && i < processed - 1 :: queue[i].operationType != SocketError
      ensures outcome == Continue <==> forall e | e in queue :: !Stops(e)
      ensures outcome != Continue ==>
        Stops(queue[processed - 1]) && forall i | 0 <= i < processed - 1 :: !Stops(queue[i])
      ensures World(cars, phones)
      ensures old(Valid()) ==> Valid()
    {
      outcome := Continue;
      processed := 0;
      while processed < |queue| && outcome == Continue
        invariant processed <= |queue|
        invariant outcome != Continue ==> processed > 0
        invariant outcome == Exit ==> queue[processed - 1].operationType == SocketError
        invariant outcome == Abort ==>
          queue[processed - 1].operationType == Register || queue[processed - 1].operationType == Link
        invariant outcome != Continue ==> Stops(queue[processed - 1])
        invariant forall i | 0 <= i < processed - 1 :: !Stops(queue[i])
        invariant outcome == Continue ==> forall i | 0 <= i < processed :: !Stops(queue[i])
        invariant World(cars, phones)
        invariant old(Valid()) ==> Valid()
        decreases |queue| - processed, if outcome == Continue then 1 else 0
      {
        outcome := ProcessQueueElement(queue[processed], cars, phones);
        processed := processed + 1;
      }
      if outcome != Continue {
        assert queue[processed - 1] in queue;
      }
    }

    /** The phone `allowLink` unlinks: the first registered phone with this id,
        when it is whitelisted for a car other than `carId`. */
    function AllowUnlinks(phoneId: string, carId: int): set<PhoneConnection>
      reads this, PhonesOf(identifiedDevices)
    {
      if phoneId in whitelist && whitelist[phoneId] != carId
      then PhoneSet(FoundPhone(identifiedDevices, phoneId))
      else {}
    }

    /** `allowLink`: the phone is whitelisted for `carId`. If it is registered
        and was whitelisted for another car, it is first unlinked through
        `SetLinkedCar(null)`: its car drops it and stops, it is told `state=0`,
        and its own `linkedCar` stays as it was. */
    method AllowLink(phoneId: string, carId: int)
      modifies this`whitelist
      modifies AllowUnlinks(phoneId, carId)`linkedCar, AllowUnlinks(phoneId, carId)`output
      modifies LinkedCarsOf(AllowUnlinks(phoneId, carId))`linkedPhone
      modifies LinkedCarsOf(AllowUnlinks(phoneId, carId))`output
      modifies LinkedPhonesOf(LinkedCarsOf(AllowUnlinks(phoneId, carId)))`output
      ensures whitelist == old(whitelist)[phoneId := carId]
      ensures var phone := old(FoundPhone(identifiedDevices, phoneId));
        phone != null && phoneId in old(whitelist) && old(whitelist[phoneId]) != carId ==>
          if old(phone.linkedCar) != null then
            var car := old(phone.linkedCar);
            && car.linkedPhone == null
            && car.output == old(car.output)[StopKey := LongV(1)]
            && phone.output == old(phone.output)[StateKey := LongV(Disconnected)]
            && phone.linkedCar == car
            && (old(car.linkedPhone) != null ==>
                  old(car.linkedPhone).output == old(car.linkedPhone.output)[StateKey := LongV(Disconnected)])
          else
            phone.output == old(phone.output) && phone.linkedCar == null
    {
      var phone := FindPhone(phoneId);
      if phone != null && phoneId in whitelist && whitelist[phoneId] != carId {
        assert LinkedCarsOf({phone}) == CarSet(phone.linkedCar);
        phone.SetLinkedCar(null);
      }
      whitelist := whitelist[phoneId := carId];
    }

    /** The phone `terminateLink` acts on: the first registered phone with
        this id, when the id is whitelisted. */
    function TerminateTarget(phoneId: string): set<PhoneConnection>
      reads this, PhonesOf(identifiedDevices)
    {
      if phoneId in whitelist then PhoneSet(FoundPhone(identifiedDevices, phoneId)) else {}
    }

    /** `terminateLink`: the whitelist entry is removed. The first registered
        phone with this id is then unlinked through `SetLinkedCar(null)` and
        asked to close, and the answer is true. The answer is false when there
        was no entry, and also when the entry was removed but no such phone is
        registered. */
    method TerminateLink(phoneId: string) returns (removed: bool)
      modifies this`whitelist
      modifies TerminateTarget(phoneId)`linkedCar, TerminateTarget(phoneId)`output
      modifies TerminateTarget(phoneId)`closeRequested
      modifies LinkedCarsOf(TerminateTarget(phoneId))`linkedPhone
      modifies LinkedCarsOf(TerminateTarget(phoneId))`output
      modifies LinkedPhonesOf(LinkedCarsOf(TerminateTarget(phoneId)))`output
      ensures whitelist == old(whitelist) - {phoneId}
      ensures removed <==> phoneId in old(whitelist) && old(FoundPhone(identifiedDevices, phoneId)) != null
      ensures removed ==>
        var phone := old(FoundPhone(identifiedDevices, phoneId));
        && phone.closeRequested
        && phone.linkedCar == old(phone.linkedCar)
        && if old(phone.linkedCar) != null then
             var car := old(phone.linkedCar);
             && car.linkedPhone == null
             && car.output == old(car.output)[StopKey := LongV(1)]
             && phone.output == old(phone.output)[StateKey := LongV(Disconnected)]
             && (old(car.linkedPhone) != null ==>
                   old(car.linkedPhone).output == old(car.linkedPhone.output)[StateKey := LongV(Disconnected)])
           else
             phone.output == old(phone.output)
    {
      if phoneId !in whitelist {
        return false;
      }
      whitelist := whitelist - {phoneId};
      var phone := FindPhone(phoneId);
      if phone == null {
        return false;
      }
      assert LinkedCarsOf({phone}) == CarSet(phone.linkedCar);
      phone.SetLinkedCar(null);
      phone.FinishConnection();
      return true;
    }
  }
}
