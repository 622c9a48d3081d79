# andropicar relay hub: link and registry core in Dafny

The `server-connections` component of andropicar relays data between remote-controlled
cars and the phones that drive them. Every car and every phone has its own TCP
connection. One coordinator thread takes events from a queue and applies them one at a
time:

- `CONNECT`: a new connection arrived.
- `REGISTER`: a connection sent its id.
- `LINK`: a phone asked to control a car.
- `CLOSE`: a connection ended.
- `UPDATE_INFO`: a car reported its capabilities.
- `SOCKET_ERROR`: an acceptor could not bind its port.

An external manager controls a whitelist that maps each phone id to the one car id it
may control. It does so through `allowLink` and `terminateLink`.

This project models that core as sequential, imperative Dafny:

- `protocol.dfy` (module `Protocol`):
  - decoded message values (`Long`, `String`, `List<String>`, other);
  - the reserved field names and the status codes;
  - the event kinds;
  - Java's `Long.intValue` truncation to 32 bits.
- `seqs.dfy` (module `Seqs`): `List.remove(Object)` (the first occurrence only) and the
  facts about it the coordinator needs.
- `car_information.dfy` (module `CarInfo`): the car record `CarInformation`. It is a
  class with an id, an ip and seven capability flags. It has four constructors,
  field-wise setters and getters, and `equals`, which compares ids only.
- `connections.dfy` (module `Connections`): `CarConnection` and `PhoneConnection`.
  - Their link pointers (`linkedPhone`, `linkedCar`).
  - Their outbound map (`output`), in which the last write per key wins.
  - Their map of values staged for the peer (`forward`).
  - Their close flag.
  - The per-message handlers: capability parsing, sensor and control staging, connect
    requests and forward keywords.
- `server.dfy` (module `Coordinator`): the coordinator `Server`.
  - Its state: the two connection lists, the whitelist and the car-record list.
  - One method per event handler, plus `processQueueElement` and the loop over a finite
    stretch of the queue.
  - The control-plane calls `allowLink` and `terminateLink`.
- `acceptor.dfy` (module `Acceptor`): the connection acceptor.
  - The bounded bind retry: three tries on each of three consecutive ports. The socket's
    answer to each attempt is an oracle `seq<bool>`.
  - `setupAcceptor` and `writeToOperationQueue`.

The coordinator's invariant `Valid()` states two things: no two registered cars share an
id, and no two car records share an id. Every handler preserves it.

`World(cars, phones)` is a closed set of connections: the registered ones lie inside it,
and every link pointer of a member points back into it. The handlers preserve it too,
and it bounds the frame of `processQueueElement` and of the queue loop.

The link protocol is modelled exactly as the code behaves, including the places where
the two pointers disagree:

- `PhoneConnection.setLinkedCar(null)` on a linked phone clears the car's back-reference
  and tells the phone `state=0`. It then returns without clearing the phone's own
  `linkedCar`. `Connections.PhoneSideUnlinkLeavesHalfLink` builds this state.
- `linkDevices` links a car to a new phone. The car's previous phone is told `state=0`
  but still points at the car. `Connections.RelinkLeavesFirstPhonePointing` builds this
  state.

Where the code throws or exits, the handler reports it instead of assuming it away:

- A `REGISTER` of a null connection dereferences null.
- A `LINK` from a phone with no whitelist entry unboxes a missing `Long`.
- `SOCKET_ERROR` calls `System.exit`.

These are the `Outcome` values `Abort` and `Exit`. The first event that yields one ends
the queue loop.

Where the documentation and the code disagree, the model follows the code. Two places:

- `terminateLink` returns `false` when it removed a whitelist entry but found no
  registered phone with that id. The interface documentation promises `true` whenever
  the state changed (IConnectionControl.java:26). `TerminateLink`'s contract states the
  code's answer.
- An acceptor configured with port 0 that binds on its first attempt reports port 0.
  `setupAcceptor` then treats that as a failure and queues `SOCKET_ERROR`.
  `BindFailsIffAllFail` therefore assumes a positive port.

## Model

Source paths are relative to the repository root.

| member | source | states |
|---|---|---|
| Protocol.IntValue | server-connections/src/main/java/at/ac/tuwien/ict/andropicar/server/connections/PhoneConnection.java:105 | `Long.intValue`: the result is a 32-bit int, congruent to the Long modulo 2^32, and equal to it when it already fits in 32 bits |
| Protocol.IntValueWrapsAround | server-connections/src/main/java/at/ac/tuwien/ict/andropicar/server/connections/PhoneConnection.java:105 | a `connect` value of 2^32-1 truncates to -1 (an unlink request), 2^32+42 to 42, and -2^32 to 0 |
| Seqs.RemoveFirst | server-connections/src/main/java/at/ac/tuwien/ict/andropicar/server/Server.java:166 | `List.remove(Object)`: an absent element leaves the list unchanged, and the length drops by exactly one when the element occurs |
| Seqs.RemoveFirstAt | server-connections/src/main/java/at/ac/tuwien/ict/andropicar/server/Server.java:166 | what is removed is the first occurrence: the result is the list before it followed by the list after it |
| Seqs.RemoveFirstMultiset | server-connections/src/main/java/at/ac/tuwien/ict/andropicar/server/Server.java:267-270 | removal takes away one copy of the element, if any, and changes the multiplicity of nothing else |
| Seqs.RemoveFirstSubset | server-connections/src/main/java/at/ac/tuwien/ict/andropicar/server/Server.java:270 | removal introduces no element that was not in the list |
| Seqs.RemoveThenAppendKeepsOneCopy | server-connections/src/main/java/at/ac/tuwien/ict/andropicar/server/Server.java:165-167 | remove-then-add leaves the element exactly once, at the end, when it occurred at most once before; every other element keeps its multiplicity |
| CarInfo.CarInformation.WithId | server-connections/src/main/java/at/ac/tuwien/ict/andropicar/server/helper/CarInformation.java:35-37 | the record has the given id, no ip, and all seven flags false |
| CarInfo.CarInformation.WithIp | server-connections/src/main/java/at/ac/tuwien/ict/andropicar/server/helper/CarInformation.java:44-47 | the record has the given id and ip, and all seven flags false |
| CarInfo.CarInformation.WithAll | server-connections/src/main/java/at/ac/tuwien/ict/andropicar/server/helper/CarInformation.java:53-64 | every one of the seven flags equals `hasAll`; the ip is null |
| CarInfo.CarInformation.Full | server-connections/src/main/java/at/ac/tuwien/ict/andropicar/server/helper/CarInformation.java:78-89 | each getter returns the corresponding constructor argument |
| CarInfo.CarInformation.SetId | server-connections/src/main/java/at/ac/tuwien/ict/andropicar/server/helper/CarInformation.java:95-97 | `getId` returns the new id; the frame is the id field alone, so every other getter keeps its value |
| CarInfo.CarInformation.SetIp | server-connections/src/main/java/at/ac/tuwien/ict/andropicar/server/helper/CarInformation.java:102-104 | `getIp` returns the new ip; nothing else changes |
| CarInfo.CarInformation.SetCamera | server-connections/src/main/java/at/ac/tuwien/ict/andropicar/server/helper/CarInformation.java:109-111 | `hasCamera` returns the new value; nothing else changes |
| CarInfo.CarInformation.SetLights | server-connections/src/main/java/at/ac/tuwien/ict/andropicar/server/helper/CarInformation.java:116-118 | `hasLights` returns the new value; nothing else changes |
| CarInfo.CarInformation.SetWinkers | server-connections/src/main/java/at/ac/tuwien/ict/andropicar/server/helper/CarInformation.java:123-125 | `hasWinkers` returns the new value; nothing else changes |
| CarInfo.CarInformation.SetFrontDistanceSensor | server-connections/src/main/java/at/ac/tuwien/ict/andropicar/server/helper/CarInformation.java:130-132 | `hasFrontDistanceSensor` returns the new value; nothing else changes |
| CarInfo.CarInformation.SetLeftDistanceSensor | server-connections/src/main/java/at/ac/tuwien/ict/andropicar/server/helper/CarInformation.java:137-139 | `hasLeftDistanceSensor` returns the new value; nothing else changes |
| CarInfo.CarInformation.SetRightDistanceSensor | server-connections/src/main/java/at/ac/tuwien/ict/andropicar/server/helper/CarInformation.java:144-146 | `hasRightDistanceSensor` returns the new value; nothing else changes |
| CarInfo.CarInformation.SetVelocitySensor | server-connections/src/main/java/at/ac/tuwien/ict/andropicar/server/helper/CarInformation.java:151-153 | `hasVelocitySensor` returns the new value; nothing else changes |
| CarInfo.CarInformation.GetId | server-connections/src/main/java/at/ac/tuwien/ict/andropicar/server/helper/CarInformation.java:158-160 | `getId`: the record's id; the constructors' and `SetId`'s contracts are stated through it |
| CarInfo.CarInformation.GetIp | server-connections/src/main/java/at/ac/tuwien/ict/andropicar/server/helper/CarInformation.java:165-167 | `getIp`: the record's ip (None for Java's null); the constructors' and `SetIp`'s contracts are stated through it |
| CarInfo.CarInformation.HasCamera | server-connections/src/main/java/at/ac/tuwien/ict/andropicar/server/helper/CarInformation.java:172-174 | `hasCamera`: the camera flag, through which `Full` and `SetCamera` are stated |
| CarInfo.CarInformation.HasLights | server-connections/src/main/java/at/ac/tuwien/ict/andropicar/server/helper/CarInformation.java:179-181 | `hasLights`: the lights flag, through which `Full` and `SetLights` are stated |
| CarInfo.CarInformation.HasWinkers | server-connections/src/main/java/at/ac/tuwien/ict/andropicar/server/helper/CarInformation.java:186-188 | `hasWinkers`: the winkers flag, through which `Full` and `SetWinkers` are stated |
| CarInfo.CarInformation.HasFrontDistanceSensor | server-connections/src/main/java/at/ac/tuwien/ict/andropicar/server/helper/CarInformation.java:193-195 | `hasFrontDistanceSensor`: the front-distance flag, through which `Full` and `SetFrontDistanceSensor` are stated |
| CarInfo.CarInformation.HasLeftDistanceSensor | server-connections/src/main/java/at/ac/tuwien/ict/andropicar/server/helper/CarInformation.java:200-202 | `hasLeftDistanceSensor`: the left-distance flag, through which `Full` and `SetLeftDistanceSensor` are stated |
| CarInfo.CarInformation.HasRightDistanceSensor | server-connections/src/main/java/at/ac/tuwien/ict/andropicar/server/helper/CarInformation.java:207-209 | `hasRightDistanceSensor`: the right-distance flag, through which `Full` and `SetRightDistanceSensor` are stated |
| CarInfo.CarInformation.HasVelocitySensor | server-connections/src/main/java/at/ac/tuwien/ict/andropicar/server/helper/CarInformation.java:214-216 | `hasVelocitySensor`: the velocity flag, through which `Full` and `SetVelocitySensor` are stated |
| CarInfo.CarInformation.Equals | server-connections/src/main/java/at/ac/tuwien/ict/andropicar/server/helper/CarInformation.java:218-226 | `equals` holds iff the other record is non-null and has the same id; the ip and the flags play no part |
| CarInfo.EqualsIsEquivalence | server-connections/src/main/java/at/ac/tuwien/ict/andropicar/server/helper/CarInformation.java:218-226 | on records, `equals` is reflexive, symmetric and transitive |
| Connections.RecogniseExactly | server-connections/src/main/java/at/ac/tuwien/ict/andropicar/server/connections/CarConnection.java:127-142 | one capability name sets exactly its own flag (seven name-to-flag pairs); any other name changes nothing, and no flag is cleared |
| Connections.ApplyCapabilitiesExactly | server-connections/src/main/java/at/ac/tuwien/ict/andropicar/server/connections/CarConnection.java:125-144 | after a capability list, each flag is set iff it was set before or its name is in the list: flags are monotone and unrecognised names are ignored |
| Connections.CarConnection.constructor | server-connections/src/main/java/at/ac/tuwien/ict/andropicar/server/connections/CarConnection.java:33-48 | a new car connection is unregistered, unlinked, and has nothing buffered |
| Connections.CarConnection.SetLinkedPhone | server-connections/src/main/java/at/ac/tuwien/ict/andropicar/server/connections/CarConnection.java:72-81 | `linkedPhone` becomes the argument; a previous phone other than the new one gets `state=0`; a new phone gets `state=2` (also when it is the same phone again); null writes `stop=1` to the car itself |
| Connections.CarConnection.CloseConnection | server-connections/src/main/java/at/ac/tuwien/ict/andropicar/server/connections/CarConnection.java:87-94 | afterwards `linkedPhone` is null and the car has `stop=1`; the former phone gets `state=0` but keeps its `linkedCar`; if that phone pointed at another car, that car drops its phone and stops |
| Connections.CarConnection.Register | server-connections/src/main/java/at/ac/tuwien/ict/andropicar/server/connections/CarConnection.java:167-170 | after registration the car has the registered id and a fresh record with that id and ip and all flags false, and its output has `state=1` |
| Connections.CarConnection.ProcessCarInformation | server-connections/src/main/java/at/ac/tuwien/ict/andropicar/server/connections/CarConnection.java:125-144 | the loop leaves the record's flags equal to the capability list applied to the old flags (characterised by `ApplyCapabilitiesExactly`) |
| Connections.CarConnection.ProcessSensorData | server-connections/src/main/java/at/ac/tuwien/ict/andropicar/server/connections/CarConnection.java:105-119 | the forward map gains exactly those of the four sensor fields whose value is a Long, and nothing else |
| Connections.CarConnection.ProcessMessage | server-connections/src/main/java/at/ac/tuwien/ict/andropicar/server/connections/CarConnection.java:176-190 | `UPDATE_INFO` is emitted iff `properties` holds a list, which is then applied to the flags; a Long `phoneControl` and the Long sensor fields are staged iff a phone is linked |
| Connections.PhoneConnection.constructor | server-connections/src/main/java/at/ac/tuwien/ict/andropicar/server/connections/PhoneConnection.java:27-47 | a new phone connection is unlinked, has link request 0, and has nothing buffered |
| Connections.PhoneConnection.Register | server-connections/src/main/java/at/ac/tuwien/ict/andropicar/server/connections/PhoneConnection.java:154 | the phone's id becomes the registered id |
| Connections.PhoneConnection.SetLinkedCar | server-connections/src/main/java/at/ac/tuwien/ict/andropicar/server/connections/PhoneConnection.java:69-76 | null while linked: the car drops its phone and stops, the phone gets `state=0`, and the phone's own `linkedCar` is unchanged; every other call only assigns `linkedCar` and writes no output |
| Connections.PhoneConnection.CloseConnection | server-connections/src/main/java/at/ac/tuwien/ict/andropicar/server/connections/PhoneConnection.java:82-89 | afterwards `linkedCar` is null, and the previously linked car has no phone and has `stop=1` |
| Connections.PhoneConnection.ProcessConnectRequest | server-connections/src/main/java/at/ac/tuwien/ict/andropicar/server/connections/PhoneConnection.java:102-118 | non-Long values are ignored. A positive truncated id sets `linkRequestId` and emits exactly one `LINK`. -1 while linked clears both pointers and emits nothing. Any other value changes nothing |
| Connections.PhoneConnection.ProcessRemainingData | server-connections/src/main/java/at/ac/tuwien/ict/andropicar/server/connections/PhoneConnection.java:124-132 | unlinked: nothing is staged; linked: exactly the forward keywords whose value is a Long are staged |
| Connections.PhoneConnection.ProcessMessage | server-connections/src/main/java/at/ac/tuwien/ict/andropicar/server/connections/PhoneConnection.java:163-178 | a Long `connect` is handled as a connect request, with its events and pointer effects; forwarding happens only if the phone is still linked afterwards |
| Connections.PhoneSideUnlinkLeavesHalfLink | server-connections/src/main/java/at/ac/tuwien/ict/andropicar/server/connections/PhoneConnection.java:70-74 | an unlink through the phone leaves the car pointing at no phone, while the phone still points at the car |
| Connections.RelinkLeavesFirstPhonePointing | server-connections/src/main/java/at/ac/tuwien/ict/andropicar/server/Server.java:244-245 | linking a car to a second phone, car side first, leaves the first phone told `state=0` yet still pointing at the car |
| Coordinator.FoundCar | server-connections/src/main/java/at/ac/tuwien/ict/andropicar/server/Server.java:110-118 | the answer is a registered car with that id, and null exactly when no registered car has it |
| Coordinator.FoundPhone | server-connections/src/main/java/at/ac/tuwien/ict/andropicar/server/Server.java:95-103 | the answer is a registered phone with that id, and null exactly when no registered phone has it |
| Coordinator.RemoveFirstKeepsCarIdsUnique | server-connections/src/main/java/at/ac/tuwien/ict/andropicar/server/Server.java:270 | removing a connection from the registered list keeps car ids unique |
| Coordinator.AppendKeepsCarIdsUnique | server-connections/src/main/java/at/ac/tuwien/ict/andropicar/server/Server.java:198-201 | appending a phone, or a car that `findCar` does not find, keeps car ids unique |
| Coordinator.Matches | server-connections/src/main/java/at/ac/tuwien/ict/andropicar/server/Server.java:290 | the match rule of `List.remove(Object)` on the record list: a null record matches only null, any other record matches exactly the non-null records with its id (through `equals`) |
| Coordinator.RemoveRecord | server-connections/src/main/java/at/ac/tuwien/ict/andropicar/server/Server.java:290 | `carInformations.remove(carInfo)`: with no matching record the list is unchanged; with one, the list loses exactly one entry and gains none |
| Coordinator.RemoveRecordDropsFirstMatch | server-connections/src/main/java/at/ac/tuwien/ict/andropicar/server/Server.java:290 | the record `remove` drops is the first one that matches; the records before and after it stay in order |
| Coordinator.ReplaceRecordKeepsIdsUnique | server-connections/src/main/java/at/ac/tuwien/ict/andropicar/server/Server.java:286-292 | replacing a record by id keeps one record per id, puts the new record last, and keeps every record with another id |
| Coordinator.Server.constructor | server-connections/src/main/java/at/ac/tuwien/ict/andropicar/server/Server.java:56-68 | a new coordinator has empty lists and an empty whitelist, and satisfies its invariant |
| Coordinator.Server.FindCar | server-connections/src/main/java/at/ac/tuwien/ict/andropicar/server/Server.java:110-118 | the scan returns the first registered car with the id, or null (the answer characterised by `FoundCar`) |
| Coordinator.Server.FindPhone | server-connections/src/main/java/at/ac/tuwien/ict/andropicar/server/Server.java:95-103 | the scan returns the first registered phone with the id, or null (the answer characterised by `FoundPhone`) |
| Coordinator.Server.AddUnidentifiedDevice | server-connections/src/main/java/at/ac/tuwien/ict/andropicar/server/Server.java:165-172 | CONNECT: the connection moves to the end of the unregistered list and occurs there exactly once, given at most one copy before |
| Coordinator.Server.IdentifyDevice | server-connections/src/main/java/at/ac/tuwien/ict/andropicar/server/Server.java:181-215 | REGISTER. A whitelisted phone, or a car whose id is not registered, is appended, told `state=1` and removed from the unregistered list. Otherwise it is told `state=-1`, both lists are unchanged, and only a phone is flagged to close. Null throws. Car ids stay unique |
| Coordinator.Server.LinkDevices | server-connections/src/main/java/at/ac/tuwien/ict/andropicar/server/Server.java:226-258 | LINK. A phone whitelisted for its requested, registered car is linked both ways and told `state=2`; the car's old phone is told `state=0` and keeps its pointer. A phone whitelisted for another car, or whose car is offline, is told `state=0` and no pointer changes. A missing whitelist entry throws. Non-phones change nothing. The closed world is kept |
| Coordinator.Server.RemoveDevice | server-connections/src/main/java/at/ac/tuwien/ict/andropicar/server/Server.java:264-279 | CLOSE removes the first occurrence from the unregistered list if present, otherwise from the registered list, never from both; car ids stay unique |
| Coordinator.Server.UpdateCarInformations | server-connections/src/main/java/at/ac/tuwien/ict/andropicar/server/Server.java:286-292 | UPDATE_INFO: for a car, the first record with the same id is removed and the car's record appended; non-cars change nothing; record ids stay unique |
| Coordinator.Server.ProcessQueueElement | server-connections/src/main/java/at/ac/tuwien/ict/andropicar/server/Server.java:298-321 | it exits iff the event is `SOCKET_ERROR`, and aborts iff it is a null REGISTER or a LINK from an unwhitelisted phone, so it stops iff `Stops` holds of the event. CONNECT has its list effect; CLOSE removes the connection from the unregistered list if it is there, otherwise from the registered list. The invariant and the closed world are kept |
| Coordinator.Server.Run | server-connections/src/main/java/at/ac/tuwien/ict/andropicar/server/Server.java:333-347 | events are handled in order. The loop ends early exactly at the first event for which `Stops` holds (a `SOCKET_ERROR`, a null REGISTER, or a LINK from a phone without a whitelist entry) and runs to the end iff no event stops it. An exit is caused by a `SOCKET_ERROR`, an abort by a REGISTER or a LINK; the invariant and the closed world are kept |
| Coordinator.Server.AllowLink | server-connections/src/main/java/at/ac/tuwien/ict/andropicar/server/Server.java:126-130 | afterwards the phone maps to `carId` and every other entry is unchanged; a registered phone that was whitelisted for a different car is first unlinked through `setLinkedCar(null)`: if linked, its car drops it and stops, the car's phone is told `state=0`, and the phone keeps its `linkedCar`; if unlinked, its output and link are unchanged |
| Coordinator.Server.TerminateLink | server-connections/src/main/java/at/ac/tuwien/ict/andropicar/server/Server.java:138-151 | the entry is removed. The answer is true iff there was an entry and a registered phone with that id; that phone is then unlinked through `setLinkedCar(null)` (a linked car drops it and stops, the car's phone is told `state=0`; an unlinked phone's output is unchanged) and flagged to close |
| Acceptor.BindFrom | server-connections/src/main/java/at/ac/tuwien/ict/andropicar/server/ConnectionAcceptor.java:86-111 | the retry loop's result from attempt k on is 0 or a port between attempt k's port and `port+2` |
| Acceptor.BindFailsIffAllFail | server-connections/src/main/java/at/ac/tuwien/ict/andropicar/server/ConnectionAcceptor.java:90-110 | for a positive port, the loop returns 0 iff all nine attempts fail |
| Acceptor.BindReportsFirstSuccess | server-connections/src/main/java/at/ac/tuwien/ict/andropicar/server/ConnectionAcceptor.java:88-108 | the loop returns the port of the first successful attempt, and attempt k targets `port + k/3` |
| Acceptor.ConnectionAcceptor.constructor | server-connections/src/main/java/at/ac/tuwien/ict/andropicar/server/ConnectionAcceptor.java:44-48 | a new acceptor has the given port and queue, runs, and is unbound |
| Acceptor.ConnectionAcceptor.GetPort | server-connections/src/main/java/at/ac/tuwien/ict/andropicar/server/ConnectionAcceptor.java:54-56 | `getPort`: the configured port, which `setupAcceptor` overwrites with the bound port |
| Acceptor.ConnectionAcceptor.IsKeepRunning | server-connections/src/main/java/at/ac/tuwien/ict/andropicar/server/ConnectionAcceptor.java:68-70 | `isKeepRunning`: the run flag, through which `FinishAcceptor`'s contract is stated |
| Acceptor.ConnectionAcceptor.FinishAcceptor | server-connections/src/main/java/at/ac/tuwien/ict/andropicar/server/ConnectionAcceptor.java:68-78 | afterwards `isKeepRunning` is false; no method sets it back |
| Acceptor.ConnectionAcceptor.BindAcceptor | server-connections/src/main/java/at/ac/tuwien/ict/andropicar/server/ConnectionAcceptor.java:86-111 | the loop, which stops after at most nine attempts, returns the retry result `BindFrom` (or `port` when already bound), and the acceptor is bound iff some attempt succeeded |
| Acceptor.ConnectionAcceptor.SetupAcceptor | server-connections/src/main/java/at/ac/tuwien/ict/andropicar/server/ConnectionAcceptor.java:117-129 | `port` becomes the bound port and the acceptor is bound iff it was already or some attempt succeeded; when the port is 0, exactly one `SOCKET_ERROR` with a null connection is queued and the acceptor stops |
| Acceptor.ConnectionAcceptor.WriteToOperationQueue | server-connections/src/main/java/at/ac/tuwien/ict/andropicar/server/ConnectionAcceptor.java:167-178 | a null connection is refused and the queue is unchanged; otherwise the event is appended and the answer is true |

## Left out

- Socket and codec I/O is not modelled, because it is foreign code: `setupSocket`, `readFromStream`, `sendOutputMessageMap` and the JSON decoder. A decoded message is an input of type `Message`. Each bind attempt's outcome is an oracle.
- `Connection.java` is not part of this model. Its state that the code here touches is repeated as fields of both connection classes: the output map, the forward map and the close flag. `addToOutputMessageMap` is modelled as a map update, and `finishConnection` as setting the close flag.
- Parts of `Connection.java` are left out completely: `forwardMessageToDevice`, the release of the socket in `closeConnection`, and the base `register`.
- The `register()` retry loops in both connection classes block on the network until an id of the right type arrives. The registered id is a parameter instead.
- `Keywords.java` is not part of this model. The reserved field names are distinct placeholder strings named after the Java identifiers. The phone's forward keywords are a parameter.
- Threads, the `volatile` fields and races between connection threads and the coordinator are not modelled, because the model is sequential. The same goes for blocking `take`/`put` on the queue and the `InterruptedException` paths.
- The queue carries no null elements, so the early returns on a null queue element in `processQueueElement` and in `run` do not arise.
- `Server.run` and `main` start the acceptor threads and are not modelled. Nor are the acceptors' accept loops (`CarConnectionAcceptor`, `PhoneConnectionAcceptor`) or the outer read loops of the connections; `Coordinator.Server.Run` takes a finite queue.
- `System.exit(-1)` on `SOCKET_ERROR` is the outcome `Exit`. The process is not modelled.
- `updateListeners` is a foreign callback and is not modelled. It dereferences the link pointer without a null check whenever a listener is registered.
- Logging is not modelled.
- `getCarInformations`, `getCarAcceptorPort`, `getPhoneAcceptorPort` and `getOperationQueue` only return a field or a constant. They are read as the fields themselves.
- `List.remove` and `List.contains` on the connection lists are modelled by reference identity (equality of the `Connection` value). This assumes `Connection.java` does not override `equals`.
- A capability list is a list of strings. A `null` or non-`String` element makes `processCarInformation` throw, which ends the car's thread; that path is not modelled.
- A phone's id is `null` in Java until it registers. It is modelled as the empty string.
- Java `long` values are unbounded integers, because no operation here overflows a 64-bit value. Only `intValue` truncation is modelled.
- Acceptor.ConnectionAcceptor.BindAcceptor: requires the preferred port to be between 0 and 65533. Below 0 or above 65533, `new ServerSocket` throws an unchecked `IllegalArgumentException`, and that path is not modelled.
- Acceptor.ConnectionAcceptor.SetupAcceptor: has the same port requirement as `BindAcceptor`, between 0 and 65533; a negative port or one above 65533 makes `new ServerSocket` throw, and that path is not modelled.
- Coordinator.Server.ProcessQueueElement: states the outcome, the CONNECT and CLOSE list effects and the preserved invariants. The detailed effects of REGISTER, LINK and UPDATE_INFO are stated by `IdentifyDevice`, `LinkDevices` and `UpdateCarInformations`, which it calls.
- Coordinator.Server.Run: states the kind of event that ended the loop and the preserved invariants, not the composed state after the whole queue.
- Connections.PhoneConnection.ProcessMessage: of an unlink request it states the pointer effects only. The output effects are stated by `ProcessConnectRequest`.
- Coordinator.Server.LinkDevices: takes the closed world as a ghost argument and requires it. This is a modelling device that bounds the frame; it adds no demand on the Java caller.
