/**
 * The record a car keeps about itself and the coordinator lists in its fleet
 * snapshot: an id, an optional ip address and seven capability flags. The
 * record is mutable (the car sets flags as it reports capabilities) and two
 * records are equal exactly when their ids are.
 */
module CarInfo {
  import opened Protocol

  /** The seven capability flags as one value. */
  datatype Capabilities = Capabilities(
    camera: bool,
    lights: bool,
    winkers: bool,
    frontDistanceSensor: bool,
    leftDistanceSensor: bool,
    rightDistanceSensor: bool,
    velocitySensor: bool)

  /** Every flag equal to `b`. */
  function Uniform(b: bool): Capabilities {
    Capabilities(b, b, b, b, b, b, b)
  }

  class CarInformation {
    var id: int
    /** Java `null` is `None`. */
    var ip: Option<string>
    var camera: bool
    var lights: bool
    var winkers: bool
    var frontDistanceSensor: bool
    var leftDistanceSensor: bool
    var rightDistanceSensor: bool
    var velocitySensor: bool

    /** The flags as one value. */
    function Flags(): Capabilities
      reads this
    {
      Capabilities(camera, lights, winkers, frontDistanceSensor,
                   leftDistanceSensor, rightDistanceSensor, velocitySensor)
    }

    /** `CarInformation(long id)`: no ip, no capabilities. */
    constructor WithId(id: int)
      ensures this.id == id && ip == None && Flags() == Uniform(false)
    {
      this.id := id;
      ip := None;
      camera, lights, winkers := false, false, false;
      frontDistanceSensor, leftDistanceSensor, rightDistanceSensor := false, false, false;
      velocitySensor := false;
    }

    /** `CarInformation(long id, String ip)`: the given id and ip, no capabilities. */
    constructor WithIp(id: int, ip: Option<string>)
      ensures this.id == id && this.ip == ip && Flags() == Uniform(false)
    {
      this.id := id;
      this.ip := ip;
      camera, lights, winkers := false, false, false;
      frontDistanceSensor, leftDistanceSensor, rightDistanceSensor := false, false, false;
      velocitySensor := false;
    }

    /** `CarInformation(long id, boolean hasAll)`: no ip; all seven flags are `hasAll`. */
    constructor WithAll(id: int, hasAll: bool)
      ensures this.id == id && ip == None && Flags() == Uniform(hasAll)
    {
      this.id := id;
      ip := None;
      camera, lights, winkers := false, false, false;
      frontDistanceSensor, leftDistanceSensor, rightDistanceSensor := false, false, false;
      velocitySensor := false;
      if hasAll {
        camera := true;
        lights := true;
        winkers := true;
        frontDistanceSensor := true;
        leftDistanceSensor := true;
        rightDistanceSensor := true;
        velocitySensor := true;
      }
    }

    /** The nine-argument constructor: every getter returns its argument. */
    constructor Full(id: int, ip: Option<string>, camera: bool, lights: bool, winkers: bool,
                     frontDistanceSensor: bool, leftDistanceSensor: bool,
                     rightDistanceSensor: bool, velocitySensor: bool)
      ensures GetId() == id && GetIp() == ip
      ensures HasCamera() == camera && HasLights() == lights && HasWinkers() == winkers
      ensures HasFrontDistanceSensor() == frontDistanceSensor
      ensures HasLeftDistanceSensor() == leftDistanceSensor
      ensures HasRightDistanceSensor() == rightDistanceSensor
      ensures HasVelocitySensor() == velocitySensor
    {
      this.id := id;
      this.ip := ip;
      this.camera := camera;
      this.lights := lights;
      this.winkers := winkers;
      this.frontDistanceSensor := frontDistanceSensor;
      this.leftDistanceSensor := leftDistanceSensor;
      this.rightDistanceSensor := rightDistanceSensor;
      this.velocitySensor := velocitySensor;
    }

    // Each setter may write its own field only, so every other getter keeps its value.

    method SetId(id: int)
      modifies this`id
      ensures GetId() == id
    {
      this.id := id;
    }

    method SetIp(ip: Option<string>)
      modifies this`ip
      ensures GetIp() == ip
    {
      this.ip := ip;
    }

    method SetCamera(camera: bool)
      modifies this`camera
      ensures HasCamera() == camera
    {
      this.camera := camera;
    }

    method SetLights(lights: bool)
      modifies this`lights
      ensures HasLights() == lights
    {
      this.lights := lights;
    }

    method SetWinkers(winkers: bool)
      modifies this`winkers
      ensures HasWinkers() == winkers
    {
      this.winkers := winkers;
    }

    method SetFrontDistanceSensor(frontDistanceSensor: bool)
      modifies this`frontDistanceSensor
      ensures HasFrontDistanceSensor() == frontDistanceSensor
    {
      this.frontDistanceSensor := frontDistanceSensor;
    }

    method SetLeftDistanceSensor(leftDistanceSensor: bool)
      modifies this`leftDistanceSensor
      ensures HasLeftDistanceSensor() == leftDistanceSensor
    {
      this.leftDistanceSensor := leftDistanceSensor;
    }

    method SetRightDistanceSensor(rightDistanceSensor: bool)
      modifies this`rightDistanceSensor
      ensures HasRightDistanceSensor() == rightDistanceSensor
    {
      this.rightDistanceSensor := rightDistanceSensor;
    }

    method SetVelocitySensor(velocitySensor: bool)
      modifies this`velocitySensor
      ensures HasVelocitySensor() == velocitySensor
    {
      this.velocitySensor := velocitySensor;
    }

    function GetId(): int reads this { id }
    function GetIp(): Option<string> reads this { ip }
    function HasCamera(): bool reads this { camera }
    function HasLights(): bool reads this { lights }
    function HasWinkers(): bool reads this { winkers }
    function HasFrontDistanceSensor(): bool reads this { frontDistanceSensor }
    function HasLeftDistanceSensor(): bool reads this { leftDistanceSensor }
    function HasRightDistanceSensor(): bool reads this { rightDistanceSensor }
    function HasVelocitySensor(): bool reads this { velocitySensor }

    /** `equals(Object)`: the same object, or another record with the same id.
        The ip and the flags play no part. */
    predicate Equals(other: CarInformation?)
      reads this, other
      ensures Equals(other) <==> other != null && other.id == id
    {
      this == other || (other != null && other.id == id)
    }
  }

  /** Record equality is an equivalence relation, because it is equality of ids. */
  lemma EqualsIsEquivalence(a: CarInformation, b: CarInformation, c: CarInformation)
    ensures a.Equals(a)
    ensures a.Equals(b) <==> b.Equals(a)
    ensures a.Equals(b) && b.Equals(c) ==> a.Equals(c)
  {
  }
}
