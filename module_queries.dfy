/**
 * The ModuleQuery implementations of src/core/attached_devices.h. Each
 * fills the query message it is asked for and keeps what it needs from the
 * reply. Messages are values here: `query(message)` takes the message as it
 * is and returns it as the query leaves it.
 */
module ModuleQueries {
  import opened Basics
  import opened Messages

  /**
   * fk_module_ModuleType values for a communications and a sensor module; the
   * generated protocol header is not part of this model, only the fact that
   * the two values differ is used.
   */
  const ModuleTypeSensor: uint8 := 0
  const ModuleTypeCommunications: uint8 := 1

  /** The firmware strings a capabilities reply carries. */
  datatype Firmware = Firmware(git: Option<seq<char>>, build: Option<seq<char>>)

  class QueryCapabilities {
    var moduleType: uint8
    var numberOfSensors: uint8
    var minimumNumberOfReadings: uint8
    var firmware: Firmware

    constructor ()
      ensures moduleType == 0 && numberOfSensors == 0 && minimumNumberOfReadings == 0
      ensures firmware == Firmware(None, None)
    {
      moduleType := 0;
      numberOfSensors := 0;
      minimumNumberOfReadings := 0;
      firmware := Firmware(None, None);
    }

    /** query(message): asks for the capabilities, passing the clock's time. */
    method Query(message: QueryMessage, clockTime: uint32) returns (m: QueryMessage)
      ensures m.queryType == CapabilitiesQuery && m.callerTime == clockTime
      ensures m.sensor == message.sensor
    {
      m := message.(queryType := CapabilitiesQuery, callerTime := clockTime);
    }

    /** reply(message): keeps the module type and counts (in `uint8_t` fields) and the firmware strings. */
    method Reply(message: ReplyMessage)
      modifies this
      ensures moduleType == Low8(message.capabilities.moduleType)
      ensures numberOfSensors == Low8(message.capabilities.numberOfSensors)
      ensures minimumNumberOfReadings == Low8(message.capabilities.minimumNumberOfReadings)
      ensures firmware == Firmware(Some(message.capabilities.git), Some(message.capabilities.build))
    {
      moduleType := Low8(message.capabilities.moduleType);
      numberOfSensors := Low8(message.capabilities.numberOfSensors);
      minimumNumberOfReadings := Low8(message.capabilities.minimumNumberOfReadings);
      firmware := Firmware(Some(message.capabilities.git), Some(message.capabilities.build));
    }

    /** isCommunications(): the reported type is the communications type, so never a sensor. */
    predicate IsCommunications(): (r: bool)
      reads this
      ensures r <==> moduleType == ModuleTypeCommunications
      ensures r ==> moduleType != ModuleTypeSensor
    {
      moduleType == ModuleTypeCommunications
    }

    /** isSensor(): the reported type is the sensor type, so never communications. */
    predicate IsSensor(): (r: bool)
      reads this
      ensures r <==> moduleType == ModuleTypeSensor
      ensures r ==> moduleType != ModuleTypeCommunications
    {
      moduleType == ModuleTypeSensor
    }

    /** getNumberOfSensors(): the count the last reply reported, as kept in its uint8_t field. */
    function GetNumberOfSensors(): (n: uint8)
      reads this
      ensures n == numberOfSensors
    {
      numberOfSensors
    }
  }

  /**
   * After a reply, a module is classed by the type it reported: never both
   * kinds, and for a type below 256 exactly the kind it named.
   */
  lemma CapabilitiesClassifyByReply(qc: QueryCapabilities, reported: uint32)
    requires qc.moduleType == Low8(reported)
    ensures !(qc.IsCommunications() && qc.IsSensor())
    ensures reported < Uint8Modulus ==> (qc.IsSensor() <==> reported == ModuleTypeSensor)
    ensures reported < Uint8Modulus ==> (qc.IsCommunications() <==> reported == ModuleTypeCommunications)
    ensures qc.IsSensor() <==> reported % Uint8Modulus == ModuleTypeSensor
  {
  }

  class QuerySensorCapabilities {
    /** The index of the sensor the next query asks about. */
    var sensor: uint8

    constructor ()
      ensures sensor == 0
    {
      sensor := 0;
    }

    /** query(message): asks about the current sensor index. */
    method Query(message: QueryMessage) returns (m: QueryMessage)
      ensures m.queryType == SensorCapabilitiesQuery && m.sensor == sensor
      ensures m.callerTime == message.callerTime
    {
      m := message.(queryType := SensorCapabilitiesQuery, sensor := sensor);
    }

    /** reply(message): moves on to the next sensor (the reply itself is only logged). */
    method Reply(message: ReplyMessage)
      modifies this
      ensures sensor == Add8(old(sensor), 1)
    {
      sensor := Add8(sensor, 1);
    }

    /** getSensor(): the index the next query asks about. */
    function GetSensor(): (i: uint8)
      reads this
      ensures i == sensor
    {
      sensor
    }
  }

  /**
   * Run as query, reply, query, reply, ... from a fresh object, the queries
   * ask about sensors 0, 1, ..., n - 1 in turn (for n up to 256, the range
   * of the index).
   */
  method SensorQueriesWalkTheIndices(n: nat) returns (asked: seq<uint32>)
    requires n <= Uint8Modulus
    ensures |asked| == n
    ensures forall i :: 0 <= i < n ==> asked[i] == i
  {
    var q := new QuerySensorCapabilities();
    asked := [];
    var i := 0;
    while i < n
      invariant 0 <= i <= n && |asked| == i
      invariant forall k :: 0 <= k < i ==> asked[k] == k
      invariant i < Uint8Modulus ==> q.sensor == i
    {
      var m := q.Query(DefaultQuery);
      asked := asked + [m.sensor];
      q.Reply(DefaultReply);
      i := i + 1;
    }
  }

  class QueryFirmware {
    constructor ()
    {
    }

    /** query(message): asks for the firmware information. */
    method Query(message: QueryMessage) returns (m: QueryMessage)
      ensures m.queryType == FirmwareQuery
      ensures m.callerTime == message.callerTime && m.sensor == message.sensor
    {
      m := message.(queryType := FirmwareQuery);
    }

    /** reply(message): only logs the good and pending firmware's size and etag, so it may change nothing. */
    method Reply(message: ReplyMessage)
    {
    }
  }
}
