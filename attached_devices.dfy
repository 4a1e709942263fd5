/**
 * The module scan of src/attached_devices.cpp. AttachedDevices is an
 * ActiveObject: it walks a zero-terminated list of bus addresses, pushing a
 * capabilities query task for each address and then one sensor-capabilities
 * query task per sensor, and moves on from its `done(task)`/`error(task)`
 * hooks. Its queue is `queue`; the query tasks are two fixed task objects.
 * What the tasks received is passed to the hooks; every `state->merge` call
 * is recorded in `merged`.
 */
module AttachedDevicesScan {
  import opened Basics
  import opened Messages
  import opened ActiveObjects

  /** The queryCapabilities and querySensorCapabilities task objects. */
  const CapabilitiesTask: TaskId := 1
  const SensorCapabilitiesTask: TaskId := 2

  /** Milliseconds after which an orphaned device looks again (`30 * 1000`). */
  const RescanInterval: uint32 := 30000

  /** One `state->merge(address, reply)` call. */
  datatype Merge = Merge(address: uint8, reply: ReplyMessage)

  class AttachedDevices {
    /** The address list; the scan stops at its first 0. */
    const addresses: seq<uint8>
    var addressIndex: uint8
    var lastScanAt: uint32
    /** The object's own task queue. */
    const queue: ActiveObject
    /** The address the capabilities task was built for. */
    var capabilitiesAddress: uint8
    /** numberOfSensors() of the capabilities task: the count its reply carried. */
    var numberOfSensors: nat
    /** The address and sensor index the sensor-capabilities task was built for. */
    var sensorAddress: uint8
    var sensor: uint8
    var merged: seq<Merge>

    /** The index has not run past the terminator, and can reach it without wrapping. */
    ghost predicate Valid()
      reads this, queue
    {
      queue.Valid() &&
      |addresses| <= Uint8Modulus &&
      addressIndex < |addresses| &&
      0 in addresses[addressIndex..]
    }

    constructor (addresses: seq<uint8>)
      requires 0 in addresses && |addresses| <= Uint8Modulus
      ensures Valid() && fresh(queue)
      ensures this.addresses == addresses && addressIndex == 0 && lastScanAt == 0
      ensures queue.tasks == [] && queue.idleTask == None && merged == []
    {
      this.addresses := addresses;
      addressIndex := 0;
      lastScanAt := 0;
      queue := new ActiveObject(None);
      capabilitiesAddress := 0;
      numberOfSensors := 0;
      sensorAddress := 0;
      sensor := 0;
      merged := [];
    }

    /** The address the scan currently sits at (0 once it has run off the list). */
    function Current(): uint8
      reads this
      requires addressIndex < |addresses|
    {
      addresses[addressIndex]
    }

    /** query(address): rebuilds the capabilities task for the address and pushes it. */
    method Query(address: uint8)
      requires Valid() && CapabilitiesTask !in queue.tasks
      modifies this, queue
      ensures Valid()
      ensures capabilitiesAddress == address && numberOfSensors == 0
      ensures queue.tasks == old(queue.tasks) + [CapabilitiesTask]
      ensures queue.trace == old(queue.trace) + [Enqueued(CapabilitiesTask)]
      ensures addressIndex == old(addressIndex) && lastScanAt == old(lastScanAt)
      ensures sensorAddress == old(sensorAddress) && sensor == old(sensor) && merged == old(merged)
    {
      capabilitiesAddress := address;
      numberOfSensors := 0;
      queue.Push(CapabilitiesTask);
    }

    /** resume(): queries the current address, unless it is the terminator. */
    method Resume()
      requires Valid() && CapabilitiesTask !in queue.tasks
      modifies this, queue
      ensures Valid()
      ensures addressIndex == old(addressIndex) && lastScanAt == old(lastScanAt)
      ensures sensorAddress == old(sensorAddress) && sensor == old(sensor) && merged == old(merged)
      ensures Current() > 0 ==>
        capabilitiesAddress == Current() && numberOfSensors == 0 &&
        queue.tasks == old(queue.tasks) + [CapabilitiesTask] &&
        queue.trace == old(queue.trace) + [Enqueued(CapabilitiesTask)]
      ensures Current() == 0 ==>
        capabilitiesAddress == old(capabilitiesAddress) && numberOfSensors == old(numberOfSensors) &&
        queue.tasks == old(queue.tasks) && queue.trace == old(queue.trace)
    {
      if addresses[addressIndex] > 0 {
        Query(addresses[addressIndex]);
      }
    }

    /** scan(): starts over at the first address. */
    method Scan()
      requires Valid() && CapabilitiesTask !in queue.tasks
      modifies this, queue
      ensures Valid()
      ensures addressIndex == 0 && lastScanAt == old(lastScanAt) && merged == old(merged)
      ensures addresses[0] > 0 ==>
        capabilitiesAddress == addresses[0] && queue.tasks == old(queue.tasks) + [CapabilitiesTask]
      ensures addresses[0] == 0 ==> queue.tasks == old(queue.tasks)
    {
      addressIndex := 0;
      Resume();
    }

    /** The scan is due: no module is known, and it never scanned or 30 s have passed. */
    predicate ScanDue(now: uint32, numberOfModules: nat)
      reads this
    {
      numberOfModules == 0 && (lastScanAt == 0 || Sub32(now, lastScanAt) > RescanInterval)
    }

    /**
     * idle(): with no module known, scans when it never has, or when more
     * than 30 s (in wrapping uint32 time) have passed since the last scan.
     */
    method Idle(now: uint32, numberOfModules: nat)
      requires Valid() && CapabilitiesTask !in queue.tasks
      modifies this, queue
      ensures Valid() && merged == old(merged)
      ensures old(ScanDue(now, numberOfModules)) ==>
        lastScanAt == now && addressIndex == 0 &&
        queue.tasks == old(queue.tasks) + (if addresses[0] > 0 then [CapabilitiesTask] else [])
      ensures !old(ScanDue(now, numberOfModules)) ==>
        lastScanAt == old(lastScanAt) && addressIndex == old(addressIndex) && queue.tasks == old(queue.tasks)
    {
      if numberOfModules == 0 {
        if lastScanAt == 0 || Sub32(now, lastScanAt) > RescanInterval {
          lastScanAt := now;
          Scan();
        }
      }
    }

    /**
     * done(task): a capabilities reply is merged and sensor 0 of the same
     * address is queried; a sensor reply is merged and the next sensor is
     * queried while the (uint8_t) index stays below the module's count,
     * after which the scan moves on to the next address.
     */
    method Done(task: TaskId, reply: ReplyMessage)
      requires Valid() && (task == CapabilitiesTask || task == SensorCapabilitiesTask ==> Current() > 0)
      requires CapabilitiesTask !in queue.tasks && SensorCapabilitiesTask !in queue.tasks
      modifies this, queue
      ensures Valid() && lastScanAt == old(lastScanAt)
      ensures task == CapabilitiesTask ==>
        merged == old(merged) + [Merge(old(Current()), reply)] &&
        numberOfSensors == reply.capabilities.numberOfSensors &&
        sensorAddress == old(Current()) && sensor == 0 &&
        addressIndex == old(addressIndex) &&
        queue.tasks == old(queue.tasks) + [SensorCapabilitiesTask]
      ensures task == SensorCapabilitiesTask && Add8(old(sensor), 1) < old(numberOfSensors) ==>
        merged == old(merged) + [Merge(old(Current()), reply)] &&
        sensorAddress == old(Current()) && sensor == Add8(old(sensor), 1) &&
        addressIndex == old(addressIndex) && numberOfSensors == old(numberOfSensors) &&
        queue.tasks == old(queue.tasks) + [SensorCapabilitiesTask]
      ensures task == SensorCapabilitiesTask && Add8(old(sensor), 1) >= old(numberOfSensors) ==>
        merged == old(merged) + [Merge(old(Current()), reply)] &&
        addressIndex == old(addressIndex) + 1 &&
        queue.tasks == old(queue.tasks) + (if Current() > 0 then [CapabilitiesTask] else []) &&
        (Current() > 0 ==> capabilitiesAddress == Current())
      ensures task != CapabilitiesTask && task != SensorCapabilitiesTask ==>
        merged == old(merged) && addressIndex == old(addressIndex) && queue.tasks == old(queue.tasks)
    {
      var address := addresses[addressIndex];
      if task == CapabilitiesTask {
        merged := merged + [Merge(address, reply)];
        numberOfSensors := reply.capabilities.numberOfSensors;
        sensorAddress := address;
        sensor := 0;
        queue.Push(SensorCapabilitiesTask);
      } else if task == SensorCapabilitiesTask {
        merged := merged + [Merge(address, reply)];
        var next := Add8(sensor, 1);
        if next < numberOfSensors {
          sensorAddress := address;
          sensor := next;
          queue.Push(SensorCapabilitiesTask);
        } else {
          addressIndex := addressIndex + 1;
          Resume();
        }
      } else {
        // the LEDs show whether any module is attached
      }
    }

    /** error(task): gives up on the current address and moves on to the next. */
    method Error(task: TaskId)
      requires Valid() && Current() > 0 && CapabilitiesTask !in queue.tasks
      modifies this, queue
      ensures Valid() && merged == old(merged) && lastScanAt == old(lastScanAt)
      ensures addressIndex == old(addressIndex) + 1
      ensures queue.tasks == old(queue.tasks) + (if Current() > 0 then [CapabilitiesTask] else [])
      ensures Current() > 0 ==> capabilitiesAddress == Current()
    {
      addressIndex := addressIndex + 1;
      Resume();
    }
  }

  /** The sensor replies a scan merges for one module: one per index 0, 1, ... (at least one). */
  function SensorMerges(address: uint8, sensorReply: ReplyMessage, count: nat): seq<Merge> {
    if count == 0 then [] else SensorMerges(address, sensorReply, count - 1) + [Merge(address, sensorReply)]
  }

  /**
   * One sensor answer during the scan of the single module at address 8:
   * the scheduler pops the finished sensor task and calls `done`.
   */
  method AnswerSensor(devices: AttachedDevices, sensorReply: ReplyMessage)
    requires devices.Valid() && devices.addresses == [8, 0] && devices.addressIndex == 0
    requires devices.queue.tasks == [SensorCapabilitiesTask]
    requires devices.numberOfSensors < Uint8Modulus
    requires devices.sensor as int < devices.numberOfSensors || devices.sensor == 0
    modifies devices, devices.queue
    ensures devices.Valid() && devices.merged == old(devices.merged) + [Merge(8, sensorReply)]
    ensures old(devices.sensor) as int + 1 < old(devices.numberOfSensors) ==>
      devices.addressIndex == 0 && devices.sensor == old(devices.sensor) + 1 &&
      devices.numberOfSensors == old(devices.numberOfSensors) &&
      devices.queue.tasks == [SensorCapabilitiesTask]
    ensures old(devices.sensor) as int + 1 >= old(devices.numberOfSensors) ==>
      devices.addressIndex == 1 && devices.queue.tasks == []
  {
    devices.queue.Pop();
    devices.Done(SensorCapabilitiesTask, sensorReply);
  }

  /**
   * A scan of a single module at address 8 reporting `sensors` sensors,
   * every query answered: its capabilities are merged, then one sensor reply
   * per sensor (and one even when it reports none), and then the scan has
   * passed the end of the list with nothing left queued.
   */
  method ScanOneModule(sensors: nat, capabilities: ReplyMessage, sensorReply: ReplyMessage) returns (merges: seq<Merge>, queriedSensors: nat)
    requires sensors < Uint8Modulus
    requires capabilities.capabilities.numberOfSensors == sensors
    ensures queriedSensors == (if sensors == 0 then 1 else sensors)
    ensures merges == [Merge(8, capabilities)] + SensorMerges(8, sensorReply, queriedSensors)
  {
    var devices := new AttachedDevices([8, 0]);
    devices.Scan();
    // the capabilities task has run and is done: the scheduler pops it
    devices.queue.Pop();
    devices.Done(CapabilitiesTask, capabilities);
    queriedSensors := 0;
    while devices.addressIndex == 0
      invariant devices.Valid() && devices.addresses == [8, 0]
      invariant devices.addressIndex == 0 ==>
        devices.numberOfSensors == sensors && devices.queue.tasks == [SensorCapabilitiesTask] &&
        devices.sensor as int == queriedSensors && queriedSensors < (if sensors == 0 then 1 else sensors)
      invariant devices.addressIndex == 1 ==>
        devices.queue.tasks == [] && queriedSensors == (if sensors == 0 then 1 else sensors)
      invariant devices.merged == [Merge(8, capabilities)] + SensorMerges(8, sensorReply, queriedSensors)
      decreases 1 - devices.addressIndex, sensors - devices.sensor
    {
      AnswerSensor(devices, sensorReply);
      queriedSensors := queriedSensors + 1;
    }
    merges := devices.merged;
  }
}
