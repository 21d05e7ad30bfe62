/**
 * One Dobiss relay as a Home Assistant light (`DobissLight`): its prepared
 * frames, the commands it sends, how it classifies every frame the bus
 * delivers, and the two halves of its status query around the shared lock.
 *
 * `DeviceState` is the abstract value of a device; `OnMessage`, `StartUpdate`
 * and `FinishUpdate` say how it changes, and the `Device` class is proved to
 * follow them.
 */
module Light {
  import opened Frames
  import opened Transport

  /**
   * What a relay entity knows. `awaiting` is `_awaiting_update`, `eventSet`
   * the flag of `_event_update`, `notifications` counts the state-write jobs
   * handed to Home Assistant by the `is_on` setter, and `inUpdate` says that
   * this device's `async_update` is inside the shared lock.
   */
  datatype DeviceState = DeviceState(
    moduleIndex: Byte,
    relayIndex: Byte,
    isOn: bool,
    awaiting: bool,
    eventSet: bool,
    notifications: nat,
    inUpdate: bool)

  /** A freshly constructed entity: off, idle, event clear. */
  function InitialState(moduleIndex: Byte, relayIndex: Byte): DeviceState
  {
    DeviceState(moduleIndex, relayIndex, false, false, false, 0, false)
  }

  /**
   * The payload bytes `on_message_received` reads exist: three for a SET
   * acknowledgement, one for a GET reply.
   */
  predicate WellFormed(f: Frame)
  {
    (f.id == SET_ACK_ID ==> |f.data| >= 3) &&
    (f.id == GET_REPLY_ID ==> |f.data| >= 1)
  }

  /** A SET acknowledgement names its relay in its first two bytes. */
  predicate AddressedTo(f: Frame, d: DeviceState)
    requires WellFormed(f)
  {
    f.id == SET_ACK_ID && f.data[0] == d.moduleIndex && f.data[1] == d.relayIndex
  }

  /** The `is_on` setter: store the value and schedule one state write. */
  function WriteIsOn(d: DeviceState, value: bool): DeviceState
  {
    d.(isOn := value, notifications := d.notifications + 1)
  }

  /**
   * `on_message_received`: first the SET-acknowledgement check (by address),
   * then the GET-reply check (by the awaiting flag alone).
   */
  function OnMessage(d: DeviceState, f: Frame): (r: DeviceState)
    requires WellFormed(f)
    ensures r.moduleIndex == d.moduleIndex && r.relayIndex == d.relayIndex
    ensures r.awaiting == d.awaiting && r.inUpdate == d.inUpdate
    ensures d.notifications <= r.notifications <= d.notifications + 1
    ensures d.eventSet ==> r.eventSet
    ensures r != d ==> f.id == SET_ACK_ID || f.id == GET_REPLY_ID
  {
    var afterAck := if AddressedTo(f, d) then WriteIsOn(d, f.data[2] == 1) else d;
    if f.id == GET_REPLY_ID && afterAck.awaiting then
      WriteIsOn(afterAck, f.data[0] == 1).(eventSet := true)
    else
      afterAck
  }

  /** A SET acknowledgement changes a device exactly when it carries the device's address. */
  lemma AckChangesOnlyAddressedDevice(d: DeviceState, f: Frame)
    requires f.id == SET_ACK_ID && WellFormed(f)
    ensures OnMessage(d, f) != d <==> f.data[0] == d.moduleIndex && f.data[1] == d.relayIndex
    ensures AddressedTo(f, d) ==>
              OnMessage(d, f).isOn == (f.data[2] == 1) &&
              OnMessage(d, f).notifications == d.notifications + 1 &&
              OnMessage(d, f).eventSet == d.eventSet
  {
    if AddressedTo(f, d) {
      assert OnMessage(d, f).notifications == d.notifications + 1;
    }
  }

  /** A GET reply changes a device exactly when the device is awaiting one, and then sets its event. */
  lemma ReplyChangesOnlyAwaitingDevice(d: DeviceState, f: Frame)
    requires f.id == GET_REPLY_ID && WellFormed(f)
    ensures OnMessage(d, f) != d <==> d.awaiting
    ensures d.awaiting ==>
              OnMessage(d, f).isOn == (f.data[0] == 1) &&
              OnMessage(d, f).eventSet &&
              OnMessage(d, f).notifications == d.notifications + 1
  {
    if d.awaiting {
      assert OnMessage(d, f).notifications == d.notifications + 1;
    }
  }

  /** Any other frame leaves the device as it was. */
  lemma OtherFramesIgnored(d: DeviceState, f: Frame)
    requires f.id != SET_ACK_ID && f.id != GET_REPLY_ID
    ensures OnMessage(d, f) == d
  {
  }

  /**
   * Round trip: when the module echoes a device's own ON (OFF) payload as a
   * SET acknowledgement, the device ends up on (off).
   */
  lemma CommandEchoSetsState(d: DeviceState, on: bool)
    ensures var ack := Frame(SET_ACK_ID, CommandFrame(d.moduleIndex, d.relayIndex, on).data, true);
      WellFormed(ack) && OnMessage(d, ack).isOn == on
  {
    var ack := Frame(SET_ACK_ID, CommandFrame(d.moduleIndex, d.relayIndex, on).data, true);
    assert AddressedTo(ack, d);
  }

  /**
   * First half of `async_update`, after the lock is taken: set the awaiting
   * flag and send the query. When the send raises, the exception leaves the
   * `async with` block, so the lock is released, but nothing clears the flag.
   */
  function StartUpdate(d: DeviceState, querySent: bool): (r: DeviceState)
    ensures r.awaiting
    ensures r.inUpdate == querySent
    ensures r.isOn == d.isOn && r.eventSet == d.eventSet && r.notifications == d.notifications
  {
    d.(awaiting := true, inUpdate := querySent)
  }

  /** Second half of `async_update`, once the event wait has returned. */
  function FinishUpdate(d: DeviceState): (r: DeviceState)
    ensures !r.awaiting && !r.inUpdate
    ensures r.isOn == d.isOn && r.eventSet == d.eventSet && r.notifications == d.notifications
  {
    d.(awaiting := false, inUpdate := false)
  }

  /** The `asyncio.Lock` shared by all lights of one bus. */
  class BusLock {
    var locked: bool

    constructor ()
      ensures !locked
    {
      locked := false;
    }
  }

  class Device {
    const name: string
    const moduleIndex: Byte
    const relayIndex: Byte
    const setId: CanId
    const bytesOff: seq<Byte>
    const bytesOn: seq<Byte>
    const bytesStatus: seq<Byte>
    const bus: CanBus
    const lock: BusLock

    var isOn: bool
    var awaitingUpdate: bool
    /** The flag of `_event_update` (an `asyncio.Event`). */
    var eventUpdate: bool
    /** State writes scheduled with Home Assistant by the `is_on` setter. */
    var notifications: nat
    /** Where this device's `async_update` is: inside the lock, waiting for its event. */
    ghost var inUpdate: bool

    /** The fixed ids and payloads the constructor prepares. */
    predicate Prepared()
    {
      setId == SetId(moduleIndex) &&
      bytesOn == CommandPayload(moduleIndex, relayIndex, true) &&
      bytesOff == CommandPayload(moduleIndex, relayIndex, false) &&
      bytesStatus == StatusPayload(moduleIndex, relayIndex)
    }

    ghost function State(): DeviceState
      reads this
    {
      DeviceState(moduleIndex, relayIndex, isOn, awaitingUpdate, eventUpdate, notifications, inUpdate)
    }

    /**
     * `DobissLight.__init__`. `bytes(...)` accepts only values 0..255, so the
     * configured module and relay must be bytes.
     */
    constructor (bus: CanBus, name: string, moduleIndex: int, relayIndex: int, lock: BusLock)
      requires 0 <= moduleIndex < 256 && 0 <= relayIndex < 256
      ensures Prepared()
      ensures this.bus == bus && this.lock == lock && this.name == name
      ensures this.moduleIndex as int == moduleIndex && this.relayIndex as int == relayIndex
      ensures State() == InitialState(this.moduleIndex, this.relayIndex)
    {
      var m, r := ToByte(moduleIndex), ToByte(relayIndex);
      this.bus := bus;
      this.lock := lock;
      this.name := name;
      this.moduleIndex := m;
      this.relayIndex := r;
      this.setId := SetId(m);
      this.bytesOff := CommandPayload(m, r, false);
      this.bytesOn := CommandPayload(m, r, true);
      this.bytesStatus := StatusPayload(m, r);
      this.isOn := false;
      this.awaitingUpdate := false;
      this.eventUpdate := false;
      this.notifications := 0;
      this.inUpdate := false;
    }

    /** `unique_id` */
    function UniqueIdOf(): string
    {
      UniqueId(moduleIndex, relayIndex)
    }

    /** The `is_on` setter. */
    method SetIsOn(value: bool)
      modifies this
      ensures State() == WriteIsOn(old(State()), value)
    {
      isOn := value;
      notifications := notifications + 1;
    }

    /** `async_turn_on`: one SET frame with the ON payload; the cached state is untouched. */
    method TurnOn(accepted: bool) returns (ok: bool)
      requires Prepared()
      modifies bus
      ensures ok == accepted
      ensures bus.sent == old(bus.sent) + (if ok then [CommandFrame(moduleIndex, relayIndex, true)] else [])
    {
      ok := bus.Send(Frame(setId, bytesOn, true), accepted);
    }

    /** `async_turn_off`: one SET frame with the OFF payload; the cached state is untouched. */
    method TurnOff(accepted: bool) returns (ok: bool)
      requires Prepared()
      modifies bus
      ensures ok == accepted
      ensures bus.sent == old(bus.sent) + (if ok then [CommandFrame(moduleIndex, relayIndex, false)] else [])
    {
      ok := bus.Send(Frame(setId, bytesOff, true), accepted);
    }

    /** `on_message_received` */
    method OnMessageReceived(f: Frame)
      requires WellFormed(f)
      modifies this
      ensures State() == OnMessage(old(State()), f)
    {
      if f.id == SET_ACK_ID && f.data[0] == moduleIndex && f.data[1] == relayIndex {
        SetIsOn(f.data[2] == 1);
      }
      if f.id == GET_REPLY_ID && awaitingUpdate {
        SetIsOn(f.data[0] == 1);
        eventUpdate := true;
      }
    }

    /**
     * `async_update` up to the event wait: take the lock, set the awaiting
     * flag, send the status query. A send that raises releases the lock
     * (leaving the `async with`) and leaves the flag set.
     */
    method BeginUpdate(accepted: bool) returns (ok: bool)
      requires Prepared() && !lock.locked
      modifies this, lock, bus
      ensures ok == accepted
      ensures State() == StartUpdate(old(State()), ok)
      ensures lock.locked == ok
      ensures bus.sent == old(bus.sent) + (if ok then [QueryFrame(moduleIndex, relayIndex)] else [])
    {
      lock.locked := true;
      inUpdate := true;
      awaitingUpdate := true;
      ok := bus.Send(Frame(GET_ID, bytesStatus, true), accepted);
      if !ok {
        lock.locked := false;
        inUpdate := false;
      }
    }

    /**
     * `async_update` after the event wait has returned (which needs the event
     * to be set): clear the awaiting flag and leave the lock. The event itself
     * is not cleared.
     */
    method CompleteUpdate()
      requires inUpdate && eventUpdate && lock.locked
      modifies this, lock
      ensures State() == FinishUpdate(old(State()))
      ensures !lock.locked
    {
      awaitingUpdate := false;
      inUpdate := false;
      lock.locked := false;
    }
  }
}
