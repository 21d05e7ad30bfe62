/**
 * The light platform of one CAN bus (`async_setup_platform`): every
 * configured relay becomes a `Device` sharing one bus and one lock, and the
 * notifier hands every frame that passes the receive filter to every device,
 * in list order.
 *
 * `NetState` is the abstract value of the whole platform. `Deliver`, `Command`,
 * `Begin` and `Complete` are its steps, one per source operation; the
 * `Network` class is proved to follow them. The lemmas say what the shared
 * lock buys: while every status query is sent, at most one device awaits a
 * reply, so a GET reply (which names no relay) reaches at most one device.
 */
module Platform {
  import opened Frames
  import opened Transport
  import opened Light

  /** One entry of the `lights:` list: name, module, relay. */
  datatype LightConfig = LightConfig(name: string, moduleIndex: int, relayIndex: int)

  /** A configuration entry the entity constructor accepts. */
  predicate ByteAddressed(c: LightConfig)
  {
    0 <= c.moduleIndex < 256 && 0 <= c.relayIndex < 256
  }

  /** The devices in configuration order, the lock, and every frame sent so far. */
  datatype NetState = NetState(devices: seq<DeviceState>, locked: bool, sent: seq<Frame>)

  /** The platform right after setup: one idle, off device per entry, nothing sent. */
  function InitialNet(configs: seq<LightConfig>): (s: NetState)
    requires forall k :: 0 <= k < |configs| ==> ByteAddressed(configs[k])
    ensures |s.devices| == |configs| && !s.locked && s.sent == []
    ensures forall k :: 0 <= k < |configs| ==>
              s.devices[k].moduleIndex as int == configs[k].moduleIndex &&
              s.devices[k].relayIndex as int == configs[k].relayIndex &&
              !s.devices[k].isOn && !s.devices[k].awaiting && !s.devices[k].eventSet &&
              !s.devices[k].inUpdate
  {
    NetState(
      seq(|configs|, k requires 0 <= k < |configs| && ByteAddressed(configs[k]) =>
        InitialState(ToByte(configs[k].moduleIndex), ToByte(configs[k].relayIndex))),
      false, [])
  }

  /** The frame the notifier may hand to `on_message_received`. */
  predicate Deliverable(f: Frame)
  {
    PassesFilters(RECEIVE_FILTERS, f) ==> WellFormed(f)
  }

  /** One received frame: dropped by the filter, or fanned out to every device. */
  function Deliver(s: NetState, f: Frame): (r: NetState)
    requires Deliverable(f)
    ensures |r.devices| == |s.devices| && r.locked == s.locked && r.sent == s.sent
    ensures forall k :: 0 <= k < |s.devices| ==>
              r.devices[k].inUpdate == s.devices[k].inUpdate &&
              r.devices[k].awaiting == s.devices[k].awaiting &&
              r.devices[k].moduleIndex == s.devices[k].moduleIndex &&
              r.devices[k].relayIndex == s.devices[k].relayIndex &&
              (s.devices[k].eventSet ==> r.devices[k].eventSet)
  {
    if PassesFilters(RECEIVE_FILTERS, f) then
      s.(devices := seq(|s.devices|, k requires 0 <= k < |s.devices| => OnMessage(s.devices[k], f)))
    else
      s
  }

  /** Frames received one after another. */
  function DeliverAll(s: NetState, fs: seq<Frame>): (r: NetState)
    requires forall k :: 0 <= k < |fs| ==> Deliverable(fs[k])
    ensures |r.devices| == |s.devices| && r.locked == s.locked && r.sent == s.sent
    ensures forall k :: 0 <= k < |s.devices| ==>
              r.devices[k].inUpdate == s.devices[k].inUpdate &&
              r.devices[k].awaiting == s.devices[k].awaiting &&
              r.devices[k].moduleIndex == s.devices[k].moduleIndex &&
              r.devices[k].relayIndex == s.devices[k].relayIndex &&
              (s.devices[k].eventSet ==> r.devices[k].eventSet)
    decreases |fs|
  {
    if fs == [] then s else Deliver(DeliverAll(s, fs[..|fs| - 1]), fs[|fs| - 1])
  }

  /** `async_turn_on` / `async_turn_off` on device `i`: at most one SET frame, no state change. */
  function Command(s: NetState, i: nat, on: bool, accepted: bool): NetState
    requires i < |s.devices|
  {
    var d := s.devices[i];
    s.(sent := s.sent + if accepted then [CommandFrame(d.moduleIndex, d.relayIndex, on)] else [])
  }

  /** `async_update` on device `i` up to the event wait; it can start only when the lock is free. */
  function Begin(s: NetState, i: nat, accepted: bool): NetState
    requires i < |s.devices| && !s.locked
  {
    var d := s.devices[i];
    s.(devices := s.devices[i := StartUpdate(d, accepted)],
       locked := accepted,
       sent := s.sent + if accepted then [QueryFrame(d.moduleIndex, d.relayIndex)] else [])
  }

  /** The event wait of device `i` returns only once its event is set. */
  predicate CanComplete(s: NetState, i: nat)
  {
    i < |s.devices| && s.devices[i].inUpdate && s.devices[i].eventSet && s.locked
  }

  /** `async_update` on device `i` after the event wait. */
  function Complete(s: NetState, i: nat): NetState
    requires CanComplete(s, i)
  {
    s.(devices := s.devices[i := FinishUpdate(s.devices[i])], locked := false)
  }

  // ---------------------------------------------------------------- invariants

  /** At most one device is inside `async_update`, and the lock is held exactly then. */
  predicate LockHeldByOne(s: NetState)
  {
    (forall i, j ::
       0 <= i < |s.devices| && 0 <= j < |s.devices| && s.devices[i].inUpdate && s.devices[j].inUpdate
       ==> i == j) &&
    (s.locked <==> exists i :: 0 <= i < |s.devices| && s.devices[i].inUpdate)
  }

  /** On top of that, only the lock holder awaits a reply. */
  predicate Serialized(s: NetState)
  {
    LockHeldByOne(s) &&
    forall i :: 0 <= i < |s.devices| && s.devices[i].awaiting ==> s.devices[i].inUpdate
  }

  lemma InitialNetSerialized(configs: seq<LightConfig>)
    requires forall k :: 0 <= k < |configs| ==> ByteAddressed(configs[k])
    ensures Serialized(InitialNet(configs))
  {
  }

  /** While queries are serialized, no two devices await a reply at the same time. */
  lemma SerializedAtMostOneAwaiting(s: NetState, i: nat, j: nat)
    requires Serialized(s) && i < |s.devices| && j < |s.devices|
    requires s.devices[i].awaiting && s.devices[j].awaiting
    ensures i == j
  {
  }

  lemma DeliverPreservesLock(s: NetState, f: Frame)
    requires LockHeldByOne(s) && Deliverable(f)
    ensures LockHeldByOne(Deliver(s, f))
  {
    var r := Deliver(s, f);
    if s.locked {
      var i :| 0 <= i < |s.devices| && s.devices[i].inUpdate;
      assert r.devices[i].inUpdate;
    }
  }

  lemma DeliverPreservesSerialized(s: NetState, f: Frame)
    requires Serialized(s) && Deliverable(f)
    ensures Serialized(Deliver(s, f))
  {
    DeliverPreservesLock(s, f);
  }

  lemma CommandPreservesSerialized(s: NetState, i: nat, on: bool, accepted: bool)
    requires Serialized(s) && i < |s.devices|
    ensures Serialized(Command(s, i, on, accepted))
    ensures Command(s, i, on, accepted).devices == s.devices
  {
  }

  /** Taking the lock when it is free keeps the lock consistent, whatever the send does. */
  lemma BeginPreservesLock(s: NetState, i: nat, accepted: bool)
    requires LockHeldByOne(s) && i < |s.devices| && !s.locked
    ensures LockHeldByOne(Begin(s, i, accepted))
  {
    var r := Begin(s, i, accepted);
    if accepted {
      assert r.devices[i].inUpdate;
    }
  }

  /** A status query that is sent keeps queries serialized. */
  lemma BeginPreservesSerialized(s: NetState, i: nat)
    requires Serialized(s) && i < |s.devices| && !s.locked
    ensures Serialized(Begin(s, i, true))
  {
    BeginPreservesLock(s, i, true);
  }

  /** Finishing an update releases the lock and leaves no device inside `async_update`. */
  lemma CompletePreservesLock(s: NetState, i: nat)
    requires LockHeldByOne(s) && CanComplete(s, i)
    ensures LockHeldByOne(Complete(s, i))
    ensures forall j :: 0 <= j < |s.devices| ==> !Complete(s, i).devices[j].inUpdate
  {
    var r := Complete(s, i);
    forall j | 0 <= j < |r.devices|
      ensures !r.devices[j].inUpdate
    {
      if j != i {
        assert r.devices[j] == s.devices[j];
      }
    }
  }

  /** A finished update keeps queries serialized, with the flag clear and the lock free. */
  lemma CompletePreservesSerialized(s: NetState, i: nat)
    requires Serialized(s) && CanComplete(s, i)
    ensures Serialized(Complete(s, i))
    ensures !Complete(s, i).devices[i].awaiting && !Complete(s, i).locked
  {
    CompletePreservesLock(s, i);
  }

  /** While the lock is held by a device whose event is not yet set, that device's update cannot finish. */
  lemma {:induction false} NoReplyNoCompletion(s: NetState, fs: seq<Frame>, i: nat)
    requires i < |s.devices| && !s.devices[i].eventSet
    requires forall k :: 0 <= k < |fs| ==> Deliverable(fs[k]) && fs[k].id != GET_REPLY_ID
    ensures !DeliverAll(s, fs).devices[i].eventSet
    decreases |fs|
  {
    if fs != [] {
      var fs' := fs[..|fs| - 1];
      NoReplyNoCompletion(s, fs', i);
      var before := DeliverAll(s, fs');
      if PassesFilters(RECEIVE_FILTERS, fs[|fs| - 1]) {
        assert DeliverAll(s, fs).devices[i] == OnMessage(before.devices[i], fs[|fs| - 1]);
      }
    }
  }

  // ---------------------------------------------------------------- runs

  /** Something that happens on the platform. */
  datatype Event =
    | Received(f: Frame)
    | Commanded(i: nat, on: bool, accepted: bool)
    | UpdateStarted(i: nat, querySent: bool)
    | UpdateFinished(i: nat)

  datatype Option<T> = None | Some(value: T)

  /** When an event can happen: a query needs the free lock, a finish needs its event. */
  predicate Enabled(s: NetState, e: Event)
  {
    match e
    case Received(f) => Deliverable(f)
    case Commanded(i, _, _) => i < |s.devices|
    case UpdateStarted(i, _) => i < |s.devices| && !s.locked
    case UpdateFinished(i) => CanComplete(s, i)
  }

  function Step(s: NetState, e: Event): NetState
    requires Enabled(s, e)
  {
    match e
    case Received(f) => Deliver(s, f)
    case Commanded(i, on, accepted) => Command(s, i, on, accepted)
    case UpdateStarted(i, querySent) => Begin(s, i, querySent)
    case UpdateFinished(i) => Complete(s, i)
  }

  /** The state after a sequence of events, or `None` if one of them could not happen. */
  function Run(s: NetState, es: seq<Event>): Option<NetState>
    decreases |es|
  {
    if es == [] then Some(s)
    else if Enabled(s, es[0]) then Run(Step(s, es[0]), es[1..])
    else None
  }

  /** No status query in the run failed to send. */
  predicate QueriesSent(es: seq<Event>)
  {
    forall k :: 0 <= k < |es| ==> (es[k].UpdateStarted? ==> es[k].querySent)
  }

  /** The lock is held by at most one device, and exactly while one is updating, on every run. */
  lemma {:induction false} LockHeldByOneAlongRuns(s: NetState, es: seq<Event>)
    requires LockHeldByOne(s) && Run(s, es).Some?
    ensures LockHeldByOne(Run(s, es).value)
    decreases |es|
  {
    if es != [] {
      var e := es[0];
      match e {
        case Received(f) => DeliverPreservesLock(s, f);
        case Commanded(i, on, accepted) =>
        case UpdateStarted(i, querySent) => BeginPreservesLock(s, i, querySent);
        case UpdateFinished(i) => CompletePreservesLock(s, i);
      }
      LockHeldByOneAlongRuns(Step(s, e), es[1..]);
    }
  }

  /**
   * From setup on, as long as every status query is sent, queries stay
   * serialized after every event, so at most one device is awaiting a reply.
   */
  lemma {:induction false} SerializedAlongRuns(s: NetState, es: seq<Event>)
    requires Serialized(s) && QueriesSent(es) && Run(s, es).Some?
    ensures Serialized(Run(s, es).value)
    ensures var t := Run(s, es).value;
      forall i, j ::
        0 <= i < |t.devices| && 0 <= j < |t.devices| && t.devices[i].awaiting && t.devices[j].awaiting
        ==> i == j
    decreases |es|
  {
    if es != [] {
      var e := es[0];
      assert QueriesSent(es[1..]) by {
        forall k | 0 <= k < |es| - 1 ensures es[1..][k].UpdateStarted? ==> es[1..][k].querySent {
          assert es[1..][k] == es[k + 1];
        }
      }
      match e {
        case Received(f) => DeliverPreservesSerialized(s, f);
        case Commanded(i, on, accepted) => CommandPreservesSerialized(s, i, on, accepted);
        case UpdateStarted(i, querySent) =>
          assert es[0].UpdateStarted?;
          BeginPreservesSerialized(s, i);
        case UpdateFinished(i) => CompletePreservesSerialized(s, i);
      }
      SerializedAlongRuns(Step(s, e), es[1..]);
    }
  }

  // ---------------------------------------------------------------- what a frame does

  /** A frame with any id other than the two reply ids changes nothing. */
  lemma OtherIdsChangeNothing(s: NetState, f: Frame)
    requires f.id != SET_ACK_ID && f.id != GET_REPLY_ID
    ensures Deliverable(f) && Deliver(s, f) == s
  {
    ReceiveFilterExact(f);
  }

  /** A SET acknowledgement changes exactly the devices it addresses, and sets their state. */
  lemma AckChangesExactlyAddressed(s: NetState, f: Frame)
    requires f.id == SET_ACK_ID && f.extended && WellFormed(f)
    ensures forall k :: 0 <= k < |s.devices| ==>
              (Deliver(s, f).devices[k] != s.devices[k] <==> AddressedTo(f, s.devices[k])) &&
              (AddressedTo(f, s.devices[k]) ==> Deliver(s, f).devices[k].isOn == (f.data[2] == 1))
  {
    ReceiveFilterExact(f);
    forall k | 0 <= k < |s.devices|
      ensures Deliver(s, f).devices[k] != s.devices[k] <==> AddressedTo(f, s.devices[k])
      ensures AddressedTo(f, s.devices[k]) ==> Deliver(s, f).devices[k].isOn == (f.data[2] == 1)
    {
      AckChangesOnlyAddressedDevice(s.devices[k], f);
    }
  }

  /**
   * While queries are serialized, a GET reply changes at most one device:
   * the one awaiting it; with nobody awaiting it is dropped by every device.
   */
  lemma ReplyChangesAtMostOne(s: NetState, f: Frame)
    requires Serialized(s) && f.id == GET_REPLY_ID && WellFormed(f)
    ensures forall i, j ::
              0 <= i < |s.devices| && 0 <= j < |s.devices| &&
              Deliver(s, f).devices[i] != s.devices[i] && Deliver(s, f).devices[j] != s.devices[j]
              ==> i == j
    ensures (forall k :: 0 <= k < |s.devices| ==> !s.devices[k].awaiting) ==> Deliver(s, f) == s
  {
    var r := Deliver(s, f);
    forall k | 0 <= k < |s.devices|
      ensures r.devices[k] != s.devices[k] ==> s.devices[k].awaiting
    {
      if PassesFilters(RECEIVE_FILTERS, f) {
        ReplyChangesOnlyAwaitingDevice(s.devices[k], f);
      }
    }
    if forall k :: 0 <= k < |s.devices| ==> !s.devices[k].awaiting {
      assert r.devices == s.devices;
    }
  }

  /**
   * `_event_update` is never cleared: once a device has had one reply, its
   * next `async_update` can finish right after sending the query, with no new
   * reply and the cached state unchanged.
   */
  lemma LaterUpdateNeedsNoReply(s: NetState, i: nat)
    requires Serialized(s) && i < |s.devices| && !s.locked && s.devices[i].eventSet
    ensures CanComplete(Begin(s, i, true), i)
    ensures Complete(Begin(s, i, true), i).devices[i].isOn == s.devices[i].isOn
  {
  }

  /**
   * Because `_event_update` is never cleared, a reply can reach the wrong
   * device even when every query is sent. Device `i`, whose event was set by
   * an earlier reply, sends a query and finishes at once; device `j` then
   * sends its own query. The reply to `i`'s query, arriving now, is claimed
   * by `j` alone, although queries stayed serialized throughout.
   */
  lemma StaleEventMisattributesReply(s: NetState, i: nat, j: nat, b: Byte)
    requires Serialized(s) && !s.locked && i < |s.devices| && j < |s.devices| && i != j
    requires s.devices[i].eventSet
    ensures var s1 := Begin(s, i, true);
      CanComplete(s1, i) &&
      s1.sent == s.sent + [QueryFrame(s.devices[i].moduleIndex, s.devices[i].relayIndex)] &&
      var s2 := Complete(s1, i);
      !s2.locked &&
      var s3 := Begin(s2, j, true);
      var reply := Frame(GET_REPLY_ID, [b], true);
      Serialized(s1) && Serialized(s2) && Serialized(s3) && WellFormed(reply) &&
      Deliver(s3, reply).devices[i] == s3.devices[i] &&
      Deliver(s3, reply).devices[j].isOn == (b == 1) &&
      Deliver(s3, reply).devices[j].eventSet
  {
    var s1 := Begin(s, i, true);
    BeginPreservesSerialized(s, i);
    var s2 := Complete(s1, i);
    CompletePreservesSerialized(s1, i);
    var s3 := Begin(s2, j, true);
    BeginPreservesSerialized(s2, j);
    var reply := Frame(GET_REPLY_ID, [b], true);
    ReceiveFilterExact(reply);
    assert !s3.devices[i].awaiting;
    ReplyChangesOnlyAwaitingDevice(s3.devices[j], reply);
  }

  /**
   * A status query whose send raises leaves `_awaiting_update` set with the
   * lock released. A later query from any other device then makes two
   * devices await, and one GET reply turns both on.
   */
  lemma FailedQuerySendMisattributesReply(s: NetState, i: nat, j: nat)
    requires Serialized(s) && !s.locked && i < |s.devices| && j < |s.devices| && i != j
    ensures var s1 := Begin(s, i, false);
      var s2 := Begin(s1, j, true);
      var reply := Frame(GET_REPLY_ID, [1], true);
      !Serialized(s1) && !s1.locked &&
      WellFormed(reply) && s2.devices[i].awaiting && s2.devices[j].awaiting &&
      Deliver(s2, reply).devices[i].isOn && Deliver(s2, reply).devices[j].isOn
  {
    var s1 := Begin(s, i, false);
    var s2 := Begin(s1, j, true);
    var reply := Frame(GET_REPLY_ID, [1], true);
    ReceiveFilterExact(reply);
    assert s1.devices[i].awaiting && !s1.devices[i].inUpdate;
    ReplyChangesOnlyAwaitingDevice(s2.devices[i], reply);
    ReplyChangesOnlyAwaitingDevice(s2.devices[j], reply);
  }

  // ---------------------------------------------------------------- the platform object

  /** No device object appears twice in the entity list. */
  predicate Distinct(ds: seq<Device>)
  {
    forall i, j :: 0 <= i < j < |ds| ==> ds[i] != ds[j]
  }

  class Network {
    const bus: CanBus
    const lock: BusLock
    /** The entities, in configuration order; `can.Notifier` calls them in this order. */
    const devices: seq<Device>
    ghost var model: NetState

    ghost predicate Valid()
      reads this, bus, lock, devices
    {
      Distinct(devices) &&
      (forall k :: 0 <= k < |devices| ==>
         devices[k].bus == bus && devices[k].lock == lock && devices[k].Prepared()) &&
      |model.devices| == |devices| &&
      (forall k :: 0 <= k < |devices| ==> model.devices[k] == devices[k].State()) &&
      model.locked == lock.locked && model.sent == bus.sent &&
      LockHeldByOne(model)
    }

    /** `async_setup_platform`: one bus, one lock, one entity per configured light. */
    constructor (configs: seq<LightConfig>)
      requires forall k :: 0 <= k < |configs| ==> ByteAddressed(configs[k])
      ensures Valid() && model == InitialNet(configs)
      ensures |devices| == |configs| && forall k :: 0 <= k < |configs| ==> devices[k].name == configs[k].name
    {
      var b := new CanBus();
      var l := new BusLock();
      var ds: seq<Device> := [];
      var i := 0;
      while i < |configs|
        invariant 0 <= i <= |configs| && |ds| == i
        invariant Distinct(ds)
        invariant b.sent == [] && !l.locked
        invariant forall k :: 0 <= k < i ==>
                    ds[k].bus == b && ds[k].lock == l && ds[k].Prepared() &&
                    ds[k].State() == InitialNet(configs).devices[k] && ds[k].name == configs[k].name
      {
        var d := new Device(b, configs[i].name, configs[i].moduleIndex, configs[i].relayIndex, l);
        ds := ds + [d];
        i := i + 1;
      }
      bus := b;
      lock := l;
      devices := ds;
      model := InitialNet(configs);
    }

    /** `async_turn_on` / `async_turn_off` of entity `i`. */
    method SendCommand(i: nat, on: bool, accepted: bool) returns (ok: bool)
      requires Valid() && i < |devices|
      modifies this, bus
      ensures Valid() && ok == accepted
      ensures model == Command(old(model), i, on, accepted)
    {
      if on {
        ok := devices[i].TurnOn(accepted);
      } else {
        ok := devices[i].TurnOff(accepted);
      }
      model := Command(model, i, on, accepted);
    }

    /** The notifier: a frame that passes the bus filter goes to every entity in turn. */
    method Receive(f: Frame)
      requires Valid() && Deliverable(f)
      modifies this, devices
      ensures Valid()
      ensures model == Deliver(old(model), f)
    {
      if !PassesFilters(RECEIVE_FILTERS, f) {
        return;
      }
      var i := 0;
      while i < |devices|
        invariant 0 <= i <= |devices|
        invariant model == old(model)
        invariant forall k :: 0 <= k < i ==> devices[k].State() == OnMessage(old(devices[k].State()), f)
        invariant forall k :: i <= k < |devices| ==> devices[k].State() == old(devices[k].State())
      {
        devices[i].OnMessageReceived(f);
        i := i + 1;
      }
      model := Deliver(model, f);
      DeliverPreservesLock(old(model), f);
    }

    /** `async_update` of entity `i` up to the event wait; the lock must be free to enter. */
    method BeginUpdate(i: nat, accepted: bool) returns (ok: bool)
      requires Valid() && i < |devices| && !model.locked
      modifies this, devices[i], lock, bus
      ensures Valid() && ok == accepted
      ensures model == Begin(old(model), i, accepted)
    {
      ok := devices[i].BeginUpdate(accepted);
      BeginPreservesLock(model, i, accepted);
      model := Begin(model, i, accepted);
    }

    /** `async_update` of entity `i` after its event wait has returned. */
    method CompleteUpdate(i: nat)
      requires Valid() && CanComplete(model, i)
      modifies this, devices[i], lock
      ensures Valid()
      ensures model == Complete(old(model), i)
    {
      devices[i].CompleteUpdate();
      ghost var s := model;
      model := Complete(model, i);
      CompletePreservesLock(s, i);
    }

    /**
     * A whole `async_update` of entity `i` as one step under the lock: start,
     * receive the frames that arrive while it waits, and finish if its event
     * is set by then. Otherwise it is still waiting, holding the lock; the wait
     * has no timeout.
     */
    method Update(i: nat, accepted: bool, arriving: seq<Frame>) returns (completed: bool)
      requires Valid() && i < |devices| && !model.locked
      requires forall k :: 0 <= k < |arriving| ==> Deliverable(arriving[k])
      modifies this, devices, lock, bus
      ensures Valid()
      ensures !accepted ==> !completed && model == Begin(old(model), i, false)
      ensures accepted ==>
                var waiting := DeliverAll(Begin(old(model), i, true), arriving);
                completed == waiting.devices[i].eventSet &&
                model == if completed then Complete(waiting, i) else waiting
    {
      var ok := BeginUpdate(i, accepted);
      if !ok {
        completed := false;
        return;
      }
      ghost var started := model;
      var k := 0;
      while k < |arriving|
        invariant 0 <= k <= |arriving|
        invariant Valid()
        invariant model == DeliverAll(started, arriving[..k])
      {
        assert arriving[..k + 1][..k] == arriving[..k];
        Receive(arriving[k]);
        k := k + 1;
      }
      assert arriving[..k] == arriving;
      completed := devices[i].eventUpdate;
      if completed {
        CompleteUpdate(i);
      }
    }
  }
}
