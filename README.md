# Dobiss CAN relay lights, modelled in Dafny

A Dafny model of the protocol core of the Home Assistant integration for
Dobiss relay modules on a CAN bus (`custom_components/dobiss_can/light.py`).
Each configured relay becomes a `DobissLight`. The entity switches its relay
with a SET frame. It learns the relay's state from two kinds of inbound frame:

- a SET acknowledgement, which names module and relay in its payload;
- a GET reply, which names nothing and is claimed by whichever entity has
  `_awaiting_update` set.

One `asyncio.Lock` per bus serialises the status queries that produce GET
replies. Every inbound frame that passes the bus filter is handed to every
entity.

The project has four modules:

- `Frames` (`frames.dfy`) holds the pure encoding: arbitration ids as 29-bit
  `bv32` values, the ON/OFF and status payloads as `bv8` bytes, the python-can
  receive filter, and the entity's `unique_id` string.
- `Transport` (`transport.dfy`) holds the bus as seen by the entity: a log of
  accepted frames.
- `Light` (`light.py`'s `DobissLight`) has the abstract device value
  `DeviceState`, the classification function `OnMessage`, the two halves of
  `async_update`, and the `Device` class. The class has the entity's fields
  and is proved to follow those functions.
- `Platform` (`async_setup_platform`) has the whole-platform value
  `NetState`, one step function per source operation, the lock invariants,
  runs of events, and the `Network` class. `Network` owns the bus, the lock
  and the entity list, and delivers each frame to the entities in a loop.

`async_update` is split at its `await self._event_update.wait()`. The first
half takes the lock, sets `_awaiting_update` and sends the query. The second
half runs once the event is set: it clears the flag and leaves the lock. Frames
can be delivered in between. "The lock is free" is a precondition for starting
an update, which stands in for `async with self._lock` blocking. The model
also keeps a ghost flag per device (`inUpdate`): this device's update is
inside the lock.

Three properties of the code shape what the model can promise:

- The wait for the reply (`await self._event_update.wait()`, `light.py:135`)
  has no timeout. `Network.Update` can therefore end still waiting, with the
  lock held, and `NoReplyNoCompletion` shows that without a GET reply a first
  update never finishes.
- Nothing clears `_awaiting_update` when the query send at `light.py:133`
  raises: the flag is cleared only at `light.py:139`, on the normal path. The
  exception leaves the `async with` block, so the lock is released, but the
  flag stays set. `FailedQuerySendMisattributesReply` shows that a later query
  from any other entity then leaves two entities awaiting, and one GET reply
  changes both. The "at most one awaiting" guarantee (`SerializedAlongRuns`) is
  therefore proved for runs in which every status query is sent. The lock
  invariant (`LockHeldByOneAlongRuns`) holds on every run.
- `_event_update` is never cleared: it is created at `light.py:88`, set at
  `light.py:123` and only waited on at `light.py:135`. `LaterUpdateNeedsNoReply`
  shows that after the first reply, an update may finish right after sending
  its query, without a new reply. `StaleEventMisattributesReply` shows the
  consequence for other entities: even on runs where every query is sent, the
  reply to that query can arrive after another entity has sent its own, and
  that other entity claims it. "At most one device" in `SerializedAlongRuns`
  and `ReplyChangesAtMostOne` therefore does not mean "the device that asked".

The first 10 ms sleep comes after the flag is set and before the query is
sent (`light.py:129-133`). A GET reply that arrives during that sleep is
claimed just as one that arrives after the send. The model's `Begin` sets the
flag and sends atomically. A frame delivered after `Begin` has the same effect
on the devices, so only its position relative to the query in the sent-frame
log differs.

Send faults (`bus.send` raising python-can's error when the driver does not
take the frame within 100 ms) are an input: the `accepted` parameter. The
filter follows python-can's rule: a frame passes an entry when the extended
flags agree and `(can_id ^ id) & can_mask == 0`.

## Model

| member | source | states |
|---|---|---|
| `Frames.ToByte` | custom_components/dobiss_can/light.py:81-83 | a configured value in 0..255, the range `bytes(...)` accepts, becomes the payload byte with that value |
| `Frames.SetId` | custom_components/dobiss_can/light.py:80 | OR-ing the module into bits 8..15 of `0x01FC0002` equals `0x01FC0002 + 256*module`, survives the 29-bit mask, and differs from the ack, reply and query ids |
| `Frames.SetIdInjective` | custom_components/dobiss_can/light.py:80 | two modules share a SET id exactly when they are the same module |
| `Frames.CommandFrame` | custom_components/dobiss_can/light.py:80-82 | the SET frame is extended, goes to the module's SET id, has 5 bytes starting with module and relay, and byte 2 is 1 exactly for ON |
| `Frames.OwnFramesNotReceived` | custom_components/dobiss_can/light.py:55-58 | the status query and the ON/OFF commands an entity sends never pass the receive filter, and the query carries the same module and relay bytes as the commands |
| `Frames.OnOffDifferOnlyInState` | custom_components/dobiss_can/light.py:81-82 | the ON and OFF payloads both have length 5, hold 1 and 0 at index 2, and agree everywhere else |
| `Frames.ReceiveFilterExact` | custom_components/dobiss_can/light.py:55-58 | the two filter entries admit exactly the extended frames with id `0x0002FF01` or `0x01FDFF01` |
| `Frames.Decimal` | custom_components/dobiss_can/light.py:108 | the decimal rendering of a number is a non-empty string of digits with no leading zero unless the number is 0 |
| `Frames.DecimalCanonical` | custom_components/dobiss_can/light.py:108 | every non-empty digit string without a leading zero (or the single digit "0") is the rendering of its own value, so `str` has exactly one output per number |
| `Frames.DecimalRoundTrip` | custom_components/dobiss_can/light.py:108 | reading the decimal rendering back gives the number |
| `Frames.IdTextInjective` | custom_components/dobiss_can/light.py:108 | the text `dobiss.{m}.{r}` determines `m` and `r` |
| `Frames.UniqueIdInjective` | custom_components/dobiss_can/light.py:106-108 | two entities have the same unique id exactly when their (module, relay) pairs are equal |
| `Transport.CanBus.constructor` | custom_components/dobiss_can/light.py:55 | a new bus has sent nothing |
| `Transport.CanBus.Send` | custom_components/dobiss_can/light.py:111 | an accepted frame is appended to the sent log; a refused one raises and sends nothing |
| `Light.OnMessage` | custom_components/dobiss_can/light.py:116-123 | a frame never changes a device's address, awaiting flag or update phase; it adds at most one notification; it never clears the event; only the two reply ids change anything |
| `Light.AckChangesOnlyAddressedDevice` | custom_components/dobiss_can/light.py:118-119 | a SET acknowledgement changes a device exactly when its first two bytes are the device's module and relay, and then sets `is_on` to `data[2] == 1` with one notification |
| `Light.ReplyChangesOnlyAwaitingDevice` | custom_components/dobiss_can/light.py:121-123 | a GET reply changes a device exactly when it is awaiting, and then sets `is_on` to `data[0] == 1`, notifies once and sets the event |
| `Light.OtherFramesIgnored` | custom_components/dobiss_can/light.py:116-123 | a frame with any other id leaves the device unchanged |
| `Light.CommandEchoSetsState` | custom_components/dobiss_can/light.py:110-119 | an acknowledgement that echoes a device's own ON (OFF) payload leaves it on (off) |
| `Light.StartUpdate` | custom_components/dobiss_can/light.py:127-133 | starting an update sets the awaiting flag whether or not the query is sent, and leaves state, event and notifications as they were |
| `Light.FinishUpdate` | custom_components/dobiss_can/light.py:135-139 | a finished update is no longer awaiting or in the lock, and keeps state, event and notifications |
| `Light.BusLock.constructor` | custom_components/dobiss_can/light.py:60 | the shared lock starts free |
| `Light.Device.constructor` | custom_components/dobiss_can/light.py:72-88 | the entity takes the configured module and relay (bytes), prepares its SET id and payloads, and starts off, not awaiting, with the event clear |
| `Light.Device.SetIsOn` | custom_components/dobiss_can/light.py:100-104 | the setter stores the value and schedules exactly one state write |
| `Light.Device.TurnOn` | custom_components/dobiss_can/light.py:110-111 | turning on sends at most one frame, the ON command to the SET id, and changes nothing in the entity |
| `Light.Device.TurnOff` | custom_components/dobiss_can/light.py:113-114 | turning off sends at most one frame, the OFF command to the SET id, and changes nothing in the entity |
| `Light.Device.OnMessageReceived` | custom_components/dobiss_can/light.py:116-123 | the entity's new state is `OnMessage` of its old state and the frame |
| `Light.Device.BeginUpdate` | custom_components/dobiss_can/light.py:125-133 | the awaiting flag is set and the query `[module, relay]` is sent to `0x01FCFF01`; when the send raises the lock is released and the flag stays set |
| `Light.Device.CompleteUpdate` | custom_components/dobiss_can/light.py:134-139 | after the wait returns the flag is cleared and the lock released; the event stays set |
| `Platform.InitialNet` | custom_components/dobiss_can/light.py:62-63 | after setup there is one device per configured light, with its module and relay, off and idle, the lock free and nothing sent |
| `Platform.Deliver` | custom_components/dobiss_can/light.py:63-64 | fanning out a frame changes no device's address, awaiting flag or update phase, never clears an event, and leaves the lock and the sent log alone |
| `Platform.DeliverAll` | custom_components/dobiss_can/light.py:64 | the same holds for a sequence of received frames |
| `Platform.InitialNetSerialized` | custom_components/dobiss_can/light.py:59-63 | right after setup no device is awaiting and the lock is free |
| `Platform.SerializedAtMostOneAwaiting` | custom_components/dobiss_can/light.py:59-60 | while only the lock holder awaits, no two devices await at once |
| `Platform.DeliverPreservesLock` | custom_components/dobiss_can/light.py:63-64 | receiving a frame keeps the lock held exactly by the one updating device |
| `Platform.DeliverPreservesSerialized` | custom_components/dobiss_can/light.py:116-123 | receiving a frame keeps "only the lock holder awaits" |
| `Platform.CommandPreservesSerialized` | custom_components/dobiss_can/light.py:110-114 | turning a light on or off changes no device and keeps the invariant |
| `Platform.BeginPreservesLock` | custom_components/dobiss_can/light.py:127-133 | entering an update through the free lock keeps the lock consistent, even when the query send fails |
| `Platform.BeginPreservesSerialized` | custom_components/dobiss_can/light.py:127-133 | entering an update whose query is sent keeps "only the lock holder awaits" |
| `Platform.CompletePreservesLock` | custom_components/dobiss_can/light.py:135-139 | finishing an update leaves no device in the lock |
| `Platform.CompletePreservesSerialized` | custom_components/dobiss_can/light.py:135-139 | after normal completion the device is not awaiting, the lock is free, and the invariant holds |
| `Platform.NoReplyNoCompletion` | custom_components/dobiss_can/light.py:135 | without a GET reply a device's event does not get set, so its wait (which has no timeout) does not return |
| `Platform.LockHeldByOneAlongRuns` | custom_components/dobiss_can/light.py:59-60 | on every run of events the lock is held by at most one device, exactly while it updates |
| `Platform.SerializedAlongRuns` | custom_components/dobiss_can/light.py:59-60 | on every run in which all status queries are sent, at most one device is awaiting after each event |
| `Platform.OtherIdsChangeNothing` | custom_components/dobiss_can/light.py:55-58 | a frame whose id is neither reply id leaves the whole platform unchanged |
| `Platform.AckChangesExactlyAddressed` | custom_components/dobiss_can/light.py:116-119 | a SET acknowledgement fanned out to all entities changes exactly those whose (module, relay) it names, and sets their state from byte 2 |
| `Platform.ReplyChangesAtMostOne` | custom_components/dobiss_can/light.py:121-127 | while queries are serialized a GET reply changes at most one device, and with nobody awaiting it changes none |
| `Platform.LaterUpdateNeedsNoReply` | custom_components/dobiss_can/light.py:123-135 | once an entity's event has been set, its next update can finish right after the query with its state unchanged |
| `Platform.StaleEventMisattributesReply` | custom_components/dobiss_can/light.py:121-139 | with the event of entity `i` left set, `i` sends its query and finishes at once; after entity `j` queries, a GET reply changes `j` alone, while queries stay serialized throughout |
| `Platform.FailedQuerySendMisattributesReply` | custom_components/dobiss_can/light.py:127-139 | for any two entities, a query of the first whose send raises leaves its flag set with the lock free; after the second queries both await, and one GET reply turns both on |
| `Platform.Network.constructor` | custom_components/dobiss_can/light.py:51-65 | setup builds one entity per configured light, in order and with its name, all sharing one bus and one lock, in the state `InitialNet` |
| `Platform.Network.SendCommand` | custom_components/dobiss_can/light.py:110-114 | a turn-on or turn-off of entity `i` is the `Command` step |
| `Platform.Network.Receive` | custom_components/dobiss_can/light.py:63-64 | the notifier loop over all entities is the `Deliver` step |
| `Platform.Network.BeginUpdate` | custom_components/dobiss_can/light.py:125-133 | entering an update of entity `i` is the `Begin` step |
| `Platform.Network.CompleteUpdate` | custom_components/dobiss_can/light.py:134-139 | leaving an update of entity `i` is the `Complete` step |
| `Platform.Network.Update` | custom_components/dobiss_can/light.py:125-139 | a whole update finishes exactly when the entity's event is set once the arriving frames are delivered; otherwise it is still waiting with the lock held; a failed send ends it with the flag set |

## Left out

- Opening the bus (`can.Bus` with channel, bus type, 125 kbit/s and `receive_own_messages=False`), the `can.Notifier` thread and shutdown. They belong to python-can. Only the filter entries and the fan-out order are modelled.
- asyncio scheduling: the 10 ms sleeps, the real suspension at `Event.wait()`, and the 100 ms send timeout. Blocking on the lock is a precondition. A send timeout is the `accepted` input. Cancellation of an update task is not modelled.
- Home Assistant glue: `async_add_job(async_update_ha_state)` is a counter of scheduled state writes. `LightEntity` registration, `async_add_entities`, and the `name` property (kept only as a field) are not modelled.
- The voluptuous `PLATFORM_SCHEMA` (`light.py:40-48`) is not modelled. It allows any non-negative module and relay. The entity constructor's `bytes(...)` takes only 0..255, so that range is a precondition of `Light.Device.constructor` and `Platform.Network.constructor`.
- Light.OnMessage: requires, for every entity, that a SET acknowledgement carries at least three bytes and a GET reply at least one. Python raises `IndexError` only in the entities whose earlier tests pass: the `and` at `light.py:118` stops at the first byte that does not match, so an ack such as `[5]` is ignored by every entity of another module, and an empty GET reply is ignored by every entity that is not awaiting (`light.py:121`). The model excludes all such short reply frames and so does not capture which entities would ignore them and which would raise.
- `custom_components/dobiss_can/config_flow.py` (the configuration wizard) and `custom_components/dobiss_can/__init__.py` (entry forwarding): no protocol logic.
- Logging.
