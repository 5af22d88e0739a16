# Senssun BLE body scale: decoder and connection lifecycle

This project models the core of a Home Assistant sensor for a Senssun
Bluetooth Low Energy body scale (`sensor.py`). The core has two parts.

- **The notification decoder** (`read_stable`, `decode_weight`). It takes bytes
  9..14 of a notification payload and unpacks them big-endian as `>bhhb`. It
  keeps the signed 16-bit raw weight and the signed control byte `ctr1`. The
  reading is stable when bits 0x80 and 0x20 of the control byte are both set.
  A stable reading gives the raw weight times 100, in grams. An unstable one
  gives `None`.
- **The entity's connection lifecycle** (`SenssunScaleSensor`). The entity holds
  at most one BLE client, the `_available` flag, the last weight `_state`, the
  idle-disconnect timer `_disconnect_timer` and the retry task `_retry_task`.
  `connect`, `notification_handler`, `_schedule_retry`, `_retry_connect`,
  `disconnect`, `_disconnect`, `async_update` and `async_will_remove_from_hass`
  update these fields.

The files:

- `decoder.dfy` (module `Decoder`) holds the decoder as pure functions over
  `seq<byte>`, where `byte` is an integer in 0..255, as Python's `bytearray`
  elements are. Python's slicing, `struct.unpack` and `&` are written out:
  slice bounds are clamped to the length, and a short window makes `unpack`
  raise. The file also holds the decoder's lemmas.
- `lifecycle.dfy` (module `Lifecycle`) holds one function per lifecycle
  operation. Each maps the entity's fields before the call to its fields after
  it. `Valid` is the invariant the operations keep. `Run` replays a sequence of
  events of the event loop.
- `sensor.dfy` (module `Sensor`) holds the class `SenssunScaleSensor`. It has
  the same fields, and its methods update them step by step, following the
  Python code. Each method is proved to leave `Snapshot()` equal to its
  `Lifecycle` function applied to the old fields, and to keep `Valid()`.
- `wrappers.dfy` holds `Option`.

Timers and tasks are modelled by whether they are still scheduled.
`disconnectTimerPending` says whether the timer held in `_disconnect_timer` is
still scheduled. `staleTimers` counts the idle timers that are still scheduled
but whose handle was overwritten. `retryPending` says whether `_retry_task` is
still scheduled. The field `calls` records the calls made into BLE clients:
create, open the link, subscribe, close.

What the transport answers is a parameter. `ConnectOutcome` says whether the
connect and the subscription succeed, and which exception was raised.
A close that raises is caught by `_disconnect`, and the model takes it to end
the link and its subscription all the same, so `CloseConnection` takes no
outcome (see "## Left out"). `LinkLost` models the scale dropping the
link on its own: `is_connected` becomes false.

These behaviours of the code are easy to miss; the model follows the code in
each.

- `decode_weight` does not return `None` for a payload shorter than 15 bytes.
  `unpack` raises instead, which is `Reading.Malformed` here.
- `notification_handler` calls `round` on the decoded value. On `None` that
  raises, and so does a short payload. Such a notification therefore changes
  nothing: only a stable reading updates `_state` and `_available` and re-arms
  the idle timer. `Lifecycle.NotificationHandler` is built on the corrected
  `Decoder.DecodeWeight` (see "## Findings"). With `decode_weight` as written,
  every payload raises, so no notification changes any field.
- A successful `connect` stores a new idle timer without cancelling the one it
  replaces. `Lifecycle.ReconnectKeepsOldTimer` shows a run that connects, loses
  the link and connects again. Afterwards two idle timers are pending, and the
  older one closes the new connection when it fires.
- If `start_notify` fails after the link is up, the client stays connected.
  The scheduled retry then finds `is_connected` true and does nothing.
  `Lifecycle.NotifyFailureIsNotRetried` shows that the entity then stays
  unavailable, with no retry and no idle timer scheduled.
- `async_will_remove_from_hass` cancels the retry task but not the idle timers.

## Model

| member | source | states |
|---|---|---|
| `Decoder.BitAnd` | sensor.py:59 | bitwise and of two naturals is at most each operand (the recursive definition of `&`) |
| `Decoder.PyAnd8` | sensor.py:59 | Python's `x & m` for a mask below 256 uses only the low byte of `x` (two's complement, also for negative `x`) and is at most `m` |
| `Decoder.Signed8` | sensor.py:67 | format `b`: the signed value lies in -128..127, agrees with the byte modulo 256, and is negative exactly when bit 7 is set |
| `Decoder.Signed16` | sensor.py:67 | format `>h`: the signed value lies in -32768..32767 and agrees with `hi*256+lo` modulo 65536 |
| `Decoder.Slice` | sensor.py:66 | `data[9:15]` has length clamped to the payload and holds the payload's bytes from offset 9 |
| `Decoder.Unpack` | sensor.py:67 | `unpack(">bhhb")` succeeds exactly on six bytes; weight is the signed word of bytes 1-2, `ctr1` the signed byte 5 |
| `Decoder.ReadStable` | sensor.py:57-59 | `read_stable` is 0 or 1, and 1 exactly when bits 0x80 and 0x20 of the two's-complement control byte are both set |
| `Decoder.StableMaskBits` | sensor.py:59 | `u & 0xA0 == 0xA0` holds exactly when bits 7 and 5 of the byte `u` are set |
| `Decoder.ReadStableOfByte` | sensor.py:59-67 | taking the control byte through its signed value keeps its bit pattern: stability depends on the raw byte's bits 7 and 5 |
| `Decoder.StableControlIsNegative` | sensor.py:57-59 | a stable control byte is a negative signed byte |
| `Decoder.DecodeWeight` | sensor.py:61-78 | the result is `Malformed` (unpack raises) exactly for payloads under 15 bytes; a stable result is a multiple of 100 in [-3276800, 3276700] |
| `Decoder.DecodeWellFormed` | sensor.py:66-75 | on 15 or more bytes: stable control byte 14 gives the big-endian signed word of bytes 10-11 times 100, otherwise `None` |
| `Decoder.DecodeDependsOnlyOnWeightAndControl` | sensor.py:66-67 | two payloads of 15+ bytes that agree on bytes 10, 11 and 14 decode alike |
| `Decoder.UnstableIgnoresWeight` | sensor.py:70-72 | an unstable control byte gives `None` whatever the weight bytes hold |
| `Decoder.EncodePayload` | sensor.py:66-67 | the encoding of a raw weight and control byte is a 15-byte payload |
| `Decoder.Signed16Encode16` | sensor.py:67 | the big-endian two's-complement encoding of a 16-bit weight unpacks back to it |
| `Decoder.DecodeEncode` | sensor.py:66-75 | encoding `w` into bytes 10-11 decodes to `w * 100` with a stable control byte and to `None` otherwise |
| `Decoder.EncodeDecode` | sensor.py:66-75 | every stable reading is the decoding of the canonical payload of its raw weight |
| `Decoder.StableExample` | sensor.py:61-78 | the payload with raw weight 5 and control byte 0xA0 decodes to 500 g |
| `Decoder.UnstableExample` | sensor.py:70-72 | the same payload with control byte 0x00 gives `None` |
| `Decoder.DecodeWeightAsWritten` | sensor.py:61-77 | as written, `decode_weight` raises `struct.error` on short payloads and `NameError` on all others |
| `Decoder.AsWrittenRaisesOnStablePayload` | sensor.py:70 | the stable 500 g example raises `NameError` as written, while the corrected decoder gives 500 g |
| `Lifecycle.Initial` | sensor.py:23-35 | a new entity has no client, is unavailable, has no weight, no timer, no retry and has made no calls |
| `Lifecycle.ScheduleRetry` | sensor.py:127-131 | afterwards exactly one retry task is scheduled, and nothing else changes |
| `Lifecycle.Connect` | sensor.py:94-125 | with a connected client nothing changes and no call is made; otherwise success leaves a connected, subscribed, available entity with one more idle timer; any failure leaves it unavailable with a retry scheduled and both timer fields unchanged, and a failed `connect()` leaves the client unlinked; the weight never changes; `Valid` is kept |
| `Lifecycle.NotificationHandler` | sensor.py:81-92 | a stable reading sets the weight and availability and replaces the held timer by a fresh one, touching nothing else; any other payload changes nothing; `Valid` is kept |
| `Lifecycle.CloseConnection` | sensor.py:141-150 | always ends with no client and unavailable; closes exactly once when a client exists and makes no call without one; timers, retry and weight are unchanged |
| `Lifecycle.Disconnect` | sensor.py:137-139 | does nothing unless a connected client exists; then closes it with exactly one more close call, leaving timers, retry and weight unchanged |
| `Lifecycle.IdleTimerFires` | sensor.py:92 | the idle timer's callback removes the timer that fired (the held one, or one stale one when `stale`), leaving the other timer field as it was, and disconnects a connected client with one close call; without one, client, availability and calls are unchanged; weight and retry never change |
| `Lifecycle.AsyncUpdate` | sensor.py:162-165 | connects only when no connected client exists |
| `Lifecycle.RetryConnect` | sensor.py:133-135 | the retry task changes nothing but its own flag on a linked entity; otherwise it reconnects, leaving a linked, subscribed, available entity on success, and an unavailable, unsubscribed one with a new retry scheduled on failure; the weight never changes |
| `Lifecycle.WillRemoveFromHass` | sensor.py:156-160 | cancels the retry and ends with no client and unavailable, with one close call when a client exists and none otherwise; the idle timers and the weight stay |
| `Lifecycle.LinkLost` | sensor.py:96 | a dropped link makes `is_connected` false and leaves `_available` as it was |
| `Lifecycle.Step` | sensor.py:81-165 | every event keeps `Valid`; one that cannot happen changes nothing |
| `Lifecycle.RunKeepsValid` | sensor.py:81-165 | every sequence of events keeps `Valid` |
| `Lifecycle.ReachableIsValid` | sensor.py:23-165 | every state reached from `__init__` is valid |
| `Lifecycle.UpdateTwiceOpensOnce` | sensor.py:94-97 | two `async_update` calls in a row open the link at most once unless the first connect failed |
| `Lifecycle.RemovalIsIdempotent` | sensor.py:141-160 | removing twice equals removing once and closes at most one client, for runs in which each `_disconnect` finishes before the next event |
| `Lifecycle.NeverClosesTwice` | sensor.py:141-150 | no run closes a client it does not hold, for runs in which each `_disconnect` finishes before the next event |
| `Lifecycle.IdleTimeoutAfterReading` | sensor.py:88-92 | after a stable reading with no stale timer, one timer is pending, and when it fires the link closes and the entity becomes unavailable |
| `Lifecycle.ReconnectKeepsOldTimer` | sensor.py:90-112 | connect, link loss, connect leaves two idle timers pending, and the older one closes the new link |
| `Lifecycle.NotifyFailureIsNotRetried` | sensor.py:94-125 | after a failed subscription and the retry, the entity is connected, not subscribed, unavailable, and further updates change nothing |
| `Sensor.SenssunScaleSensor.constructor` | sensor.py:23-35 | the fields are those of `Lifecycle.Initial` |
| `Sensor.SenssunScaleSensor.ScheduleRetry` | sensor.py:127-131 | updates the fields as `Lifecycle.ScheduleRetry`, and is valid afterwards exactly when it was before |
| `Sensor.SenssunScaleSensor.Connect` | sensor.py:94-125 | updates the fields as `Lifecycle.Connect` and keeps `Valid` |
| `Sensor.SenssunScaleSensor.NotificationHandler` | sensor.py:81-92 | updates the fields as `Lifecycle.NotificationHandler` and keeps `Valid` |
| `Sensor.SenssunScaleSensor.CloseConnection` | sensor.py:141-150 | updates the fields as `Lifecycle.CloseConnection` and keeps `Valid` |
| `Sensor.SenssunScaleSensor.Disconnect` | sensor.py:137-139 | updates the fields as `Lifecycle.Disconnect` and keeps `Valid` |
| `Sensor.SenssunScaleSensor.IdleTimerFires` | sensor.py:92 | updates the fields as `Lifecycle.IdleTimerFires` and keeps `Valid` |
| `Sensor.SenssunScaleSensor.AsyncUpdate` | sensor.py:162-165 | updates the fields as `Lifecycle.AsyncUpdate` and keeps `Valid` |
| `Sensor.SenssunScaleSensor.RetryConnect` | sensor.py:133-135 | updates the fields as `Lifecycle.RetryConnect` and keeps `Valid` |
| `Sensor.SenssunScaleSensor.WillRemoveFromHass` | sensor.py:156-160 | updates the fields as `Lifecycle.WillRemoveFromHass` and keeps `Valid` |
| `Sensor.SenssunScaleSensor.LinkLost` | sensor.py:96 | updates the fields as `Lifecycle.LinkLost` and keeps `Valid` |

## Findings

| source | as written | input that shows it | evidently intended | confidence | as-written member | corrected member |
|---|---|---|---|---|---|---|
| sensor.py:57-70 | `read_stable` is defined in the class without `self` and called as a bare name, which Python does not resolve, so `decode_weight` raises `NameError` on every payload of 15 or more bytes | `00 00 00 00 00 00 00 00 00 01 00 05 00 00 A0` | call the stability test on `ctr1` and return 500 g | high, not executed | `Decoder.DecodeWeightAsWritten`, `Decoder.AsWrittenRaisesOnStablePayload` | `Decoder.DecodeWeight`, `Decoder.DecodeEncode` |

## Left out

- The BLE transport: `BleakClient` creation, `connect`, `start_notify` and `disconnect` are calls into a foreign library. The outcome of `connect` and `start_notify` is a parameter, and each call is recorded in `calls`.
- Connect: creating the `BleakClient` (sensor.py:100) is assumed to succeed. In the source it runs inside the `try`; if it raised, `_client` would keep its old value (such as `None`), no `NewClient` would be made, and the `except` branches would only mark the entity unavailable and schedule a retry.
- Asyncio scheduling: `call_later`, `async_create_task`, `create_task` and `sleep`, and the durations 10 s, 20 s and 60 s. These are wall-clock timing. A timer or task is modelled as scheduled or not, and its callback as an event.
- Interleaving: the connect lock and the awaits inside `connect` and `_disconnect`. Each operation runs as one atomic step, and the task that `disconnect` spawns runs at once. The model therefore does not capture a notification or timer arriving in the middle of a connect. Nor does it capture two `_disconnect` runs overlapping: while one waits on `self._client.disconnect()` (sensor.py:143), a second one from an idle-timer task (sensor.py:139) or from removal (sensor.py:160) can reach the same line and close the same client twice. Also, an `async_update` that runs `connect` during that wait creates a new client (sensor.py:100), and the first `_disconnect`'s `finally` then sets `_client = None` under it (sensor.py:148). `Lifecycle.NeverClosesTwice` and `Lifecycle.RemovalIsIdempotent` hold only because each `_disconnect` finishes before the next event.
- CloseConnection: a close that raises (caught at sensor.py:145-146) is assumed to end the link and the subscription. If the link in fact stays up, the `finally` still clears `_client` (sensor.py:148), but the handler registered at sensor.py:105 keeps firing, and a stable reading then sets `_available = True` while `_client is None` (sensor.py:84-85). The model does not capture that orphaned subscription, and `Lifecycle.Valid`'s clause that availability needs a client does not hold in it.
- Cancelling a task from inside itself: when the retry task's own connect fails, `_schedule_retry` cancels that running task. This only changes how the finished task is reported, so it is not modelled.
- `async_added_to_hass`: it only calls `async_update`, which is modelled as `AsyncUpdate`.
- Home Assistant glue: `async_setup_entry`, the `name`, `unique_id`, `state`, `unit_of_measurement` and `available` properties, `async_write_ha_state`, and logging. None of them has logic of its own.
- The device address, the notify characteristic UUID and `_connection_retry_interval` are constants that only the transport and the scheduler read.
- The commented-out write characteristic.
- `round(weight, 1)` on an int returns the int unchanged, so it is not modelled for stable readings.
