# Senlab T decoder and event sender, modelled in Dafny

This project models two parts of an IoT agent that receives LoRaWAN uplinks and forwards
normalised measurements to a message broker:

- **The Senlab T temperature-probe decoder** (`senlabt.dfy`, module `SenlabT`). A frame is
  `| ID(1) | BatteryLevel(1) | Internal(n) | Temp(2) |`. The decoder rejects frames shorter
  than four bytes and dispatches on the first byte: `1` is a single probe, `12` a dual probe,
  which is unsupported. It reads a signed 16-bit big-endian temperature from the last two
  bytes and scales the battery byte to a percentage. It rejects the two fault readings the
  probe hardware emits, −46.75 °C and 85 °C. Only when all of that succeeds does it hand the
  downstream callback one payload, holding the temperature and then the battery level.
- **The event sender** (`eventsender.dfy`, module `Events`). This is a class around a
  `started` flag. `Start` sets the flag only when the broker connection opens. `Send` (to the
  `iot-core` queue) and `Publish` (to a topic) refuse to touch the broker until the flag is set.
  `Stop` closes the connection and leaves the flag alone.

`wrappers.dfy` holds the `Option` and `Result` types both modules use.

Modelling choices:

- Temperatures are the raw 16-bit value in sixteenths of a degree. `Celsius(t)` is `t / 16` as
  a real. The source computes `float32(t) / 16.0`, which is exact for every 16-bit `t`, so the
  source's float comparisons with −46.75 and 85 are written over reals. `IsSensorReadingError`'s
  contract shows they pick out exactly the raw values −748 and 1360.
- The decoder's internal `payload` record is a class, `ProbePayload`, because `decodePayload`
  and `singleProbe` fill it in through a pointer. Those steps are methods that update it.
  `DecodeFrame` is the value-level account of the whole decoding, used in the entry point's contract.
- The downstream callback is a `Callback` object. It records each payload it receives in a
  ghost log and answers with a reply fixed by whoever built it.
- The messaging library and the broker are a `Broker` object. It records every call in a ghost
  log and answers each kind of call with a caller-chosen reply. So the sender's contracts
  hold whatever the broker answers.
- The request context, the logger and the uplink's timestamp formatting are not modelled. The
  timestamp is copied as opaque text.

Two behaviours of the code differ from what the system is meant to do; the model follows the code:

- A first byte other than 1 or 12 is not rejected. Decoding falls through with the zero-valued
  record (temperature 0, battery 0) and no error, and the callback receives that payload
  (`UnknownProbeFallsThrough`).
- The sender has no "stopped" state. After `Stop`, `started` is still true, and `Send` and
  `Publish` still reach the broker (`StopThenSend`, `StopThenPublish`).

## Model

| member | source | states |
|---|---|---|
| `SenlabT.Int16BigEndian` | internal/pkg/application/decoder/decoders.senlabt.go:86-87 | the big-endian two's-complement value of two bytes lies in −32768..32767 and is negative exactly when the sign bit of the first byte is set |
| `SenlabT.Int16RoundTrip` | internal/pkg/application/decoder/decoders.senlabt.go:86-87 | every 16-bit value is recovered from its two big-endian bytes |
| `SenlabT.Int16Onto` | internal/pkg/application/decoder/decoders.senlabt.go:86-87 | every 16-bit temperature is carried by some pair of bytes |
| `SenlabT.Int16BytesRoundTrip` | internal/pkg/application/decoder/decoders.senlabt.go:86-87 | every pair of bytes is the encoding of the value it decodes to, so decoding loses nothing |
| `SenlabT.BatteryPercent` | internal/pkg/application/decoder/decoders.senlabt.go:93 | the percentage is the floor of `b*100/254`, lies in 0..100, and is 100 exactly for bytes 254 and 255 |
| `SenlabT.BatteryPercentMonotonic` | internal/pkg/application/decoder/decoders.senlabt.go:93 | a higher battery byte never gives a lower percentage |
| `SenlabT.BatteryPercentOnto` | internal/pkg/application/decoder/decoders.senlabt.go:93 | every percentage from 0 to 100 is reported for some battery byte |
| `SenlabT.Celsius` | internal/pkg/application/decoder/decoders.senlabt.go:94 | the degrees are the raw reading divided by 16, exactly, and are negative exactly when the raw reading is |
| `SenlabT.IsSensorReadingError` | internal/pkg/application/decoder/decoders.senlabt.go:77-80 | the fault test on −46.75 and 85 degrees holds exactly for the raw readings −748 and 1360 |
| `SenlabT.ProbePayload.constructor` | internal/pkg/application/decoder/decoders.senlabt.go:56-60 | a new internal record is zero-valued |
| `SenlabT.SingleProbeReading` | internal/pkg/application/decoder/decoders.senlabt.go:92-94 | the single-probe record takes its id from byte 0, a battery percentage in 0..100 that is the floor of `b[1]*100/254`, and the 16-bit temperature whose big-endian encoding is the last two bytes |
| `SenlabT.SingleProbe` | internal/pkg/application/decoder/decoders.senlabt.go:85-97 | sets the id from byte 0, the battery from byte 1 and the temperature from the last two bytes, and never fails |
| `SenlabT.DualProbe` | internal/pkg/application/decoder/decoders.senlabt.go:99-101 | always fails with the unsupported-dual-probe error |
| `SenlabT.DecodePayload` | internal/pkg/application/decoder/decoders.senlabt.go:62-83 | the record is rewritten only for first byte 1; first byte 12 fails; otherwise it fails exactly when the record's temperature is a fault reading |
| `SenlabT.DecodeFrame` | internal/pkg/application/decoder/decoders.senlabt.go:19-26 | too short iff fewer than 4 bytes; unsupported iff first byte 12; fault iff a single probe carries −748 or 1360; a success is either the zero record or a single-probe reading with a battery in 0..100, a 16-bit temperature and no fault reading |
| `SenlabT.UnknownProbeFallsThrough` | internal/pkg/application/decoder/decoders.senlabt.go:62-82 | a first byte other than 1 or 12 gives the zero record and no error |
| `SenlabT.DecodeEncodeSingleProbe` | internal/pkg/application/decoder/decoders.senlabt.go:85-97 | a single-probe frame built from a battery byte, any internal bytes and a temperature decodes back to that battery percentage and temperature, or to the fault error for −748 and 1360 |
| `SenlabT.SingleProbeFrameIsEncoded` | internal/pkg/application/decoder/decoders.senlabt.go:17 | every frame of at least 4 bytes starting with 1 is such an encoding of its own fields, so the round trip covers all single-probe frames |
| `SenlabT.DecodedReadingsAreReachable` | internal/pkg/application/decoder/decoders.senlabt.go:62-97 | a reading comes out of some frame exactly when it is the zero record or a single-probe reading with a battery in 0..100, a 16-bit temperature and no fault reading |
| `SenlabT.InternalBytesIgnored` | internal/pkg/application/decoder/decoders.senlabt.go:87-93 | the bytes between the battery byte and the temperature do not affect the outcome |
| `SenlabT.WorkedExample` | internal/pkg/application/decoder/decoders.senlabt.go:87-94 | the frame `[1, 254, 0x01, 0x2C]` gives battery 100 and temperature 300/16 = 18.75 °C |
| `SenlabT.Callback.Invoke` | internal/pkg/application/decoder/decoders.senlabt.go:48 | the callback receives the payload and its answer is what the caller gets |
| `SenlabT.SenlabTBasicDecoder` | internal/pkg/application/decoder/decoders.senlabt.go:13-54 | a decoding error is returned before and without any callback; on success the callback is called exactly once with the event's device id and timestamp, the decoded battery level and the measurements [temperature, battery], and its answer is returned as it is |
| `Events.EventSender.constructor` | internal/pkg/application/events/eventsender.go:28-34 | a new sender holds its service's configuration, no connection, and is not started |
| `Events.EventSender.Send` | internal/pkg/application/events/eventsender.go:36-47 | not started: fails and the broker sees no call; started: exactly one command to the `iot-core` queue and the broker's answer returned as it is |
| `Events.EventSender.Publish` | internal/pkg/application/events/eventsender.go:49-61 | not started: fails and the broker sees no call; started: exactly one publish of the given message and the broker's answer returned as it is |
| `Events.EventSender.Start` | internal/pkg/application/events/eventsender.go:63-70 | one initialisation call; the flag becomes set when it succeeds and is otherwise left as it was; the broker's error is returned as it is |
| `Events.EventSender.Stop` | internal/pkg/application/events/eventsender.go:72-75 | one close call, always succeeds, and the flag is left as it was |
| `Events.StopThenSend` | internal/pkg/application/events/eventsender.go:72-75 | `Stop` leaves a started sender started, so a following send closes then reaches the broker: the log gains `Close` and one `iot-core` command, and the broker's answer is returned |
| `Events.StopThenPublish` | internal/pkg/application/events/eventsender.go:72-75 | `Stop` leaves a started sender started, so a following publish still reaches the broker: the log gains `Close` and one publish of the message, and the broker's answer is returned |

## Left out

- The request context, logging, and the RFC 3339 formatting of the timestamp: not modelled. The timestamp is copied from the event as opaque text.
- The float32 temperature: kept as the raw 16-bit integer. Its exact value in degrees is `Celsius`.
- The error path of `binary.Read` in `singleProbe` is not modelled: it reads from a slice of exactly two bytes, so it cannot fail.
- SenlabT.DecodePayload: requires a non-empty frame, and at least two bytes when the first byte is 1. The Go code panics otherwise, and its only caller has already required four bytes.
- The internals of the messaging library (`LoadConfiguration`, `Initialize`, `SendCommandTo`, `PublishOnTopic`, `Close`) are not modelled. They are foreign calls: `Broker` records them and answers with caller-chosen replies. The configuration is reduced to the service name.
- Events.EventSender.Start: assumes the messaging library hands out no connection when initialisation fails.
- Events.EventSender.Send and Events.EventSender.Publish: require a connection whenever the flag is set. A failed `Start` after a successful one leaves the flag set with no connection, and the Go code would then call a nil messenger.
- Events.EventSender.Stop: requires a connection. `Stop` before a successful `Start` calls `Close` on a nil messenger.
- Concurrency: the unsynchronised `started` flag and concurrent senders are out of scope. The model is sequential.
- The decoder registry, the facade translators, the MQTT forwarder (a detached HTTP forward per message, acknowledged after every forward attempt but not when the HTTP request cannot be built), the HTTP API and the process configuration are not part of this model.
