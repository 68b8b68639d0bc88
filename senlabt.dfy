/**
 * The Senlab T temperature-probe decoder.
 *
 * A frame is laid out as | ID(1) | BatteryLevel(1) | Internal(n) | Temp(2) |.
 * Temperatures are kept as the raw signed 16-bit value, in sixteenths of a
 * degree Celsius; `Celsius` gives the degrees the source computes as
 * `float32(raw) / 16.0`, which is exact for every 16-bit value.
 */
module SenlabT {
  import opened Wrappers

  type byte = x: int | 0 <= x < 256

  /** The errors the decoder returns; `Downstream` is whatever the callback returned. */
  datatype Error =
    | PayloadTooShort        // "payload too short"
    | UnsupportedDualProbe   // "unsupported dual probe payload"
    | SensorReadingError     // "sensor reading error"
    | Downstream(message: string)

  /** One uplink as delivered by the network server; the timestamp is kept as opaque text. */
  datatype UplinkEvent = UplinkEvent(devEui: string, timestamp: string, data: seq<byte>)

  /** The two kinds of measurement this decoder emits. */
  datatype Measurement = Temp(temperature: int) | Bat(batteryLevel: int)

  /** The decoded payload handed to the callback. */
  datatype Payload = Payload(devEui: string, timestamp: string, batteryLevel: int, measurements: seq<Measurement>)

  /** A snapshot of the decoder's internal `payload` record. */
  datatype Reading = Reading(id: int, batteryLevel: int, temperature: int)

  /** The record's zero value, which is what a Go `var p payload` starts with. */
  const ZeroReading := Reading(0, 0, 0)

  /** The frame byte that selects the single-probe layout. */
  const SingleProbeId := 1
  /** The frame byte that selects the dual-probe layout. */
  const DualProbeId := 12
  /** The shortest frame the decoder accepts. */
  const MinFrameLength := 4

  // ---------------------------------------------------------------------
  // Field encodings
  // ---------------------------------------------------------------------

  /** The two's-complement big-endian 16-bit integer held in `hi`, `lo`. */
  function Int16BigEndian(hi: byte, lo: byte): (t: int)
    ensures -0x8000 <= t < 0x8000
    ensures t >= 0 <==> hi < 0x80
  {
    var u := hi * 256 + lo;
    if u < 0x8000 then u else u - 0x1_0000
  }

  /** The two big-endian bytes of the 16-bit two's-complement encoding of `t`. */
  function Int16ToBigEndian(t: int): (s: seq<byte>)
    requires -0x8000 <= t < 0x8000
    ensures |s| == 2
    ensures s[0] < 0x80 <==> t >= 0
  {
    var u := if t < 0 then t + 0x1_0000 else t;
    [u / 256, u % 256]
  }

  /** Decoding the encoding of a 16-bit value gives the value back. */
  lemma Int16RoundTrip(t: int)
    requires -0x8000 <= t < 0x8000
    ensures Int16BigEndian(Int16ToBigEndian(t)[0], Int16ToBigEndian(t)[1]) == t
  {
  }

  /** Every 16-bit value is carried by some pair of bytes. */
  lemma Int16Onto(t: int)
    requires -0x8000 <= t < 0x8000
    ensures exists hi: byte, lo: byte :: Int16BigEndian(hi, lo) == t
  {
    var s := Int16ToBigEndian(t);
    Int16RoundTrip(t);
    assert Int16BigEndian(s[0], s[1]) == t;
  }

  /** Every pair of bytes is the encoding of the value it decodes to. */
  lemma Int16BytesRoundTrip(hi: byte, lo: byte)
    ensures Int16ToBigEndian(Int16BigEndian(hi, lo)) == [hi, lo]
  {
  }

  /** The battery percentage the source computes as `(b * 100) / 254` in integer arithmetic. */
  function BatteryPercent(b: byte): (r: int)
    ensures r * 254 <= b * 100 < (r + 1) * 254
    ensures 0 <= r <= 100
    ensures r == 100 <==> b >= 254
  {
    (b * 100) / 254
  }

  /** A higher battery byte never gives a lower percentage. */
  lemma BatteryPercentMonotonic(b0: byte, b1: byte)
    requires b0 <= b1
    ensures BatteryPercent(b0) <= BatteryPercent(b1)
  {
  }

  /** Every percentage from 0 to 100 is reported for some battery byte. */
  lemma BatteryPercentOnto(r: int)
    requires 0 <= r <= 100
    ensures exists b: byte :: BatteryPercent(b) == r
  {
    var b: byte := (r * 254 + 99) / 100;
    assert BatteryPercent(b) == r;
  }

  /** Degrees Celsius of a raw reading in sixteenths. */
  function Celsius(t: int): (c: real)
    ensures c * 16.0 == t as real
    ensures c >= 0.0 <==> t >= 0
  {
    t as real / 16.0
  }

  /**
   * The two readings the probe hardware emits to report a fault: -46.75 and
   * 85 degrees, which are exactly the raw values -748 and 1360.
   */
  predicate IsSensorReadingError(t: int)
    ensures IsSensorReadingError(t) <==> t == -748 || t == 1360
  {
    Celsius(t) == -46.75 || Celsius(t) == 85.0
  }

  // ---------------------------------------------------------------------
  // The internal payload record and the decoding steps that fill it in
  // ---------------------------------------------------------------------

  /** The decoder's internal `payload` record, which the decoding steps update in place. */
  class ProbePayload {
    var id: int
    var batteryLevel: int
    var temperature: int

    function Value(): Reading
      reads this
    {
      Reading(id, batteryLevel, temperature)
    }

    /** A zero-valued record. */
    constructor ()
      ensures Value() == ZeroReading
    {
      id, batteryLevel, temperature := 0, 0, 0;
    }
  }

  /** What the single-probe layout of frame `b` holds. */
  function SingleProbeReading(b: seq<byte>): (r: Reading)
    requires |b| >= 2
    ensures r.id == b[0]
    ensures 0 <= r.batteryLevel <= 100 && r.batteryLevel * 254 <= b[1] * 100 < (r.batteryLevel + 1) * 254
    ensures -0x8000 <= r.temperature < 0x8000 && Int16ToBigEndian(r.temperature) == b[|b| - 2..]
  {
    Reading(b[0], BatteryPercent(b[1]), Int16BigEndian(b[|b| - 2], b[|b| - 1]))
  }

  /**
   * Fills in `p` from a single-probe frame: the id from the first byte, the
   * battery from the second, the temperature from the last two.
   */
  method SingleProbe(b: seq<byte>, p: ProbePayload) returns (err: Option<Error>)
    requires |b| >= 2
    modifies p
    ensures err == None
    ensures p.Value() == SingleProbeReading(b)
  {
    var temp := Int16BigEndian(b[|b| - 2], b[|b| - 1]);
    p.id := b[0];
    p.batteryLevel := BatteryPercent(b[1]);
    p.temperature := temp;
    err := None;
  }

  /** The dual-probe layout is not supported: it always fails and leaves `p` alone. */
  method DualProbe(b: seq<byte>, p: ProbePayload) returns (err: Option<Error>)
    ensures err == Some(UnsupportedDualProbe)
  {
    err := Some(UnsupportedDualProbe);
  }

  /**
   * Dispatches on the first byte of `b` and then rejects the fault
   * readings. A first byte that is neither 1 nor 12 leaves `p` as it was,
   * and the fault check then looks at whatever temperature `p` held.
   */
  method DecodePayload(b: seq<byte>, p: ProbePayload) returns (err: Option<Error>)
    requires |b| >= 1 && (b[0] == SingleProbeId ==> |b| >= 2)
    modifies p
    ensures p.Value() == if b[0] == SingleProbeId then SingleProbeReading(b) else old(p.Value())
    ensures err == if b[0] == DualProbeId then Some(UnsupportedDualProbe)
                   else if IsSensorReadingError(p.temperature) then Some(SensorReadingError)
                   else None
  {
    var id := b[0];
    if id == SingleProbeId {
      err := SingleProbe(b, p);
      if err.Some? {
        return;
      }
    }
    if id == DualProbeId {
      err := DualProbe(b, p);
      if err.Some? {
        return;
      }
    }
    if IsSensorReadingError(p.temperature) {
      return Some(SensorReadingError);
    }
    return None;
  }

  // ---------------------------------------------------------------------
  // The whole frame, as a value
  // ---------------------------------------------------------------------

  /**
   * The outcome of decoding frame `data` into a zero-valued record: the
   * length check, then the dispatch on the first byte, then the fault check.
   */
  function DecodeFrame(data: seq<byte>): (r: Result<Reading, Error>)
    ensures r == Failure(PayloadTooShort) <==> |data| < MinFrameLength
    ensures r == Failure(UnsupportedDualProbe) <==> |data| >= MinFrameLength && data[0] == DualProbeId
    ensures r == Failure(SensorReadingError) <==>
              |data| >= MinFrameLength && data[0] == SingleProbeId
              && IsSensorReadingError(Int16BigEndian(data[|data| - 2], data[|data| - 1]))
    ensures r.Failure? ==> r.error in {PayloadTooShort, UnsupportedDualProbe, SensorReadingError}
    ensures r.Success? ==> IsDecodedReading(r.value)
  {
    if |data| < MinFrameLength then Failure(PayloadTooShort)
    else
      var p := if data[0] == SingleProbeId then SingleProbeReading(data) else ZeroReading;
      if data[0] == DualProbeId then Failure(UnsupportedDualProbe)
      else if IsSensorReadingError(p.temperature) then Failure(SensorReadingError)
      else Success(p)
  }

  /**
   * The readings a successful decode can produce: the zero record, or a
   * single-probe reading with a battery percentage, a 16-bit temperature and
   * no fault.
   */
  predicate IsDecodedReading(r: Reading)
  {
    || r == ZeroReading
    || (&& r.id == SingleProbeId
        && 0 <= r.batteryLevel <= 100
        && -0x8000 <= r.temperature < 0x8000
        && !IsSensorReadingError(r.temperature))
  }

  /** A frame whose first byte is neither 1 nor 12 decodes, without error, to the zero record. */
  lemma UnknownProbeFallsThrough(data: seq<byte>)
    requires |data| >= MinFrameLength && data[0] != SingleProbeId && data[0] != DualProbeId
    ensures DecodeFrame(data) == Success(ZeroReading)
  {
  }

  /** The single-probe frame with battery byte `battery`, ignored bytes `internal` and raw temperature `t`. */
  function EncodeSingleProbe(battery: byte, internal: seq<byte>, t: int): (b: seq<byte>)
    requires -0x8000 <= t < 0x8000
    ensures |b| == |internal| + MinFrameLength
  {
    [SingleProbeId, battery] + internal + Int16ToBigEndian(t)
  }

  /** Decoding an encoded single-probe frame recovers its battery percentage and temperature. */
  lemma DecodeEncodeSingleProbe(battery: byte, internal: seq<byte>, t: int)
    requires -0x8000 <= t < 0x8000
    ensures DecodeFrame(EncodeSingleProbe(battery, internal, t)) ==
              if t == -748 || t == 1360 then Failure(SensorReadingError)
              else Success(Reading(SingleProbeId, BatteryPercent(battery), t))
  {
  }

  /** Every long-enough frame starting with 1 is the encoding of what it decodes from. */
  lemma SingleProbeFrameIsEncoded(b: seq<byte>)
    requires |b| >= MinFrameLength && b[0] == SingleProbeId
    ensures b == EncodeSingleProbe(b[1], b[2..|b| - 2], Int16BigEndian(b[|b| - 2], b[|b| - 1]))
  {
  }

  /** A reading is produced by decoding some frame exactly when it is one of the decoded readings. */
  lemma DecodedReadingsAreReachable(r: Reading)
    ensures (exists b: seq<byte> :: DecodeFrame(b) == Success(r)) <==> IsDecodedReading(r)
  {
    if r == ZeroReading {
      assert DecodeFrame([0, 0, 0, 0]) == Success(r);
    } else if IsDecodedReading(r) {
      BatteryPercentOnto(r.batteryLevel);
      var battery: byte :| BatteryPercent(battery) == r.batteryLevel;
      DecodeEncodeSingleProbe(battery, [], r.temperature);
      assert DecodeFrame(EncodeSingleProbe(battery, [], r.temperature)) == Success(r);
    }
  }

  /** The bytes between the battery byte and the temperature do not affect the outcome. */
  lemma InternalBytesIgnored(battery: byte, i0: seq<byte>, i1: seq<byte>, t: int)
    requires -0x8000 <= t < 0x8000
    ensures DecodeFrame(EncodeSingleProbe(battery, i0, t)) == DecodeFrame(EncodeSingleProbe(battery, i1, t))
  {
  }

  /** The frame [1, 254, 0x01, 0x2C] decodes to a full battery and 18.75 degrees. */
  lemma WorkedExample()
    ensures DecodeFrame([1, 254, 0x01, 0x2C]) == Success(Reading(1, 100, 300))
    ensures Celsius(300) == 18.75
  {
  }

  // ---------------------------------------------------------------------
  // The decoder entry point
  // ---------------------------------------------------------------------

  /**
   * The downstream consumer the decoder hands its payload to. `received`
   * records every payload it is given; `reply` is what it answers.
   */
  class Callback {
    ghost var received: seq<Payload>
    var reply: Option<Error>

    constructor (reply: Option<Error>)
      ensures received == [] && this.reply == reply
    {
      received := [];
      this.reply := reply;
    }

    method Invoke(p: Payload) returns (err: Option<Error>)
      modifies this`received
      ensures received == old(received) + [p]
      ensures err == reply
    {
      received := received + [p];
      err := reply;
    }
  }

  /**
   * Decodes the uplink `ue` and, only when that succeeds, hands the callback
   * exactly one payload holding the temperature and then the battery level.
   * A decoding error is returned without calling the callback; the
   * callback's own error is returned as it is.
   */
  method SenlabTBasicDecoder(ue: UplinkEvent, fn: Callback) returns (err: Option<Error>)
    modifies fn`received
    ensures match DecodeFrame(ue.data)
      case Failure(e) => err == Some(e) && fn.received == old(fn.received)
      case Success(r) =>
        && fn.received == old(fn.received) + [Payload(ue.devEui, ue.timestamp, r.batteryLevel, [Temp(r.temperature), Bat(r.batteryLevel)])]
        && err == fn.reply
  {
    var p := new ProbePayload();
    if |ue.data| < MinFrameLength {
      return Some(PayloadTooShort);
    }
    err := DecodePayload(ue.data, p);
    if err.Some? {
      return;
    }
    var temp := Temp(p.temperature);
    var bat := Bat(p.batteryLevel);
    var pp := Payload(ue.devEui, ue.timestamp, p.batteryLevel, []);
    pp := pp.(measurements := pp.measurements + [temp]);
    pp := pp.(measurements := pp.measurements + [bat]);
    assert pp.measurements == [temp, bat];
    assert DecodeFrame(ue.data) == Success(p.Value());
    err := fn.Invoke(pp);
  }
}
