/** The reading validator of the emission monitor: how one raw `sensor-data`
    payload becomes the live two-channel reading (src/App.jsx). */
module Validator {

  /** A raw channel value as `parseFloat` sees it. The text-to-number parsing
      itself is abstracted away: a present field is described by what
      `parseFloat` makes of it. */
  datatype RawValue =
    | Missing                  // the field is absent: parseFloat(undefined) is NaN
    | NotANumber               // parseFloat yields NaN
    | Infinite(negative: bool) // parseFloat yields +Infinity or -Infinity
    | Num(r: real)             // parseFloat yields a finite number

  /** `parseValidPPM`: NaN, infinite and negative values read as 0; every
      finite non-negative value is kept as it is. There is no upper cap. */
  function ParseValidPPM(v: RawValue): (r: real)
    ensures r >= 0.0
    ensures r == 0.0 || v == Num(r)
    ensures v.Num? && v.r >= 0.0 ==> r == v.r
    ensures !(v.Num? && v.r >= 0.0) ==> r == 0.0
  {
    match v
    case Num(parsed) =>
      if parsed < 0.0 then 0.0 else MaxReal(0.0, parsed)
    case _ => 0.0
  }

  /** `Math.max` on two finite numbers. */
  function MaxReal(a: real, b: real): real
  {
    if a < b then b else a
  }

  /** Sanitising a value that has already been sanitised changes nothing:
      `getStatus` re-applies the validator to card values that went through
      it once, and this is why that is harmless. */
  lemma ParseValidPPMIdempotent(v: RawValue)
    ensures ParseValidPPM(Num(ParseValidPPM(v))) == ParseValidPPM(v)
  {
  }

  /** One `sensor-data` event payload. `Absent` stands for every falsy payload
      (`null`, `undefined`); a `timestamp` of "" stands for a missing or falsy
      timestamp field. */
  datatype Payload =
    | Absent
    | Present(mq135: RawValue, mq7: RawValue, timestamp: string)

  /** The validated live reading (`data` in the screen's state). */
  datatype Reading = Reading(mq135: real, mq7: real, timestamp: string)

  /** Builds the validated reading of a present payload; a missing timestamp
      is replaced by the current time, given here as the opaque ISO text
      `nowIso`. */
  function Validate(payload: Payload, nowIso: string): (r: Reading)
    requires payload.Present?
    ensures r.mq135 >= 0.0 && r.mq7 >= 0.0
    ensures payload.mq135.Num? && payload.mq135.r >= 0.0 ==> r.mq135 == payload.mq135.r
    ensures payload.mq7.Num? && payload.mq7.r >= 0.0 ==> r.mq7 == payload.mq7.r
    ensures !(payload.mq135.Num? && payload.mq135.r >= 0.0) ==> r.mq135 == 0.0
    ensures !(payload.mq7.Num? && payload.mq7.r >= 0.0) ==> r.mq7 == 0.0
    ensures r.timestamp == (if payload.timestamp == "" then nowIso else payload.timestamp)
  {
    Reading(
      ParseValidPPM(payload.mq135),
      ParseValidPPM(payload.mq7),
      if payload.timestamp != "" then payload.timestamp else nowIso)
  }
}
