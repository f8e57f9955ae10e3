/** The three-tier status shown on each sensor card (`getStatus` and the
    `sensors` table of src/App.jsx). */
module Status {
  import opened Validator

  /** Normal, Waspada (caution) and Bahaya (danger), in increasing severity. */
  datatype Tier = Normal | Waspada | Bahaya

  function Rank(t: Tier): nat
  {
    match t
    case Normal => 0
    case Waspada => 1
    case Bahaya => 2
  }

  /** The two gas sensors of the device. */
  datatype Sensor = Mq135 | Mq7

  /** The per-card threshold in ppm. */
  function Threshold(sensor: Sensor): real
  {
    match sensor
    case Mq135 => 400.0
    case Mq7 => 200.0
  }

  /** Above this fraction of the threshold a value is a caution. */
  const CautionRatio: real := 0.7

  /** `getStatus(value, threshold)`: the value is re-sanitised, then compared
      against the threshold and against 70% of it. */
  function GetStatus(value: RawValue, threshold: real): (t: Tier)
    ensures t == Bahaya <==> ParseValidPPM(value) > threshold
    ensures t == Waspada <==> CautionRatio * threshold < ParseValidPPM(value) <= threshold
    ensures t == Normal <==> ParseValidPPM(value) <= threshold && ParseValidPPM(value) <= CautionRatio * threshold
  {
    var safeValue := ParseValidPPM(value);
    if safeValue > threshold then Bahaya
    else if safeValue > threshold * CautionRatio then Waspada
    else Normal
  }

  /** The raw channel of the live reading that a card displays. */
  function Channel(sensor: Sensor, data: Reading): real
  {
    match sensor
    case Mq135 => data.mq135
    case Mq7 => data.mq7
  }

  /** The status of one card: its value is `parseValidPPM` of the live
      reading's channel, and `getStatus` sanitises it a second time. */
  function SensorStatus(sensor: Sensor, data: Reading): (t: Tier)
    ensures t == Bahaya <==> Channel(sensor, data) > Threshold(sensor)
    ensures t == Waspada <==> CautionRatio * Threshold(sensor) < Channel(sensor, data) <= Threshold(sensor)
    ensures t == Normal <==> Channel(sensor, data) <= CautionRatio * Threshold(sensor)
  {
    GetStatus(Num(ParseValidPPM(Num(Channel(sensor, data)))), Threshold(sensor))
  }

  /** A larger value never gets a milder tier, whatever the threshold. */
  lemma GetStatusMonotone(a: real, b: real, threshold: real)
    requires a <= b
    ensures Rank(GetStatus(Num(a), threshold)) <= Rank(GetStatus(Num(b), threshold))
  {
  }

  /** The boundaries of the two cards. */
  lemma ThresholdExamples()
    ensures GetStatus(Num(280.0), Threshold(Mq135)) == Normal
    ensures GetStatus(Num(280.01), Threshold(Mq135)) == Waspada
    ensures GetStatus(Num(400.0), Threshold(Mq135)) == Waspada
    ensures GetStatus(Num(400.01), Threshold(Mq135)) == Bahaya
    ensures GetStatus(Num(140.0), Threshold(Mq7)) == Normal
    ensures GetStatus(Num(140.01), Threshold(Mq7)) == Waspada
    ensures GetStatus(Num(200.01), Threshold(Mq7)) == Bahaya
    ensures GetStatus(NotANumber, Threshold(Mq7)) == Normal
    ensures GetStatus(Num(-5.0), Threshold(Mq135)) == Normal
  {
  }
}
