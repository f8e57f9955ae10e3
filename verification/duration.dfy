/** Test duration: the once-a-second tick that turns wall-clock milliseconds
    into whole seconds, and `formatDuration`, which renders seconds as
    `m:ss` (src/App.jsx). */
module Duration {
  import opened Wrappers

  /** `Math.floor((now - start) / 1000)` for millisecond clock readings:
      the number of whole seconds elapsed. */
  function ElapsedSeconds(start: int, now: int): (d: int)
    ensures d * 1000 <= now - start < d * 1000 + 1000
  {
    (now - start) / 1000  // Dafny's division floors when the divisor is positive
  }

  /** Once the clock has passed the start, the elapsed seconds are never
      negative and never go down as the clock advances. */
  lemma ElapsedSecondsMonotone(start: int, earlier: int, later: int)
    requires start <= earlier <= later
    ensures 0 <= ElapsedSeconds(start, earlier) <= ElapsedSeconds(start, later)
  {
  }

  predicate IsDigit(c: char)
  {
    '0' <= c <= '9'
  }

  function DigitChar(d: nat): (c: char)
    requires d < 10
    ensures IsDigit(c)
  {
    (d + '0' as int) as char
  }

  function DigitValue(c: char): nat
    requires IsDigit(c)
  {
    c as int - '0' as int
  }

  /** The number a non-empty string of decimal digits denotes, or `None`
      when the string is empty or holds another character. */
  function ParseNat(s: string): Option<nat>
    decreases |s|
  {
    if |s| == 0 || !IsDigit(s[|s| - 1]) then None
    else if |s| == 1 then Some(DigitValue(s[0]))
    else
      match ParseNat(s[..|s| - 1])
      case None => None
      case Some(v) => Some(v * 10 + DigitValue(s[|s| - 1]))
  }

  /** A non-negative integer written in decimal without leading zeros, as
      JavaScript's number-to-string conversion writes it. */
  function NatToString(n: nat): (s: string)
    ensures |s| >= 1
    ensures n < 10 <==> |s| == 1
  {
    if n < 10 then [DigitChar(n)] else NatToString(n / 10) + [DigitChar(n % 10)]
  }

  /** Reading a decimal string back gives the number that was written. */
  lemma {:induction false} NatToStringRoundTrip(n: nat)
    ensures ParseNat(NatToString(n)) == Some(n)
  {
    var s := NatToString(n);
    if n >= 10 {
      NatToStringRoundTrip(n / 10);
      assert s[..|s| - 1] == NatToString(n / 10);
    }
  }

  /** An integer's decimal text, with a leading '-' when it is negative. */
  function IntToString(n: int): string
  {
    if n < 0 then "-" + NatToString(-n) else NatToString(n)
  }

  /** `n` copies of `c`. */
  function Repeat(c: char, n: nat): (r: string)
    ensures |r| == n
    ensures forall i :: 0 <= i < n ==> r[i] == c
  {
    if n == 0 then [] else [c] + Repeat(c, n - 1)
  }

  /** `s.padStart(width, fill)` for a one-character fill: `fill` is repeated
      on the left until the text is `width` characters long. */
  function PadStart(s: string, width: nat, fill: char): (r: string)
    ensures |r| == if |s| < width then width else |s|
    ensures r[|r| - |s|..] == s
    ensures forall i :: 0 <= i < |r| - |s| ==> r[i] == fill
  {
    if |s| >= width then s else Repeat(fill, width - |s|) + s
  }

  /** JavaScript's `%`: the remainder takes the sign of the dividend. */
  function JsRemainder(a: int, b: int): (r: int)
    requires b > 0
    ensures a >= 0 ==> r == a % b
    ensures a < 0 ==> r <= 0 && a == b * -((-a) / b) + r  // the quotient truncates toward zero
    ensures -b < r < b
  {
    if a >= 0 then a % b else -((-a) % b)
  }

  /** `formatDuration(seconds)`: minutes, a colon, and the remaining seconds
      padded with zeros to two characters. */
  function FormatDuration(seconds: int): string
  {
    var mins := seconds / 60;  // Math.floor(seconds / 60)
    var secs := JsRemainder(seconds, 60);
    IntToString(mins) + ":" + PadStart(IntToString(secs), 2, '0')
  }

  /** Reads `m:ss` back: decimal minutes, a colon, exactly two decimal digits
      of seconds below 60. */
  function ParseDuration(text: string): (r: Option<nat>)
    ensures r.Some? ==> |text| >= 4 && text[|text| - 3] == ':'
  {
    if |text| < 4 || text[|text| - 3] != ':' then None
    else
      match (ParseNat(text[..|text| - 3]), ParseNat(text[|text| - 2..]))
      case (Some(mins), Some(secs)) => if secs < 60 then Some(mins * 60 + secs) else None
      case _ => None
  }

  /** Seconds below 60 are written as exactly two digits. */
  lemma TwoDigitSeconds(secs: nat)
    requires secs < 60
    ensures var p := PadStart(NatToString(secs), 2, '0');
      |p| == 2 && ParseNat(p) == Some(secs)
  {
    var t := NatToString(secs);
    var p := PadStart(t, 2, '0');
    NatToStringRoundTrip(secs);
    if secs < 10 {
      assert p == ['0'] + t;
      assert p[..1] == ['0'];
    } else {
      assert p == t;
    }
  }

  /** The pieces of `m:ss` can be read back from the joined text. */
  lemma JoinedPieces(m: string, p: string)
    requires |p| == 2
    ensures var r := m + ":" + p;
      |r| == |m| + 3 && r[..|r| - 3] == m && r[|r| - 3] == ':' && r[|r| - 2..] == p
  {
    var r := m + ":" + p;
    assert r[..|m|] == m;
    assert r[|m| + 1..] == p;
  }

  /** Minutes, a colon and two seconds digits are read back as
      minutes * 60 + seconds. */
  lemma ParseJoined(m: string, p: string, mins: nat, secs: nat, total: nat)
    requires |m| >= 1 && ParseNat(m) == Some(mins)
    requires |p| == 2 && ParseNat(p) == Some(secs) && secs < 60
    requires total == mins * 60 + secs
    ensures ParseDuration(m + ":" + p) == Some(total)
  {
    JoinedPieces(m, p);
  }

  /** For a non-negative duration the minutes and the seconds are the
      quotient and the remainder of a division by 60. */
  lemma FormatDurationPieces(seconds: nat)
    ensures FormatDuration(seconds) == NatToString(seconds / 60) + ":" + PadStart(NatToString(seconds % 60), 2, '0')
  {
  }

  /** The text of `mins` minutes and `secs` seconds reads back as
      `mins * 60 + secs`. */
  lemma PiecesRoundTrip(mins: nat, secs: nat, total: nat)
    requires secs < 60 && total == mins * 60 + secs
    ensures ParseDuration(NatToString(mins) + ":" + PadStart(NatToString(secs), 2, '0')) == Some(total)
  {
    var m := NatToString(mins);
    var p := PadStart(NatToString(secs), 2, '0');
    assert |m| >= 1 && ParseNat(m) == Some(mins) by {
      NatToStringRoundTrip(mins);
    }
    assert |p| == 2 && ParseNat(p) == Some(secs) by {
      TwoDigitSeconds(secs);
    }
    ParseJoined(m, p, mins, secs, total);
  }

  /** `ParseDuration` undoes `FormatDuration` on every non-negative duration:
      the text is decimal minutes, a colon and exactly two digits of seconds
      below 60, and minutes * 60 + seconds is the duration. */
  lemma FormatDurationRoundTrip(seconds: nat)
    ensures ParseDuration(FormatDuration(seconds)) == Some(seconds)
  {
    var mins, secs := seconds / 60, seconds % 60;
    assert seconds == mins * 60 + secs;
    var text := NatToString(mins) + ":" + PadStart(NatToString(secs), 2, '0');
    assert FormatDuration(seconds) == text by {
      FormatDurationPieces(seconds);
    }
    PiecesRoundTrip(mins, secs, seconds);
  }

  /** A negative duration, which a clock set back during a test produces,
      renders with two minus signs. */
  lemma FormatNegativeDuration()
    ensures FormatDuration(-5) == "-1:-5"
  {
    assert -5 / 60 == -1;
    assert JsRemainder(-5, 60) == -5;
    assert IntToString(-1) == "-1" by {
      assert NatToString(1) == "1";
    }
    assert IntToString(-5) == "-5" by {
      assert NatToString(5) == "5";
    }
    assert PadStart("-5", 2, '0') == "-5";
  }
}
