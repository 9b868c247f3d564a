/** The time-tracking page: the start, pause and stop buttons and the HH:MM:SS
    clock display. */
module TimeTracking {
  import opened Common

  /** `Math.floor(t / 3600)`, `Math.floor((t % 3600) / 60)` and `t % 60` for a
      non-negative `t`: the hours, minutes and seconds it is made of. */
  function ClockFields(t: nat): (f: (nat, nat, nat))
    ensures f.1 < 60 && f.2 < 60
    ensures f.0 * 3600 + f.1 * 60 + f.2 == t
  {
    (t / 3600, (t % 3600) / 60, t % 60)
  }

  /** One field of the display: `n.toString().padStart(2, '0')`. */
  function ClockField(n: nat): (r: string)
    ensures |r| >= 2 && AllDigits(r)
    ensures n < 100 ==> |r| == 2
  {
    var d := DecimalString(n);
    assert 10 <= n < 100 ==> |DecimalString(n / 10)| == 1 && d == DecimalString(n / 10) + [DigitChar(n % 10)];
    PadStart2(d)
  }

  /** A two-digit field reads back as the number it shows. */
  lemma ClockFieldValue(n: nat)
    requires n < 100
    ensures DecimalValue(ClockField(n)) == n
  {
    DecimalRoundTrip(n);
    if n < 10 {
      DecimalLeadingZero(DecimalString(n));
      assert ClockField(n) == "0" + DecimalString(n);
    } else {
      assert ClockField(n) == DecimalString(n);
    }
  }

  /** The clock display. */
  function FormatClock(t: nat): (r: string)
    ensures |r| >= 8
    ensures var f := ClockFields(t);
      r == ClockField(f.0) + ":" + ClockField(f.1) + ":" + ClockField(f.2)
  {
    var f := ClockFields(t);
    ClockField(f.0) + ":" + ClockField(f.1) + ":" + ClockField(f.2)
  }

  /** Below a hundred hours the display is `HH:MM:SS`, and reading its three
      fields back gives the time it shows. */
  lemma FormatClockRoundTrip(t: nat)
    requires t < 360000
    ensures var r := FormatClock(t);
      && |r| == 8 && r[2] == ':' && r[5] == ':'
      && AllDigits(r[0..2]) && AllDigits(r[3..5]) && AllDigits(r[6..8])
      && DecimalValue(r[0..2]) * 3600 + DecimalValue(r[3..5]) * 60 + DecimalValue(r[6..8]) == t
  {
    var f := ClockFields(t);
    assert f.0 < 100;
    var h, m, s := ClockField(f.0), ClockField(f.1), ClockField(f.2);
    ClockFieldValue(f.0);
    ClockFieldValue(f.1);
    ClockFieldValue(f.2);
    FieldsReadBack(h, m, s);
  }

  /** The three two-character fields of a joined display sit at their places. */
  lemma FieldsReadBack(h: string, m: string, s: string)
    requires |h| == 2 && |m| == 2 && |s| == 2
    ensures var r := h + ":" + m + ":" + s;
      |r| == 8 && r[2] == ':' && r[5] == ':' && r[0..2] == h && r[3..5] == m && r[6..8] == s
  {
  }

  /** A fresh timer reads `00:00:00`. */
  lemma ZeroClock()
    ensures FormatClock(0) == "00:00:00"
  {
    assert ClockFields(0) == (0, 0, 0);
    assert DecimalString(0) == "0";
    assert ClockField(0) == "00";
  }

  class Timer {
    var isTracking: bool
    var currentTime: nat

    constructor ()
      ensures !isTracking && currentTime == 0
    {
      isTracking, currentTime := false, 0;
    }

    /** The Start button shows while the timer is not tracking, the Pause button while it is. */
    predicate ShowsStart()
      reads this
    {
      !isTracking
    }

    method Start()
      modifies this
      ensures isTracking && currentTime == old(currentTime)
      ensures !ShowsStart()
    {
      isTracking := true;
    }

    method Pause()
      modifies this
      ensures !isTracking && currentTime == old(currentTime)
      ensures ShowsStart()
    {
      isTracking := false;
    }

    method Stop()
      modifies this
      ensures !isTracking && currentTime == 0 && currentTime <= old(currentTime)
    {
      isTracking := false;
      currentTime := 0;
    }
  }
}
