/** The scoreboard's clock text `mm:ss`: minutes unpadded, seconds padded to two digits. */
module Scoreboard {
  import opened Decimal

  /** `Math.floor(clockSeconds / 60)` and `Math.floor(clockSeconds % 60)` on a non-negative clock. */
  function ClockParts(clock: nat): (r: (nat, nat))
    ensures r.0 * 60 + r.1 == clock && r.1 < 60
  {
    (clock / 60, clock % 60)
  }

  /** `s.padStart(width, fill)`. */
  function PadStart(s: string, width: nat, fill: char): (r: string)
    ensures |r| == if |s| >= width then |s| else width
    ensures r[|r| - |s|..] == s
    decreases width - |s|
  {
    if |s| >= width then s else PadStart([fill] + s, width, fill)
  }

  /** A leading zero does not change the value. */
  lemma {:induction false} LeadingZero(s: string)
    ensures DecimalValue(['0'] + s) == DecimalValue(s)
    decreases |s|
  {
    var z := ['0'] + s;
    if s == [] {
      assert z[..0] == [];
    } else {
      var t := s[..|s| - 1];
      LeadingZero(t);
      assert z[..|z| - 1] == ['0'] + t;
    }
  }

  /** Padding with zeros keeps the value and keeps a digit string a digit string. */
  lemma {:induction false} ZeroPadding(s: string, width: nat)
    ensures DecimalValue(PadStart(s, width, '0')) == DecimalValue(s)
    ensures AllDigits(s) ==> AllDigits(PadStart(s, width, '0'))
    decreases width - |s|
  {
    if |s| < width {
      ZeroPadding(['0'] + s, width);
      LeadingZero(s);
      assert AllDigits(s) ==> AllDigits(['0'] + s) by {
        if AllDigits(s) {
          forall i | 0 <= i < |s| + 1
            ensures IsDigit((['0'] + s)[i])
          {
            if i > 0 {
              assert (['0'] + s)[i] == s[i - 1];
            }
          }
        }
      }
    }
  }

  /** `padStart(1, "0")` never pads: the minutes text is the plain decimal text of the minutes. */
  function MinutesText(clock: nat): (r: string)
    ensures r == DecimalString(clock / 60)
    ensures |r| >= 1
  {
    PadStart(DecimalString(ClockParts(clock).0), 1, '0')
  }

  function SecondsText(clock: nat): (r: string)
    ensures |r| == 2
  {
    PadStart(DecimalString(ClockParts(clock).1), 2, '0')
  }

  /** `{mm}:{ss}`. */
  function ClockText(clock: nat): (t: string)
    ensures |t| >= 4
  {
    MinutesText(clock) + ":" + SecondsText(clock)
  }

  /** The minutes text is the plain number; the seconds text is exactly two digits
      denoting the seconds. */
  lemma {:induction false} ClockTextFields(clock: nat)
    ensures DecimalValue(MinutesText(clock)) == clock / 60
    ensures |SecondsText(clock)| == 2 && AllDigits(SecondsText(clock))
    ensures DecimalValue(SecondsText(clock)) == clock % 60
  {
    DecimalRoundTrip(clock / 60);
    ZeroPadding(DecimalString(clock / 60), 1);
    DecimalRoundTrip(clock % 60);
    ZeroPadding(DecimalString(clock % 60), 2);
  }

  /** Reads a `mm:ss` text back into seconds. */
  function ReadClock(t: string): nat
    requires |t| >= 4
  {
    DecimalValue(t[..|t| - 3]) * 60 + DecimalValue(t[|t| - 2..])
  }

  /** Reading a joined `m:ss` text gives back both fields, whatever `m` is. */
  lemma ReadJoined(m: string, s: string)
    requires |m| >= 1 && |s| == 2
    ensures ReadClock(m + ":" + s) == DecimalValue(m) * 60 + DecimalValue(s)
  {
    var t := m + ":" + s;
    assert t[..|t| - 3] == m;
    assert t[|t| - 2..] == s;
  }

  /** The scoreboard text round-trips to the clock it shows. */
  lemma ClockTextRoundTrip(clock: nat)
    ensures ReadClock(ClockText(clock)) == clock
  {
    ClockTextFields(clock);
    ReadJoined(MinutesText(clock), SecondsText(clock));
  }
}
