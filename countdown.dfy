/** The "Next wave in: mm:ss" display (main.js:283-297): whole seconds
    left, rounded up, split into minutes and seconds, each padded to two
    digits. */
module Countdown {
  import opened Common
  import Config

  /** Math.ceil(Math.max(0, nextWaveAt - now) / 1000). */
  function SecondsLeft(nextWaveAt: real, now: real): (sec: nat)
    ensures var msLeft := if nextWaveAt - now > 0.0 then nextWaveAt - now else 0.0;
            msLeft <= (sec * 1000) as real < msLeft + 1000.0
    ensures nextWaveAt <= now ==> sec == 0
  {
    var msLeft := if nextWaveAt - now > 0.0 then nextWaveAt - now else 0.0;
    Config.Ceil(msLeft / 1000.0)
  }

  predicate IsDigit(c: char) {
    '0' <= c <= '9'
  }

  predicate AllDigits(s: string) {
    forall i :: 0 <= i < |s| ==> IsDigit(s[i])
  }

  function DigitChar(d: nat): (c: char)
    requires d < 10
    ensures IsDigit(c) && (c as int - '0' as int) == d
  {
    (d + '0' as int) as char
  }

  /** Number.prototype.toString for a non-negative integer. */
  function Decimal(n: nat): (s: string)
    ensures |s| >= 1 && AllDigits(s)
    ensures n < 10 ==> |s| == 1
    ensures 10 <= n < 100 ==> |s| == 2
    decreases n
  {
    if n < 10 then [DigitChar(n)] else Decimal(n / 10) + [DigitChar(n % 10)]
  }

  /** Reading a string of decimal digits back as a number. */
  function ParseDecimal(s: string): nat
    requires AllDigits(s)
  {
    if s == [] then 0 else ParseDecimal(s[..|s| - 1]) * 10 + (s[|s| - 1] as int - '0' as int)
  }

  lemma {:induction false} DecimalRoundTrip(n: nat)
    ensures ParseDecimal(Decimal(n)) == n
    decreases n
  {
    if n >= 10 {
      var s := Decimal(n);
      assert s[..|s| - 1] == Decimal(n / 10);
      DecimalRoundTrip(n / 10);
    }
  }

  /** A leading zero does not change the value. */
  lemma {:induction false} LeadingZero(s: string)
    requires AllDigits(s)
    ensures AllDigits("0" + s) && ParseDecimal("0" + s) == ParseDecimal(s)
    decreases |s|
  {
    if s != [] {
      var t := "0" + s;
      assert t[..|t| - 1] == "0" + s[..|s| - 1];
      LeadingZero(s[..|s| - 1]);
    }
  }

  /** String.prototype.padStart(2, '0'). */
  function PadStart2(s: string): (r: string)
    ensures |s| >= 2 ==> r == s
    ensures |s| < 2 ==> |r| == 2 && r == seq(2 - |s|, _ => '0') + s
  {
    if |s| >= 2 then s else if |s| == 1 then "0" + s else "00"
  }

  /** `${mm}:${ss}` for a number of seconds: at least two minutes digits, a
      colon, two seconds digits; exactly "mm:ss" below 100 minutes. */
  function Clock(sec: nat): (c: string)
    ensures |c| >= 5 && c[|c| - 3] == ':'
    ensures sec < 6000 ==> |c| == 5
  {
    PadStart2(Decimal(sec / 60)) + ":" + PadStart2(Decimal(sec % 60))
  }

  /** Minutes before the colon, two seconds digits after it. */
  function ReadClock(s: string): nat
    requires |s| >= 3 && AllDigits(s[..|s| - 3]) && AllDigits(s[|s| - 2..])
  {
    ParseDecimal(s[..|s| - 3]) * 60 + ParseDecimal(s[|s| - 2..])
  }

  /** The display is exact: it reads "mm:ss" with two seconds digits, and
      reading it back gives the number of seconds left. */
  lemma {:induction false} ClockRoundTrip(sec: nat)
    ensures var c := Clock(sec);
            |c| >= 5 && c[|c| - 3] == ':' && AllDigits(c[..|c| - 3]) && AllDigits(c[|c| - 2..])
            && ReadClock(c) == sec
  {
    var mm, ss := Decimal(sec / 60), Decimal(sec % 60);
    var pm, ps := PadStart2(mm), PadStart2(ss);
    var c := Clock(sec);
    assert |ps| == 2;
    assert c[..|c| - 3] == pm;
    assert c[|c| - 2..] == ps;
    DecimalRoundTrip(sec / 60);
    DecimalRoundTrip(sec % 60);
    if |mm| < 2 {
      LeadingZero(mm);
    }
    if |ss| < 2 {
      LeadingZero(ss);
    }
  }

  const Prefix: string := "Next wave in: "
  const Placeholder: string := "Next wave in: --:--"

  /** The text the countdown poll writes: the placeholder while the run is
      stopped or no wave is scheduled (a recorded time of 0 counts as none,
      being falsy), else the time left. */
  function CountdownText(running: bool, nextWaveAt: Option<real>, now: real): (text: string)
    ensures !running || nextWaveAt.None? || nextWaveAt.value == 0.0 ==> text == Placeholder
    ensures running && nextWaveAt.Some? && nextWaveAt.value != 0.0 ==>
              text == Prefix + Clock(SecondsLeft(nextWaveAt.value, now))
  {
    if !running || nextWaveAt.None? || nextWaveAt.value == 0.0 then Placeholder
    else Prefix + Clock(SecondsLeft(nextWaveAt.value, now))
  }
}
