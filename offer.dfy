/**
 * The step-6 offer: a five-minute countdown shown as `m:ss`, and a
 * "seats left" counter that runs down while the flash sale is shown.
 * Each timer callback is one tick; a tick fires only while its effect's
 * guard holds, because the effect is torn down and re-armed on every change.
 */
module Offer {
  import opened Wrappers
  import opened Text

  const InitialTimeLeft := 300
  const InitialSeats := 6

  /** `formatTime`: minutes, a colon, and the seconds padded to two digits. */
  function FormatTime(seconds: nat): string {
    NatToString(seconds / 60) + ":" + PadStart(NatToString(seconds % 60), 2, '0')
  }

  /** Reads an `m:ss` display back into seconds; `None` for anything `FormatTime` cannot produce. */
  function ParseTime(t: string): (r: Option<nat>)
    ensures r.Some? ==> |t| >= 4 && t[|t| - 3] == ':'
  {
    if |t| < 4 || t[|t| - 3] != ':' then None
    else
      var mins, secs := t[..|t| - 3], t[|t| - 2..];
      if AllDigits(mins) && AllDigits(secs) && DigitsValue(secs) < 60
      then Some(DigitsValue(mins) * 60 + DigitsValue(secs))
      else None
  }

  lemma {:induction false} PaddedSecondsValue(s: nat)
    requires s < 60
    ensures var p := PadStart(NatToString(s), 2, '0'); |p| == 2 && AllDigits(p) && DigitsValue(p) == s
  {
    var n := NatToString(s);
    DigitsValueOfNatToString(s);
    if |n| < 2 {
      assert PadStart(n, 2, '0') == ['0'] + n;
      DigitsValueLeadingZero(n);
    }
  }

  /** A minutes part, a colon and a two-digit seconds part below 60 read back as their value. */
  lemma ParseTimeOfParts(mins: string, secs: string)
    requires |mins| >= 1 && AllDigits(mins)
    requires |secs| == 2 && AllDigits(secs) && DigitsValue(secs) < 60
    ensures ParseTime(mins + ":" + secs) == Some(DigitsValue(mins) * 60 + DigitsValue(secs))
  {
    var t := mins + ":" + secs;
    assert t[..|t| - 3] == mins;
    assert t[|t| - 2..] == secs;
  }

  lemma ParseClockParts(q: nat, m: nat)
    requires m < 60
    ensures ParseTime(NatToString(q) + ":" + PadStart(NatToString(m), 2, '0')) == Some(q * 60 + m)
  {
    var mins, secs := NatToString(q), PadStart(NatToString(m), 2, '0');
    PaddedSecondsValue(m);
    DigitsValueOfNatToString(q);
    ParseTimeOfValues(mins, secs, q, m);
  }

  lemma ParseTimeOfValues(mins: string, secs: string, q: nat, m: nat)
    requires |mins| >= 1 && AllDigits(mins) && DigitsValue(mins) == q
    requires |secs| == 2 && AllDigits(secs) && DigitsValue(secs) == m && m < 60
    ensures ParseTime(mins + ":" + secs) == Some(q * 60 + m)
  {
    ParseTimeOfParts(mins, secs);
  }

  /** Unfolding aid: `FormatTime`'s definition as a lemma a proof can call. */
  lemma FormatTimeParts(seconds: nat)
    ensures FormatTime(seconds) == NatToString(seconds / 60) + ":" + PadStart(NatToString(seconds % 60), 2, '0')
  {
  }

  /** The display is whole minutes, a colon, and exactly two digits of seconds below 60. */
  lemma FormatTimeShape(seconds: nat)
    ensures var r := FormatTime(seconds);
      |r| >= 4 && r[|r| - 3] == ':' && AllDigits(r[..|r| - 3])
      && AllDigits(r[|r| - 2..]) && DigitsValue(r[|r| - 2..]) == seconds % 60
  {
    FormatTimeParts(seconds);
    PaddedSecondsValue(seconds % 60);
    ClockParts(NatToString(seconds / 60), PadStart(NatToString(seconds % 60), 2, '0'));
  }

  lemma ClockParts(mins: string, secs: string)
    requires |mins| >= 1 && |secs| == 2
    ensures var r := mins + ":" + secs; |r| >= 4 && r[|r| - 3] == ':' && r[..|r| - 3] == mins && r[|r| - 2..] == secs
  {
  }

  /** The display is unambiguous: reading it back gives the seconds it was made from. */
  lemma FormatTimeRoundTrip(seconds: nat)
    ensures ParseTime(FormatTime(seconds)) == Some(seconds)
  {
    FormatTimeParts(seconds);
    ParseClockParts(seconds / 60, seconds % 60);
    assert (seconds / 60) * 60 + seconds % 60 == seconds;
  }

  /** The countdown's effect is armed on step 6 or while the flash sale shows, until it reaches 0. */
  predicate CountdownArmed(step: int, showFlashSale: bool, timeLeft: int) {
    (step == 6 || showFlashSale) && timeLeft > 0
  }

  /** The seats effect is armed while the flash sale shows and more than one seat is left. */
  predicate SeatsArmed(showFlashSale: bool, seatsLeft: int) {
    showFlashSale && seatsLeft > 1
  }

  /** One countdown tick. */
  function CountdownTick(step: int, showFlashSale: bool, timeLeft: int): (t: int)
    ensures timeLeft >= 0 ==> t >= 0
    ensures t == timeLeft || t == timeLeft - 1
  {
    if CountdownArmed(step, showFlashSale, timeLeft) then timeLeft - 1 else timeLeft
  }

  /** One seats tick. */
  function SeatsTick(showFlashSale: bool, seatsLeft: int): (s: int)
    ensures seatsLeft >= 1 ==> s >= 1
    ensures s == seatsLeft || s == seatsLeft - 1
  {
    if SeatsArmed(showFlashSale, seatsLeft) then seatsLeft - 1 else seatsLeft
  }

  /** The countdown after `k` ticks on an unchanged step. */
  function CountdownAfter(step: int, showFlashSale: bool, timeLeft: int, k: nat): int {
    if k == 0 then timeLeft
    else CountdownAfter(step, showFlashSale, CountdownTick(step, showFlashSale, timeLeft), k - 1)
  }

  /** The seats counter after `k` ticks. */
  function SeatsAfter(showFlashSale: bool, seatsLeft: int, k: nat): int {
    if k == 0 then seatsLeft
    else SeatsAfter(showFlashSale, SeatsTick(showFlashSale, seatsLeft), k - 1)
  }

  /** On the offer step the countdown loses one second per tick and stops at 0. */
  lemma {:induction false} CountdownFloorsAtZero(step: int, showFlashSale: bool, timeLeft: nat, k: nat)
    requires step == 6 || showFlashSale
    ensures CountdownAfter(step, showFlashSale, timeLeft, k) == if k <= timeLeft then timeLeft - k else 0
  {
    if k > 0 {
      CountdownFloorsAtZero(step, showFlashSale, CountdownTick(step, showFlashSale, timeLeft), k - 1);
    }
  }

  /** Away from the offer the countdown does not move. */
  lemma {:induction false} CountdownIdleOffOffer(step: int, timeLeft: int, k: nat)
    requires step != 6
    ensures CountdownAfter(step, false, timeLeft, k) == timeLeft
  {
    if k > 0 {
      CountdownIdleOffOffer(step, timeLeft, k - 1);
    }
  }

  /** While the flash sale shows, the seats counter loses one seat per tick and stops at 1. */
  lemma {:induction false} SeatsFloorAtOne(seatsLeft: int, k: nat)
    requires seatsLeft >= 1
    ensures SeatsAfter(true, seatsLeft, k) == if k < seatsLeft then seatsLeft - k else 1
  {
    if k > 0 {
      SeatsFloorAtOne(SeatsTick(true, seatsLeft), k - 1);
    }
  }

  /** Without the flash sale the seats counter does not move. */
  lemma {:induction false} SeatsIdleWithoutFlashSale(seatsLeft: int, k: nat)
    ensures SeatsAfter(false, seatsLeft, k) == seatsLeft
  {
    if k > 0 {
      SeatsIdleWithoutFlashSale(seatsLeft, k - 1);
    }
  }

  /** From the initial six seats, five ticks leave exactly one, and further ticks change nothing. */
  lemma SeatsReachOne(k: nat)
    requires k >= 5
    ensures SeatsAfter(true, InitialSeats, 5) == 1
    ensures SeatsAfter(true, InitialSeats, k) == 1
  {
    SeatsFloorAtOne(InitialSeats, 5);
    SeatsFloorAtOne(InitialSeats, k);
  }

  /** From five minutes, 300 ticks reach 0 and further ticks change nothing. */
  lemma CountdownReachesZero(step: int, showFlashSale: bool, k: nat)
    requires step == 6 || showFlashSale
    requires k >= InitialTimeLeft
    ensures CountdownAfter(step, showFlashSale, InitialTimeLeft, k) == 0
  {
    CountdownFloorsAtZero(step, showFlashSale, InitialTimeLeft, k);
  }

  /** The countdown starts by showing five minutes. */
  lemma InitialTimeDisplay()
    ensures FormatTime(300) == "5:00"
  {
    var mins, secs := NatToString(5), PadStart(NatToString(0), 2, '0');
    assert mins == "5";
    assert secs == "00";
    FormatTimeParts(300);
    assert 300 / 60 == 5 && 300 % 60 == 0;
  }
}
