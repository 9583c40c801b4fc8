/** The countdown as a value: the clock text, the one-second tick, the start/pause/reset button
    and the resets done on a round change (main.py Timer and the state parts of GamePage). */
module Timing {
  import opened Strings

  /** The text on the timer button. */
  datatype Label = StartTimer | PauseTimer | ResumeTimer | ResetTimer {
    function Text(): string {
      match this
      case StartTimer => "Start Timer"
      case PauseTimer => "Pause Timer"
      case ResumeTimer => "Resume Timer"
      case ResetTimer => "Reset Timer"
    }
  }

  /** Seconds of the clock text: str(secs), with a "0" in front below ten. */
  function TwoDigits(secs: int): string {
    if secs < 10 then "0" + IntToString(secs) else IntToString(secs)
  }

  /** format_time: whole minutes, a colon, then the seconds in two digits. Python's floor of t / 60
      and its t % 60 agree with Dafny's / and % here, the divisor being positive. */
  function FormatTime(t: int): string {
    IntToString(t / 60) + ":" + TwoDigits(t % 60)
  }

  lemma TwoDigitsAre(secs: int)
    requires 0 <= secs < 60
    ensures TwoDigits(secs) == [DigitChar(secs / 10), DigitChar(secs % 10)]
  {
    if secs >= 10 {
      assert NatToString(secs) == NatToString(secs / 10) + [DigitChar(secs % 10)];
    }
  }

  /** The clock text reads back as minutes and two-digit seconds that add up to t seconds. */
  lemma FormatTimeReadsBack(t: int)
    ensures |SplitOn(FormatTime(t), ':')| == 2
    ensures ParseInt(SplitOn(FormatTime(t), ':')[0]) == Some(t / 60)
    ensures SplitOn(FormatTime(t), ':')[0] == IntToString(t / 60)
    ensures |SplitOn(FormatTime(t), ':')[1]| == 2 && AllDigits(SplitOn(FormatTime(t), ':')[1])
    ensures ParseInt(SplitOn(FormatTime(t), ':')[1]) == Some(t % 60)
    ensures 60 * (t / 60) + t % 60 == t && 0 <= t % 60 < 60
  {
    var mins, secs := IntToString(t / 60), TwoDigits(t % 60);
    TwoDigitsAre(t % 60);
    StringHasNo(t / 60, ':');
    assert [mins, secs][1..] == [secs];
    assert JoinWith([mins, secs], ':') == FormatTime(t);
    SplitJoin([mins, secs], ':');
    ParseIntOfString(t / 60);
    var high := secs[..1];
    assert high == [DigitChar((t % 60) / 10)] && high[..0] == [];
    assert DigitsValue(high) == (t % 60) / 10;
    assert DigitsValue(secs) == 10 * DigitsValue(high) + (t % 60) % 10;
  }

  /** The examples of the clock's display: a 20-minute round, 65 seconds, and an expired clock. */
  lemma FormatTimeExamples()
    ensures FormatTime(1200) == "20:00"
    ensures FormatTime(65) == "1:05"
    ensures FormatTime(0) == "0:00"
  {
    assert NatToString(20) == NatToString(2) + [DigitChar(0)];
  }

  /** The timer's state: paused or running, seconds left, the clock text shown, the button label,
      and whether the screen is flashing the end of the round. */
  datatype Clock = Clock(paused: bool, remaining: int, shown: string, button: Label, flashing: bool)

  /** A stopped clock loaded with a round of the given minutes, as a fresh timer is. */
  function Stopped(minutes: int): Clock {
    Clock(true, minutes * 60, FormatTime(minutes * 60), StartTimer, false)
  }

  /** The state after the end of the round has been signalled. */
  function Expired(c: Clock): Clock {
    c.(remaining := 0, shown := "0:00", button := ResetTimer, flashing := true)
  }

  /** One call of countdown. A running clock shows its current value and then drops a second;
      a paused one is left alone; a running clock at zero (or below) signals the end of the round. */
  function Tick(c: Clock): (d: Clock)
    ensures d.paused == c.paused
    ensures d.remaining <= c.remaining
    ensures c.remaining >= 0 ==> d.remaining >= 0
    ensures d.remaining == c.remaining - 1 <==> !c.paused && c.remaining > 0
    ensures c.paused ==> d == c
  {
    if c.remaining > 0 && !c.paused then
      c.(shown := FormatTime(c.remaining), remaining := c.remaining - 1)
    else if c.paused then
      c
    else
      c.(shown := "0:00", button := ResetTimer, flashing := true)
  }

  /** k ticks in a row. */
  function Ticks(c: Clock, k: nat): Clock {
    if k == 0 then c else Tick(Ticks(c, k - 1))
  }

  /** start: resume a paused clock (which ticks at once), reload an expired one, or pause a running one. */
  function Press(c: Clock, minutes: int): (d: Clock)
    ensures d.paused == !c.paused
    ensures c.paused && c.remaining > 0 ==>
              d == c.(paused := false, button := PauseTimer, shown := FormatTime(c.remaining),
                      remaining := c.remaining - 1)
    ensures c.paused && c.remaining <= 0 ==>
              d == c.(paused := false, shown := "0:00", button := ResetTimer, flashing := true)
    ensures !c.paused && c.remaining == 0 ==> d == Stopped(minutes)
    ensures !c.paused && c.remaining != 0 ==> d == c.(paused := true, button := ResumeTimer)
  {
    if c.paused then
      Tick(c.(paused := false, button := PauseTimer))
    else if c.remaining == 0 then
      c.(paused := true, flashing := false, remaining := minutes * 60,
         shown := FormatTime(minutes * 60), button := StartTimer)
    else
      c.(paused := true, button := ResumeTimer)
  }

  /** timer.pause() followed by stop_flashing(). */
  function Halt(c: Clock): Clock {
    c.(paused := true, flashing := false)
  }

  /** refresh_round_values: reload the seconds of the current round and relabel the button;
      it neither pauses the clock nor stops the flashing. */
  function Refresh(c: Clock, minutes: int): (d: Clock)
    ensures d.paused == c.paused && d.flashing == c.flashing
    ensures d.remaining == minutes * 60 && d.shown == FormatTime(d.remaining)
    ensures d.button == StartTimer
  {
    c.(remaining := minutes * 60, shown := FormatTime(minutes * 60), button := StartTimer)
  }

  /** Halting, then refreshing, leaves the same clock as a fresh timer, whatever came before. */
  lemma ResetForgetsHistory(c: Clock, minutes: int)
    ensures Refresh(Halt(c), minutes) == Stopped(minutes)
  {
  }

  /** The label agrees with the pause flag, and "Reset Timer" is up only while the screen flashes. */
  predicate Consistent(c: Clock) {
    (c.button == PauseTimer ==> !c.paused) &&
    (c.button == ResumeTimer ==> c.paused) &&
    (c.button == ResetTimer ==> !c.paused && c.flashing)
  }

  lemma ConsistentKept(c: Clock, minutes: int)
    requires Consistent(c)
    ensures Consistent(Stopped(minutes))
    ensures Consistent(Tick(c))
    ensures Consistent(Press(c, minutes))
    ensures Consistent(Refresh(c, minutes))
  {
  }

  /** A paused clock does not move, however many ticks arrive. */
  lemma {:induction false} PausedFrozen(c: Clock, k: nat)
    requires c.paused
    ensures Ticks(c, k) == c
  {
    if k > 0 {
      PausedFrozen(c, k - 1);
    }
  }

  /** While running, each tick takes exactly one second off and shows the value before it. */
  lemma {:induction false} RunningCountsDown(c: Clock, k: nat)
    requires !c.paused && k <= c.remaining
    ensures Ticks(c, k) == if k == 0 then c
                           else c.(remaining := c.remaining - k, shown := FormatTime(c.remaining - k + 1))
  {
    if k > 0 {
      RunningCountsDown(c, k - 1);
    }
  }

  /** The tick after the clock reaches zero signals the end of the round, and every later tick
      leaves that state as it is: the count never goes below zero. */
  lemma {:induction false} RunningExpires(c: Clock, k: nat)
    requires !c.paused && 0 <= c.remaining < k
    ensures Ticks(c, k) == Expired(c)
  {
    if k == c.remaining + 1 {
      RunningCountsDown(c, c.remaining);
    } else {
      RunningExpires(c, k - 1);
    }
  }
}
