/**
 * The round clock: a countdown armed with a duration that loses one second
 * per tick, signals completion once on reaching zero and raises a
 * "final countdown" flag when it passes six seconds. `Clock` and `Step`
 * give the one-tick behaviour as values; `RoundClock` is the stateful
 * component whose `Tick` is proved to follow `Step`.
 */
module Timer {

  /** The display-relevant state of the clock; `running` is "the interval is set". */
  datatype Clock = Clock(duration: int, timeLeft: int, showCountdown: bool, running: bool)

  /** The new state after one tick, and whether that tick called the completion callback. */
  datatype TickOutcome = TickOutcome(next: Clock, completed: bool)

  /** Remaining seconds at which the final-countdown flag is raised. */
  const CountdownAt: int := 6

  /** Remaining seconds at or below which the display turns to its warning style. */
  const WarningThreshold: int := 10

  /** The clock as the reset effect leaves it: full time, flag down, interval set. */
  function Arm(duration: int): Clock
  {
    Clock(duration, duration, false, true)
  }

  /** One run of the interval callback. */
  function Step(c: Clock): (o: TickOutcome)
    ensures o.next.duration == c.duration
    ensures o.next.timeLeft >= 0
    ensures c.timeLeft > 0 ==> o.next.timeLeft == c.timeLeft - 1
    ensures o.completed <==> c.timeLeft <= 1
    ensures o.next.running <==> c.running && !o.completed
    ensures o.next.showCountdown <==> c.showCountdown || c.timeLeft == CountdownAt
  {
    var show := if c.timeLeft == 6 then true else c.showCountdown;
    if c.timeLeft <= 1 then
      TickOutcome(c.(timeLeft := 0, showCountdown := show, running := false), true)
    else
      TickOutcome(c.(timeLeft := c.timeLeft - 1, showCountdown := show), false)
  }

  /** The clock after `k` further interval callbacks; none arrive once the interval is cleared. */
  function Run(c: Clock, k: nat): Clock
    decreases k
  {
    if k == 0 || !c.running then c else Run(Step(c).next, k - 1)
  }

  /** How many of the next `k` interval callbacks call the completion callback. */
  function Completions(c: Clock, k: nat): nat
    decreases k
  {
    if k == 0 || !c.running then 0
    else (if Step(c).completed then 1 else 0) + Completions(Step(c).next, k - 1)
  }

  /** A running clock with `t >= 1` seconds left counts down one second per tick. */
  lemma {:induction false} RunCountsDown(c: Clock, k: nat)
    requires c.running && c.timeLeft >= 1 && k <= c.timeLeft
    ensures Run(c, k).duration == c.duration
    ensures Run(c, k).timeLeft == c.timeLeft - k
    ensures Run(c, k).running <==> k < c.timeLeft
    ensures Run(c, k).showCountdown <==>
              c.showCountdown || (c.timeLeft >= CountdownAt && c.timeLeft - k < CountdownAt)
    decreases k
  {
    if k > 0 {
      var n := Step(c).next;
      if c.timeLeft > 1 {
        RunCountsDown(n, k - 1);
      }
    }
  }

  /** A running clock with `t >= 1` seconds left completes once, on its `t`-th tick, and never again. */
  lemma {:induction false} CompletesOnce(c: Clock, k: nat)
    requires c.running && c.timeLeft >= 1
    ensures Completions(c, k) == if k >= c.timeLeft then 1 else 0
    decreases k
  {
    if k > 0 {
      var n := Step(c).next;
      if c.timeLeft > 1 {
        CompletesOnce(n, k - 1);
      } else {
        assert !n.running;
      }
    }
  }

  /**
   * From a reset with duration `d >= 1`: the first `d - 1` ticks do not
   * complete, the `d`-th tick does, and no number of ticks completes twice.
   */
  lemma FiresOnDthTick(d: int)
    requires d >= 1
    ensures Completions(Arm(d), d - 1) == 0
    ensures Run(Arm(d), d - 1).running && Step(Run(Arm(d), d - 1)).completed
    ensures forall k: nat :: Completions(Arm(d), k) == if k >= d then 1 else 0
  {
    CompletesOnce(Arm(d), d - 1);
    RunCountsDown(Arm(d), d - 1);
    forall k: nat ensures Completions(Arm(d), k) == if k >= d then 1 else 0 {
      CompletesOnce(Arm(d), k);
    }
  }

  /** After a reset, the final-countdown flag is up exactly once the clock has passed six seconds. */
  lemma CountdownFlag(d: int, k: nat)
    requires d >= 1 && k <= d
    ensures Run(Arm(d), k).showCountdown <==> d >= CountdownAt && k > d - CountdownAt
  {
    RunCountsDown(Arm(d), k);
  }

  /** The warning style is on during exactly the last ten seconds of a round. */
  lemma WarningWindow(d: int, k: nat)
    requires d >= 1 && k <= d
    ensures IsWarning(Run(Arm(d), k).timeLeft) <==> k >= d - WarningThreshold
  {
    RunCountsDown(Arm(d), k);
  }

  /** The warning style is on while the face reads 00:10 or less. */
  predicate IsWarning(timeLeft: int)
    ensures timeLeft >= 0 ==>
              (IsWarning(timeLeft) <==> TimeDisplay(timeLeft).minutes == 0 && TimeDisplay(timeLeft).seconds <= WarningThreshold)
  {
    timeLeft <= WarningThreshold
  }

  /** Progress as a percentage of the duration. */
  function Percent(timeLeft: int, duration: int): (p: real)
    requires duration > 0
    ensures 0 <= timeLeft <= duration ==> 0.0 <= p <= 100.0
    ensures timeLeft == duration ==> p == 100.0
    ensures timeLeft == 0 ==> p == 0.0
  {
    (timeLeft as real / duration as real) * 100.0
  }

  /** Less time left never shows more progress. */
  lemma PercentMonotone(t1: int, t2: int, duration: int)
    requires duration > 0 && t1 <= t2
    ensures Percent(t1, duration) <= Percent(t2, duration)
  {
    var d := duration as real;
    assert t1 as real / d <= t2 as real / d by {
      assert t1 as real / d * d == t1 as real;
      assert t2 as real / d * d == t2 as real;
    }
  }

  /** Progress does not increase from one tick to the next. */
  lemma ProgressNonIncreasing(c: Clock)
    requires c.duration > 0 && c.timeLeft >= 0
    ensures Percent(Step(c).next.timeLeft, c.duration) <= Percent(c.timeLeft, c.duration)
  {
    PercentMonotone(Step(c).next.timeLeft, c.timeLeft, c.duration);
  }

  /** The minutes and seconds shown on the clock face. */
  datatype Face = Face(minutes: int, seconds: int)

  /**
   * `Math.floor(timeLeft / 60)` and `timeLeft % 60`, where the latter keeps
   * the sign of its left operand.
   */
  function TimeDisplay(timeLeft: int): (f: Face)
    ensures timeLeft >= 0 ==> f.minutes * 60 + f.seconds == timeLeft && 0 <= f.seconds < 60
    ensures timeLeft < 0 ==> -60 < f.seconds <= 0
  {
    var seconds := if timeLeft >= 0 then timeLeft % 60 else -((-timeLeft) % 60);
    Face(timeLeft / 60, seconds)
  }

  /** The decimal digit for `k`. */
  function DigitChar(k: int): (c: char)
    requires 0 <= k <= 9
    ensures '0' <= c <= '9' && c as int - '0' as int == k
  {
    (k + '0' as int) as char
  }

  predicate IsDigits(s: string)
  {
    forall i :: 0 <= i < |s| ==> '0' <= s[i] <= '9'
  }

  /** The value of a string of decimal digits. */
  function DigitsValue(s: string): nat
    requires IsDigits(s)
  {
    if s == [] then 0 else DigitsValue(s[..|s| - 1]) * 10 + (s[|s| - 1] as int - '0' as int)
  }

  /** The decimal numeral of a natural number, without leading zeros. */
  function NatToString(n: nat): (s: string)
    ensures 1 <= |s| && IsDigits(s)
    ensures |s| > 1 ==> s[0] != '0'
  {
    if n < 10 then [DigitChar(n)] else NatToString(n / 10) + [DigitChar(n % 10)]
  }

  /** The numeral reads back as the number it was made from. */
  lemma {:induction false} NatToStringRoundTrip(n: nat)
    ensures DigitsValue(NatToString(n)) == n
  {
    if n >= 10 {
      var s := NatToString(n);
      assert s[..|s| - 1] == NatToString(n / 10);
      NatToStringRoundTrip(n / 10);
    }
  }

  /** An integer as a template literal writes it: a minus sign, then the digits. */
  function IntToString(i: int): (s: string)
    ensures i >= 0 ==> IsDigits(s) && DigitsValue(s) == i && |s| >= 1 && (|s| > 1 ==> s[0] != '0')
    ensures i < 0 ==>
              |s| >= 2 && s[0] == '-' && IsDigits(s[1..]) && DigitsValue(s[1..]) == -i && (|s| > 2 ==> s[1] != '0')
  {
    if i < 0 then
      NatToStringRoundTrip(-i);
      var t := NatToString(-i);
      assert ("-" + t)[1..] == t;
      "-" + t
    else
      NatToStringRoundTrip(i);
      NatToString(i)
  }

  /** The badge naming the round length: seconds below a minute, whole minutes otherwise. */
  function DurationLabel(duration: int): (tag: string)
    ensures |tag| >= 2
    ensures tag[|tag| - 1] == (if duration < 60 then 's' else 'm')
    ensures duration >= 0 ==>
              IsDigits(tag[..|tag| - 1]) &&
              DigitsValue(tag[..|tag| - 1]) == (if duration < 60 then duration else duration / 60) &&
              (|tag| > 2 ==> tag[0] != '0')
  {
    var text := if duration < 60 then IntToString(duration) + "s" else IntToString(duration / 60) + "m";
    assert text[..|text| - 1] == IntToString(if duration < 60 then duration else duration / 60);
    text
  }

  /**
   * The Timer component's state. `progress` mirrors the effect that
   * recomputes it whenever the remaining time changes; `fired` and `ticks`
   * are proof-only: whether completion was signalled since the last reset,
   * and how many ticks have run since then.
   */
  class RoundClock {
    var duration: int
    var timeLeft: int
    var progress: real
    var showCountdown: bool
    var running: bool
    ghost var fired: bool
    ghost var ticks: nat

    function State(): Clock
      reads this
    {
      Clock(duration, timeLeft, showCountdown, running)
    }

    ghost predicate Valid()
      reads this
    {
      && duration >= 1
      && ticks <= duration
      && timeLeft == duration - ticks
      && State() == Run(Arm(duration), ticks)
      && progress == Percent(timeLeft, duration)
      && (fired <==> ticks == duration)
      && (running <==> !fired)
      && (showCountdown <==> duration >= CountdownAt && timeLeft < CountdownAt)
    }

    /** Mounting the component runs the reset effect once. */
    constructor (d: int)
      requires d >= 1
      ensures Valid()
      ensures State() == Arm(d) && progress == 100.0 && !fired && ticks == 0
    {
      duration, timeLeft, progress, showCountdown, running := d, d, 100.0, false, true;
      fired, ticks := false, 0;
    }

    /** The reset effect, run on a new duration or round id: full time, full bar, flag down. */
    method Reset(d: int)
      requires d >= 1
      modifies this
      ensures Valid()
      ensures State() == Arm(d) && progress == 100.0 && !fired && ticks == 0
    {
      duration, timeLeft, progress, showCountdown, running := d, d, 100.0, false, true;
      fired, ticks := false, 0;
      RunCountsDown(Arm(d), 0);
    }

    /**
     * The interval callback, which only runs while the interval is set.
     * `completed` says whether it called the completion callback.
     */
    method Tick() returns (completed: bool)
      requires Valid() && running
      modifies this
      ensures Valid()
      ensures State() == Step(old(State())).next && completed == Step(old(State())).completed
      ensures duration == old(duration) && ticks == old(ticks) + 1
      ensures completed <==> ticks == duration
      ensures fired == completed && (running <==> !completed)
      ensures progress <= old(progress)
    {
      var prev := timeLeft;
      if prev == 6 {
        showCountdown := true;
      }
      if prev <= 1 {
        running := false;
        fired := true;
        completed := true;
        timeLeft := 0;
      } else {
        completed := false;
        timeLeft := prev - 1;
      }
      progress := Percent(timeLeft, duration);
      ticks := ticks + 1;
      RunCountsDown(Arm(duration), old(ticks));
      RunCountsDown(Arm(duration), ticks);
      PercentMonotone(timeLeft, prev, duration);
    }

    /** The time shown on the clock face. */
    function Display(): (f: Face)
      reads this
      requires Valid()
      ensures f.minutes * 60 + f.seconds == timeLeft && 0 <= f.seconds < 60
    {
      TimeDisplay(timeLeft)
    }
  }
}
