/**
 * The playback timeline: the current instant, whether playback runs, and
 * the range the instant must stay in. The 0.25 s timer that drives `tick`
 * is the caller's business; each call of `Tick` is one timer firing.
 */
module Timeline {
  import opened Dates

  /** `tick` advances by one simulated hour. */
  const TickInterval: real := 3600.0

  datatype TimelineEngine = TimelineEngine(
    currentDate: Date,
    isPlaying: bool,
    dateRange: ClosedRange,
    hapticsEnabled: bool,
    hapticImpacts: nat)   // light impacts delivered to the haptic generator so far

  /** The invariant every mutator keeps: the current instant lies in the range. */
  predicate InRange(e: TimelineEngine) {
    Contains(e.dateRange, e.currentDate)
  }

  /** A new engine: paused at `now`, over the unbounded range, haptics on. */
  function Init(now: Date): (e: TimelineEngine)
    ensures !e.isPlaying && e.currentDate == now && e.dateRange == Unbounded
    ensures e.hapticsEnabled && e.hapticImpacts == 0
    ensures InRange(e) <==> DistantPast <= now <= DistantFuture
  {
    TimelineEngine(now, false, Unbounded, true, 0)
  }

  function Play(e: TimelineEngine): (r: TimelineEngine)
    ensures r.isPlaying
    ensures r.(isPlaying := e.isPlaying) == e
  {
    e.(isPlaying := true)
  }

  function Pause(e: TimelineEngine): (r: TimelineEngine)
    ensures !r.isPlaying
    ensures r.(isPlaying := e.isPlaying) == e
  {
    e.(isPlaying := false)
  }

  /** Playing or pausing twice is the same as doing it once; each undoes the other's flag. */
  lemma PlayPauseIdempotent(e: TimelineEngine)
    ensures Play(Play(e)) == Play(e) && Pause(Pause(e)) == Pause(e)
    ensures e.isPlaying ==> Play(e) == e
    ensures !e.isPlaying ==> Pause(e) == e
    ensures Pause(Play(e)) == Pause(e) && Play(Pause(e)) == Play(e)
  {
  }

  /** `triggerHapticFeedback`: one impact when haptics are enabled. */
  function HapticFeedback(e: TimelineEngine): (r: TimelineEngine)
    ensures r.hapticImpacts == e.hapticImpacts + (if e.hapticsEnabled then 1 else 0)
    ensures r.(hapticImpacts := e.hapticImpacts) == e
  {
    if e.hapticsEnabled then e.(hapticImpacts := e.hapticImpacts + 1) else e
  }

  function SetHapticsEnabled(e: TimelineEngine, enabled: bool): (r: TimelineEngine)
    ensures r.hapticsEnabled == enabled
    ensures r.(hapticsEnabled := e.hapticsEnabled) == e
  {
    e.(hapticsEnabled := enabled)
  }

  /** `step(by:)`: move by `interval` when the target is in range (with haptic
      feedback), otherwise change nothing. It never clamps. */
  function Step(e: TimelineEngine, interval: real): (r: TimelineEngine)
    ensures Contains(e.dateRange, e.currentDate + interval) ==>
      r.currentDate == e.currentDate + interval && r == HapticFeedback(e.(currentDate := r.currentDate))
    ensures !Contains(e.dateRange, e.currentDate + interval) ==> r == e
    ensures r.currentDate == e.currentDate || r.currentDate == e.currentDate + interval
    ensures r.dateRange == e.dateRange && r.isPlaying == e.isPlaying
    ensures InRange(e) ==> InRange(r)
  {
    var target := e.currentDate + interval;
    if Contains(e.dateRange, target) then HapticFeedback(e.(currentDate := target)) else e
  }

  /** One timer firing: idle when paused; while playing, advance an hour if that
      stays in range, and otherwise pause where it is. */
  function Tick(e: TimelineEngine): (r: TimelineEngine)
    ensures !e.isPlaying ==> r == e
    ensures e.isPlaying && Contains(e.dateRange, e.currentDate + TickInterval) ==>
      r.isPlaying && r.currentDate == e.currentDate + TickInterval
      && r.hapticImpacts == e.hapticImpacts + (if e.hapticsEnabled then 1 else 0)
      && r.hapticsEnabled == e.hapticsEnabled
      && r == HapticFeedback(e.(currentDate := r.currentDate))
    ensures e.isPlaying && !Contains(e.dateRange, e.currentDate + TickInterval) ==>
      r == e.(isPlaying := false)
    ensures r.dateRange == e.dateRange && r.currentDate >= e.currentDate
    ensures InRange(e) ==> InRange(r)
  {
    if !e.isPlaying then e
    else
      var target := e.currentDate + TickInterval;
      if Contains(e.dateRange, target) then HapticFeedback(e.(currentDate := target))
      else Pause(e)
  }

  /** `n` timer firings in a row. */
  function Ticks(e: TimelineEngine, n: nat): TimelineEngine
    decreases n
  {
    if n == 0 then e else Tick(Ticks(e, n - 1))
  }

  /** `k` whole tick intervals. */
  function Hours(k: nat): real {
    k as real * TickInterval
  }

  /** However long playback runs, the instant only moves forward, by whole hours,
      and never leaves the range. */
  lemma {:induction false} PlaybackStaysInRange(e: TimelineEngine, n: nat)
    requires InRange(e)
    ensures var r := Ticks(e, n);
      InRange(r) && r.dateRange == e.dateRange && r.currentDate >= e.currentDate
      && exists k: nat :: k <= n && r.currentDate == e.currentDate + Hours(k)
    decreases n
  {
    if n == 0 {
      assert Ticks(e, n).currentDate == e.currentDate + Hours(0);
    } else {
      PlaybackStaysInRange(e, n - 1);
      var prev := Ticks(e, n - 1);
      var k: nat :| k <= n - 1 && prev.currentDate == e.currentDate + Hours(k);
      if Tick(prev).currentDate == prev.currentDate {
        assert Tick(prev).currentDate == e.currentDate + Hours(k);
      } else {
        assert Tick(prev).currentDate == e.currentDate + Hours(k + 1);
      }
    }
  }

  /** Once playback has paused, further ticks change nothing. */
  lemma {:induction false} PausedTicksAreIdle(e: TimelineEngine, n: nat)
    requires !e.isPlaying
    ensures Ticks(e, n) == e
    decreases n
  {
    if n > 0 {
      PausedTicksAreIdle(e, n - 1);
    }
  }

  /** `setDateRange`: take the new range, and snap to its lower bound only when
      the current instant falls outside it. */
  function SetDateRange(e: TimelineEngine, range: ClosedRange): (r: TimelineEngine)
    ensures r.dateRange == range && InRange(r)
    ensures Contains(range, e.currentDate) ==> r.currentDate == e.currentDate
    ensures !Contains(range, e.currentDate) ==> r.currentDate == range.lower
    ensures r.isPlaying == e.isPlaying && r.hapticImpacts == e.hapticImpacts
    ensures r.hapticsEnabled == e.hapticsEnabled
    ensures r.(currentDate := e.currentDate, dateRange := e.dateRange) == e
  {
    var e1 := e.(dateRange := range);
    if !Contains(range, e.currentDate) then e1.(currentDate := range.lower) else e1
  }

  /** `resetToStart`: jump to the earliest instant; no haptic impact, nothing else changes. */
  function ResetToStart(e: TimelineEngine): (r: TimelineEngine)
    ensures InRange(r) && r.dateRange == e.dateRange
    ensures forall d: Date :: Contains(r.dateRange, d) ==> r.currentDate <= d
    ensures r.(currentDate := e.currentDate) == e
  {
    e.(currentDate := e.dateRange.lower)
  }

  /** `resetToEnd`: jump to the latest instant; no haptic impact, nothing else changes. */
  function ResetToEnd(e: TimelineEngine): (r: TimelineEngine)
    ensures InRange(r) && r.dateRange == e.dateRange
    ensures forall d: Date :: Contains(r.dateRange, d) ==> d <= r.currentDate
    ensures r.(currentDate := e.currentDate) == e
  {
    e.(currentDate := e.dateRange.upper)
  }

  /** `progress`: how far through the range the instant is, 0 for an empty range. */
  function Progress(e: TimelineEngine): (p: real)
    ensures Duration(e.dateRange) == 0.0 ==> p == 0.0
    ensures InRange(e) ==> 0.0 <= p <= 1.0
    ensures InRange(e) && Duration(e.dateRange) > 0.0 ==>
      (p == 0.0 <==> e.currentDate == e.dateRange.lower)
      && (p == 1.0 <==> e.currentDate == e.dateRange.upper)
  {
    var total := e.dateRange.upper - e.dateRange.lower;
    var elapsed := e.currentDate - e.dateRange.lower;
    if total > 0.0 then
      assert InRange(e) ==> elapsed / total <= 1.0 by {
        if InRange(e) {
          assert elapsed <= total;
        }
      }
      elapsed / total
    else 0.0
  }

  function Clamp01(p: real): (c: real)
    ensures 0.0 <= c <= 1.0
    ensures 0.0 <= p <= 1.0 ==> c == p
    ensures p < 0.0 ==> c == 0.0
    ensures p > 1.0 ==> c == 1.0
  {
    if p < 0.0 then 0.0 else if p > 1.0 then 1.0 else p
  }

  /** `setProgress`: map the clamped fraction onto the range. The result is in
      range from any start, and `progress` then reads back the clamped fraction.
      Scrubbing gives no haptic impact and changes nothing but the instant. */
  function SetProgress(e: TimelineEngine, p: real): (r: TimelineEngine)
    ensures InRange(r) && r.dateRange == e.dateRange
    ensures r.(currentDate := e.currentDate) == e
    ensures Duration(e.dateRange) > 0.0 ==> Progress(r) == Clamp01(p)
  {
    var total := e.dateRange.upper - e.dateRange.lower;
    var c := Clamp01(p);
    ScaleWithin(total, c);
    var offset := total * c;
    assert 0.0 <= offset <= total;
    e.(currentDate := e.dateRange.lower + offset)
  }

  /** Scaling a non-negative length by a fraction stays within it, and dividing
      the scaled length back out recovers the fraction. */
  lemma ScaleWithin(total: real, c: real)
    requires total >= 0.0 && 0.0 <= c <= 1.0
    ensures 0.0 <= total * c <= total
    ensures total > 0.0 ==> (total * c) / total == c
  {
    assert total * (1.0 - c) >= 0.0;
  }

  /** `setProgress(progress)` leaves an in-range engine where it was. */
  lemma ProgressRoundTrip(e: TimelineEngine)
    requires InRange(e)
    ensures SetProgress(e, Progress(e)).currentDate == e.currentDate
  {
    var total := e.dateRange.upper - e.dateRange.lower;
    if total > 0.0 {
      var elapsed := e.currentDate - e.dateRange.lower;
      assert total * (elapsed / total) == elapsed;
    }
  }
}
