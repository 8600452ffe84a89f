/** The background service worker (background.js): the singleton timer with its
    stopped / running states, the badge label it shows while running, and the
    command switch that serves the popup's messages.

    The wall clock (`Date.now()`) is the parameter `now`, in milliseconds. */
module Background {
  import opened Wrappers
  import opened TimeText

  /** Whole seconds from `start` to `now`, as `Math.floor((now - start) / 1000)`. */
  function RunSeconds(start: int, now: int): (r: int)
    ensures r * 1000 <= now - start < (r + 1) * 1000
  {
    (now - start) / 1000
  }

  lemma RunSecondsMonotone(start: int, earlier: int, later: int)
    requires earlier <= later
    ensures RunSeconds(start, earlier) <= RunSeconds(start, later)
  {
  }

  /** The single unit the badge shows for `total` seconds: the largest one that is
      non-zero (hours, else minutes, else seconds). */
  function BadgePart(total: nat): (p: Part)
    ensures p.unit == (if total >= 3600 then Hour else if total >= 60 then Minute else Second)
    ensures p.amount == total / UnitSeconds(p.unit)
  {
    var hours, minutes, seconds := Hours(total), Minutes(total), Secs(total);
    Decompose(total);
    if hours > 0 then Part(hours, Hour)
    else if minutes > 0 then Part(minutes, Minute)
    else Part(seconds, Second)
  }

  /** The badge text: exactly one number and one unit letter, so 0 shows as "0s". */
  function BadgeText(total: nat): (text: string)
    ensures ParsePart(text) == Some(BadgePart(total))
    ensures total == 0 ==> text == "0s"
  {
    PartRoundTrip(BadgePart(total));
    Render(BadgePart(total))
  }

  class Timer {
    var isRunning: bool
    /** When the current (or, after a stop, the last) run began; `null` before the
        first start and after a reset. */
    var startTime: Option<int>
    /** Seconds accumulated by the runs stopped since the last reset. */
    var elapsedSeconds: int

    ghost predicate Valid()
      reads this
    {
      (isRunning ==> startTime.Some?) && elapsedSeconds >= 0
    }

    /** The clock does not run backwards: `now` is no earlier than the recorded start. */
    predicate ClockAfterStart(now: int)
      reads this
    {
      startTime.Some? ==> startTime.value <= now
    }

    constructor ()
      ensures Valid()
      ensures !isRunning && startTime == None && elapsedSeconds == 0
    {
      isRunning, startTime, elapsedSeconds := false, None, 0;
    }

    /** `getCurrentTime`: the seconds of the stopped runs plus the whole seconds of
        the one in progress. */
    function CurrentTime(now: int): (r: int)
      reads this
      requires Valid()
      ensures !isRunning ==> r == elapsedSeconds
      ensures isRunning ==>
        (r - elapsedSeconds) * 1000 <= now - startTime.value < (r - elapsedSeconds + 1) * 1000
      ensures ClockAfterStart(now) ==> r >= elapsedSeconds >= 0
    {
      if !isRunning then elapsedSeconds else elapsedSeconds + RunSeconds(startTime.value, now)
    }

    /** While running, the reading never goes down as the clock advances. */
    lemma CurrentTimeMonotone(earlier: int, later: int)
      requires Valid() && isRunning && earlier <= later
      ensures CurrentTime(earlier) <= CurrentTime(later)
    {
    }

    /** The text `updateBadge` puts on the badge, or `None` when it returns at once
        because the timer is stopped. */
    function BadgeLabel(now: int): (badge: Option<string>)
      reads this
      requires Valid() && ClockAfterStart(now)
      ensures badge.Some? <==> isRunning
      ensures badge.Some? ==> ParsePart(badge.value) == Some(BadgePart(CurrentTime(now)))
    {
      if !isRunning then None else Some(BadgeText(CurrentTime(now)))
    }

    method Start(now: int)
      requires Valid()
      modifies this
      ensures Valid() && isRunning
      ensures old(isRunning) ==> unchanged(this)
      ensures !old(isRunning) ==> startTime == Some(now) && elapsedSeconds == old(elapsedSeconds)
    {
      if !isRunning {
        startTime := Some(now);
        isRunning := true;
      }
    }

    /** Ends the run in progress and answers the accumulated `elapsedSeconds`
        (all runs since the last reset, this one included), or 0 when stopped. */
    method Stop(now: int) returns (elapsed: int)
      requires Valid() && ClockAfterStart(now)
      modifies this
      ensures Valid() && !isRunning && startTime == old(startTime)
      ensures old(isRunning) ==>
        elapsedSeconds == old(elapsedSeconds) + RunSeconds(old(startTime).value, now) &&
        elapsed == elapsedSeconds
      ensures !old(isRunning) ==> unchanged(this) && elapsed == 0
      ensures CurrentTime(now) == old(CurrentTime(now))
    {
      if isRunning {
        elapsedSeconds := elapsedSeconds + RunSeconds(startTime.value, now);
        isRunning := false;
        return elapsedSeconds;
      }
      return 0;
    }

    method Reset()
      modifies this
      ensures Valid()
      ensures !isRunning && startTime == None && elapsedSeconds == 0
    {
      isRunning := false;
      startTime := None;
      elapsedSeconds := 0;
    }
  }

  /** The answers the worker sends back through `sendResponse`. */
  datatype Reply =
    | Elapsed(elapsed: int)
    | Time(elapsedSeconds: int, isRunning: bool)

  /** The `chrome.runtime.onMessage` listener: `start` and `reset` get no answer,
      `stop` answers `{elapsed}`, `getTime` answers the reading and the state, and an
      action outside the switch is ignored. */
  method HandleMessage(timer: Timer, action: string, now: int) returns (reply: Option<Reply>)
    requires timer.Valid()
    requires action == "stop" ==> timer.ClockAfterStart(now)
    modifies timer
    ensures timer.Valid()
    ensures action == "start" ==>
      reply == None && timer.isRunning &&
      (old(timer.isRunning) ==> unchanged(timer)) &&
      (!old(timer.isRunning) ==>
        timer.startTime == Some(now) && timer.elapsedSeconds == old(timer.elapsedSeconds))
    ensures action == "stop" ==>
      reply == Some(Elapsed(if old(timer.isRunning) then timer.elapsedSeconds else 0)) &&
      !timer.isRunning && timer.startTime == old(timer.startTime) &&
      timer.CurrentTime(now) == old(timer.CurrentTime(now)) &&
      (old(timer.isRunning) ==> timer.elapsedSeconds == old(timer.CurrentTime(now))) &&
      (!old(timer.isRunning) ==> unchanged(timer))
    ensures action == "reset" ==>
      reply == None && !timer.isRunning && timer.startTime == None && timer.elapsedSeconds == 0
    ensures action == "getTime" ==>
      reply == Some(Time(timer.CurrentTime(now), timer.isRunning)) && unchanged(timer)
    ensures action !in {"start", "stop", "reset", "getTime"} ==> reply == None && unchanged(timer)
  {
    reply := None;
    if action == "start" {
      timer.Start(now);
    } else if action == "stop" {
      var elapsed := timer.Stop(now);
      reply := Some(Elapsed(elapsed));
    } else if action == "reset" {
      timer.Reset();
    } else if action == "getTime" {
      reply := Some(Time(timer.CurrentTime(now), timer.isRunning));
    }
  }
}
