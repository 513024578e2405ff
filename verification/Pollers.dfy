/** The three polling loops: workflows/scans/waiter.go, workflows/reports/reports.go (Handle.Wait) and
    workflows/audit/waiter.go.  Time is in nanoseconds; it may pass anywhere, and a timer never fires
    early.  A platform is the sequence of answers it gives to successive polls. */
module Pollers {
  import opened Errors
  import opened Numbers
  import opened Inspector

  /** A timer set at a moment for a duration. */
  datatype Timer = Timer(at: int, d: int)

  /** Each timer set between `was` and `now` is set for the interval, or for what is left before the deadline
      where that is less; none for nothing. */
  ghost predicate Paced(was: seq<Timer>, now: seq<Timer>, interval: int, deadline: Option<int>) {
    && was <= now
    && forall i | |was| <= i < |now| ::
         && now[i].d > 0
         && now[i].d == if deadline.Some? && deadline.value - now[i].at < interval then deadline.value - now[i].at
                        else interval
  }

  class Clock {
    var now: int
    ghost var timers: seq<Timer>   // all timers set
    ghost var sleeps: nat          // those that fired
    var ended: Option<Error>   // ctx.Err()

    constructor ()
      ensures sleeps == 0 && timers == []
    {
      now := *;
      timers := [];
      sleeps := 0;
      ended := None;
    }

    /** Something other than a sleep takes time. */
    method Pass()
      modifies `now
      ensures now >= old(now)
    {
      var d: int := *;
      if d > 0 {
        now := now + d;
      }
    }

    /** time.NewTimer(interval) against ctx.Done(): the only error is the context's. */
    method Sleep(interval: int) returns (error: Option<Error>)
      modifies this
      ensures now >= old(now) && timers == old(timers) + [Timer(old(now), interval)]
      ensures error.None? ==> now >= old(now) + interval && sleeps == old(sleeps) + 1
      ensures error.Some? ==> sleeps == old(sleeps) && error == ended
      ensures old(ended).Some? ==> ended == old(ended)
    {
      timers := timers + [Timer(now, interval)];
      Pass();
      var done: bool := *;
      if done {
        if ended.None? {
          var e: Error := *;
          ended := Some(e);
        }
        return ended;
      }
      if interval > 0 {
        now := now + interval;
      }
      sleeps := sleeps + 1;
      return None;
    }

    /** Why a wait without a verdict ends: the context did, or the deadline has come. */
    predicate GaveUp(e: Error, deadline: Option<int>)
      reads this
    {
      Some(e) == ended || (e == DeadlineExceeded && deadline.Some? && now >= deadline.value)
    }

    /** sleepUntil: one interval, cut short at the deadline; at or after it, DeadlineExceeded without
        sleeping. */
    method SleepUntil(interval: int, deadline: Option<int>) returns (error: Option<Error>)
      requires interval > 0
      modifies this
      ensures now >= old(now)
      ensures deadline.Some? && old(now) >= deadline.value ==>
                error == Some(DeadlineExceeded) && timers == old(timers) && sleeps == old(sleeps)
      ensures deadline.None? || old(now) < deadline.value ==>
                var left := if deadline.Some? then deadline.value - old(now) else interval;
                timers == old(timers) + [Timer(old(now), if left < interval then left else interval)]
      ensures Paced(old(timers), timers, interval, deadline)
      ensures error.None? ==> now > old(now) && sleeps == old(sleeps) + 1
      ensures error.None? ==> now >= old(now) + interval || (deadline.Some? && now >= deadline.value)
      ensures error.Some? ==> sleeps == old(sleeps) && GaveUp(error.value, deadline)
    {
      var d := interval;
      if deadline.Some? {
        var remaining := deadline.value - now;
        if remaining < d {
          d := remaining;
          if d <= 0 {
            return Some(DeadlineExceeded);
          }
        }
      }
      error := Sleep(d);
    }
  }

  /** computeDeadline: a positive maximum counts from now, otherwise the context's own deadline. */
  function ComputeDeadline(now: int, maxDuration: int, ctxDeadline: Option<int>): Option<int> {
    if maxDuration > 0 then Some(now + maxDuration) else ctxDeadline
  }

  function Interval(configured: int, default: int): int
    requires default > 0
  {
    if configured <= 0 then default else configured
  }

  /** How many sleeps of `interval` fit before the deadline: ceil(D / I), or none at all. */
  function MostSleeps(start: int, deadline: int, interval: int): nat
    requires interval > 0
  {
    if deadline <= start then 0
    else
      CeilBounds(deadline - start, interval);
      Ceil(deadline - start, interval)
  }

  /** It is the least number of intervals that reach the deadline. */
  lemma MostSleepsIsLeast(start: int, deadline: int, interval: int)
    requires interval > 0
    ensures var m := MostSleeps(start, deadline, interval);
            start + m * interval >= deadline && (m > 0 ==> start + (m - 1) * interval < deadline)
  {
    if deadline > start {
      CeilBounds(deadline - start, interval);
    }
  }

  /** After k sleeps the clock has come k intervals or reached the deadline. */
  predicate OnSchedule(start: int, now: int, deadline: Option<int>, interval: int, k: nat) {
    && now >= start
    && (now >= start + k * interval || (deadline.Some? && now >= deadline.value))
    && (deadline.Some? && k > 0 ==> start + (k - 1) * interval < deadline.value)
  }

  lemma OneMoreSleep(start: int, before: int, after: int, deadline: Option<int>, interval: int, k: nat)
    requires interval > 0 && OnSchedule(start, before, deadline, interval, k)
    requires deadline.Some? ==> before < deadline.value
    requires after >= before && (after >= before + interval || (deadline.Some? && after >= deadline.value))
    ensures OnSchedule(start, after, deadline, interval, k + 1)
  {
    assert (k + 1) * interval == k * interval + interval;
  }

  lemma ScheduleBounds(start: int, now: int, deadline: int, interval: int, k: nat)
    requires interval > 0 && OnSchedule(start, now, Some(deadline), interval, k)
    ensures k <= MostSleeps(start, deadline, interval)
  {
    if k > 0 {
      Scale(0, k - 1, interval);
      CeilBounds(deadline - start, interval);
      var c := Ceil(deadline - start, interval);
      if k > c {
        Scale(c, k - 1, interval);
      }
    }
  }

  /** The clock as a wait found it. */
  datatype Start = Start(now: int, timers: seq<Timer>, sleeps: nat)

  /** A wait that began at `start` has slept k times, on schedule, and set no other timers. */
  ghost predicate InStep(clock: Clock, start: Start, interval: int, deadline: Option<int>, k: nat)
    reads clock
  {
    && OnSchedule(start.now, clock.now, deadline, interval, k)
    && Paced(start.timers, clock.timers, interval, deadline)
    && clock.sleeps - start.sleeps == |clock.timers| - |start.timers| == k
  }

  lemma PacedThen(a: seq<Timer>, b: seq<Timer>, c: seq<Timer>, interval: int, deadline: Option<int>)
    requires Paced(a, b, interval, deadline) && Paced(b, c, interval, deadline)
    ensures Paced(a, c, interval, deadline)
  {
  }

  /** sleepUntil in such a wait. */
  method SleepAgain(clock: Clock, interval: int, deadline: Option<int>, ghost start: Start, ghost k: nat)
      returns (error: Option<Error>)
    requires interval > 0 && InStep(clock, start, interval, deadline, k)
    modifies clock
    ensures clock.now >= old(clock.now) && Paced(start.timers, clock.timers, interval, deadline)
    ensures error.None? ==> clock.sleeps == old(clock.sleeps) + 1 && InStep(clock, start, interval, deadline, k + 1)
    ensures error.None? && deadline.Some? ==> k + 1 <= MostSleeps(start.now, deadline.value, interval)
    ensures error.Some? ==> clock.sleeps == old(clock.sleeps) && clock.GaveUp(error.value, deadline)
    ensures error.Some? ==> k <= |clock.timers| - |start.timers| <= k + 1
  {
    ghost var before, timers := clock.now, clock.timers;
    error := clock.SleepUntil(interval, deadline);
    PacedThen(start.timers, timers, clock.timers, interval, deadline);
    if error.None? {
      OneMoreSleep(start.now, before, clock.now, deadline, interval, k);
      if deadline.Some? {
        ScheduleBounds(start.now, clock.now, deadline.value, interval, k + 1);
      }
    }
  }

  // ------------------------------------------------------------------ scans

  class ScanInspector {
    const answer: nat -> Result<Scan>   // what successive refreshes get
    const verdict: Scan -> Verdict      // Successful and Failed
    var scan: Scan
    ghost var refreshes: nat

    constructor (scan: Scan, answer: nat -> Result<Scan>, fold: string -> string)
      ensures this.scan == scan && this.answer == answer && refreshes == 0
      ensures forall s :: verdict(s) == VerdictOf(s, fold)
    {
      this.scan, this.answer, this.verdict := scan, answer, s => VerdictOf(s, fold);
      refreshes := 0;
    }

    /** The wait goes on after this answer. */
    predicate GoesOn(r: Result<Scan>) {
      r.Ok? && verdict(r.value).Open?
    }

    /** After k good refreshes the snapshot is the last of them, and everything before it, the first snapshot
        included, was still open. */
    ghost predicate Seen(first: Scan, k: nat)
      reads this
    {
      && (k > 0 ==> verdict(first).Open?)
      && (forall i: nat | i + 1 < k :: answer(i).Ok? && verdict(answer(i).value).Open?)
      && if k == 0 then scan == first else answer(k - 1) == Ok(scan)
    }

    /** A refresh replaces the snapshot, or fails and leaves it. */
    method Refresh(i: nat) returns (error: Option<Error>)
      requires i == refreshes
      modifies this
      ensures refreshes == old(refreshes) + 1
      ensures match answer(i)
              case Ok(s) => error.None? && scan == s
              case Err(e) => error == Some(e) && scan == old(scan)
    {
      refreshes := refreshes + 1;
      match answer(i)
      case Ok(s) => scan := s; return None;
      case Err(e) => return Some(e);
    }
  }

  /** What a wait for a scan comes to: the failed refresh, or the verdict on the last snapshot. */
  ghost predicate Concluded(insp: ScanInspector, first: Scan, clock: Clock, deadline: Option<int>,
                            suppressFailure: bool, error: Option<Error>)
    reads insp, clock
  {
    var r := insp.refreshes;
    if r > 0 && insp.answer(r - 1).Err? then
      && insp.Seen(first, r - 1) && insp.verdict(insp.scan).Open?
      && error == Some(insp.answer(r - 1).error)
    else
      && insp.Seen(first, r)
      && match insp.verdict(insp.scan)
         case Good => error == None
         case Bad =>
           error == if suppressFailure then None else Some(ScanError(insp.scan.id, StateMessage(insp.scan)))
         case Open => error.Some? && clock.GaveUp(error.value, deadline)
  }

  /** WaitUntilComplete.  `horizon` is only needed without a deadline: the platform's answer that ends
      the wait at the latest. */
  method WaitUntilComplete(insp: ScanInspector, clock: Clock, pollInterval: int, maxDuration: int,
                           ctxDeadline: Option<int>, suppressFailure: bool, ghost horizon: nat)
      returns (error: Option<Error>)
    requires insp.refreshes == 0
    requires maxDuration <= 0 && ctxDeadline.None? ==> !insp.GoesOn(insp.answer(horizon))
    modifies insp, clock
    ensures var interval := if pollInterval > 0 then pollInterval else 10_000_000_000;
            var deadline := if maxDuration > 0 then Some(old(clock.now) + maxDuration) else ctxDeadline;
            && Concluded(insp, old(insp.scan), clock, deadline, suppressFailure, error)
            && (error.None? ==> insp.verdict(insp.scan).Good? || (insp.verdict(insp.scan).Bad? && suppressFailure))
            && (insp.refreshes > 0 ==> insp.verdict(old(insp.scan)).Open?)
            && (forall i: nat | i + 1 < insp.refreshes ::
                  insp.answer(i).Ok? && insp.verdict(insp.answer(i).value).Open?)
            && Paced(old(clock.timers), clock.timers, interval, deadline)
            && insp.refreshes == clock.sleeps - old(clock.sleeps)
            && 0 <= |clock.timers| - |old(clock.timers)| - insp.refreshes <= 1
            && (deadline.Some? ==> insp.refreshes <= MostSleeps(old(clock.now), deadline.value, interval))
  {
    var interval := Interval(pollInterval, 10_000_000_000);
    var deadline := ComputeDeadline(clock.now, maxDuration, ctxDeadline);
    error := PollScan(insp, clock, interval, deadline, suppressFailure, horizon);
  }

  /** Its loop. */
  method PollScan(insp: ScanInspector, clock: Clock, interval: int, deadline: Option<int>, suppressFailure: bool,
                  ghost horizon: nat)
      returns (error: Option<Error>)
    requires insp.refreshes == 0 && interval > 0
    requires deadline.None? ==> !insp.GoesOn(insp.answer(horizon))
    modifies insp, clock
    ensures Concluded(insp, old(insp.scan), clock, deadline, suppressFailure, error)
    ensures Paced(old(clock.timers), clock.timers, interval, deadline)
    ensures insp.refreshes == clock.sleeps - old(clock.sleeps)
    ensures 0 <= |clock.timers| - |old(clock.timers)| - insp.refreshes <= 1
    ensures deadline.Some? ==> insp.refreshes <= MostSleeps(old(clock.now), deadline.value, interval)
  {
    ghost var most := if deadline.Some? then MostSleeps(clock.now, deadline.value, interval) else horizon + 1;
    ghost var start := Start(clock.now, clock.timers, clock.sleeps);
    var k: nat := 0;
    while true
      invariant insp.refreshes == k && InStep(clock, start, interval, deadline, k)
      invariant insp.Seen(old(insp.scan), k)
      invariant k <= most
      decreases most - k
    {
      if insp.verdict(insp.scan).Good? {
        return None;
      }
      if insp.verdict(insp.scan).Bad? {
        if suppressFailure {
          return None;
        }
        return Some(ScanError(insp.scan.id, StateMessage(insp.scan)));
      }
      var err := SleepAgain(clock, interval, deadline, start, k);
      if err.Some? {
        return err;
      }
      clock.Pass();
      err := insp.Refresh(k);
      if err.Some? {
        return err;
      }
      k := k + 1;
    }
  }

  // ------------------------------------------------------------------ reports

  datatype Polled = Polled(status: string, url: string)

  class Handle {
    const format: string                 // "JSON", "PDF", or anything else
    const reportId: string
    const answer: nat -> Result<Polled>
    var lastStatus: string
    var lastURL: string
    ghost var polls: nat

    constructor (format: string, reportId: string, answer: nat -> Result<Polled>)
      ensures this.format == format && this.reportId == reportId && this.answer == answer
      ensures lastStatus == lastURL == "" && polls == 0
    {
      this.format, this.reportId, this.answer := format, reportId, answer;
      lastStatus, lastURL, polls := "", "", 0;
    }

    predicate KnownFormat() {
      format == "JSON" || format == "PDF"
    }

    method Poll(i: nat) returns (error: Option<Error>)
      requires i == polls
      modifies this
      ensures !KnownFormat() ==> error == Some(ConfigurationError("format")) && unchanged(this)
      ensures KnownFormat() ==> polls == old(polls) + 1
      ensures KnownFormat() ==>
                match answer(i)
                case Ok(p) => error.None? && lastStatus == p.status && lastURL == p.url
                case Err(e) => error == Some(e) && lastStatus == old(lastStatus) && lastURL == old(lastURL)
    {
      if !KnownFormat() {
        return Some(ConfigurationError("format"));
      }
      polls := polls + 1;
      match answer(i)
      case Ok(p) => lastStatus, lastURL := p.status, p.url; return None;
      case Err(e) => return Some(e);
    }

    /** The wait goes on after this poll. */
    predicate GoesOn(r: Result<Polled>) {
      r.Ok? && r.value.status != "completed" && r.value.status != "failed"
    }

    /** Wait: the last poll decides, every earlier one was good and undecided. */
    method Wait(clock: Clock, pollInterval: int, maxDuration: int, ctxDeadline: Option<int>, ghost horizon: nat)
        returns (error: Option<Error>)
      requires polls == 0
      requires maxDuration <= 0 && ctxDeadline.None? ==> !GoesOn(answer(horizon))
      modifies this, clock
      ensures !KnownFormat() ==> error == Some(ConfigurationError("format")) && polls == 0
      ensures KnownFormat() ==>
                && polls > 0
                && (forall i: nat | i + 1 < polls ::
                      answer(i).Ok? && answer(i).value.status != "completed" && answer(i).value.status != "failed")
                && match answer(polls - 1)
                   case Err(e) => error == Some(e)
                   case Ok(p) =>
                     && lastStatus == p.status && lastURL == p.url
                     && (p.status == "completed" ==> error == None)
                     && (p.status == "failed" ==> error == Some(ReportError(reportId)))
                     && (p.status != "completed" && p.status != "failed" ==>
                           var deadline := if maxDuration > 0 then Some(old(clock.now) + maxDuration) else ctxDeadline;
                           error.Some? && clock.GaveUp(error.value, deadline))
      ensures var interval := if pollInterval > 0 then pollInterval else 5_000_000_000;
              var deadline := if maxDuration > 0 then Some(old(clock.now) + maxDuration) else ctxDeadline;
              && Paced(old(clock.timers), clock.timers, interval, deadline)
              && (KnownFormat() ==> polls == clock.sleeps - old(clock.sleeps) + 1)
              && 0 <= |clock.timers| - |old(clock.timers)| - (clock.sleeps - old(clock.sleeps)) <= 1
              && (deadline.Some? ==> polls <= MostSleeps(old(clock.now), deadline.value, interval) + 1)
    {
      var interval := Interval(pollInterval, 5_000_000_000);
      var deadline := ComputeDeadline(clock.now, maxDuration, ctxDeadline);
      ghost var most := if deadline.Some? then MostSleeps(clock.now, deadline.value, interval) else horizon;
      ghost var start := Start(clock.now, clock.timers, clock.sleeps);
      var k: nat := 0;
      while true
        invariant polls == k && InStep(clock, start, interval, deadline, k) && (k > 0 ==> KnownFormat())
        invariant forall i: nat | i < k :: GoesOn(answer(i))
        invariant k <= most
        decreases most - k
      {
        var err := Poll(k);
        clock.Pass();
        if err.Some? {
          return err;
        }
        if lastStatus == "completed" {
          return None;
        }
        if lastStatus == "failed" {
          return Some(ReportError(reportId));
        }
        assert GoesOn(answer(k));
        err := SleepAgain(clock, interval, deadline, start, k);
        if err.Some? {
          return err;
        }
        k := k + 1;
      }
    }
  }

  // ------------------------------------------------------------------ audit requests

  datatype Request = Request(status: string, completed: bool, errorCode: int, errorMessage: string, value: string)

  predicate Undecided(r: Result<Request>) {
    && r.Ok? && !(r.value.errorCode != 0 && r.value.errorMessage != "")
    && r.value.status != "Failed" && !r.value.completed
  }

  class Session {
    const answer: nat -> Result<Request>
    ghost var polls: nat
    ghost var keepAlives: nat

    constructor (answer: nat -> Result<Request>)
      ensures this.answer == answer && polls == 0 && keepAlives == 0
    {
      this.answer := answer;
      polls, keepAlives := 0, 0;
    }

    method PollRequest(i: nat) returns (r: Result<Request>)
      requires i == polls
      modifies `polls
      ensures polls == old(polls) + 1 && r == answer(i)
    {
      polls := polls + 1;
      return answer(i);
    }

    /** Its error is ignored. */
    method KeepAlive()
      modifies `keepAlives
      ensures keepAlives == old(keepAlives) + 1
    {
      keepAlives := keepAlives + 1;
    }
  }

  /** WaitForRequest: a heartbeat after every second completed sleep, and not one more. */
  method WaitForRequest(session: Session, clock: Clock, requestId: string, pollInterval: int, maxDuration: int,
                        ctxDeadline: Option<int>, ghost horizon: nat)
      returns (r: Result<string>, value: Option<string>)
    requires session.polls == 0 && session.keepAlives == 0 && clock.sleeps == 0
    requires maxDuration <= 0 && ctxDeadline.None? ==> !Undecided(session.answer(horizon))
    modifies session, clock
    ensures requestId == "" ==> r == Err(Untyped("requestID is required", "")) && session.polls == 0
    ensures session.keepAlives == clock.sleeps / 2
    ensures requestId != "" ==>
              && session.polls == clock.sleeps + 1
              && (forall i: nat | i + 1 < session.polls ::
                    match session.answer(i)
                    case Err(_) => false
                    case Ok(s) => (s.errorCode == 0 || s.errorMessage == "") && s.status != "Failed" && !s.completed)
              && match session.answer(session.polls - 1)
                 case Err(e) => r == Err(e)
                 case Ok(s) =>
                   if s.errorCode != 0 && s.errorMessage != ""
                   then r == Err(Untyped(s.errorMessage, requestId)) && value == Some(s.value)
                   else if s.status == "Failed" then r == Err(Untyped("failed", requestId)) && value == Some(s.value)
                   else if s.completed then r == Ok(s.value) && value == Some(s.value)
                   else
                     var deadline := if maxDuration > 0 then Some(old(clock.now) + maxDuration) else ctxDeadline;
                     r.Err? && value.None? && clock.GaveUp(r.error, deadline)
    ensures var interval := if pollInterval > 0 then pollInterval else 5_000_000_000;
            var deadline := if maxDuration > 0 then Some(old(clock.now) + maxDuration) else ctxDeadline;
            && Paced(old(clock.timers), clock.timers, interval, deadline)
            && 0 <= |clock.timers| - |old(clock.timers)| - clock.sleeps <= 1
            && (deadline.Some? ==> session.polls <= MostSleeps(old(clock.now), deadline.value, interval) + 1)
  {
    if requestId == "" {
      return Err(Untyped("requestID is required", "")), None;
    }
    var interval := Interval(pollInterval, 5_000_000_000);
    var deadline := ComputeDeadline(clock.now, maxDuration, ctxDeadline);
    ghost var most := if deadline.Some? then MostSleeps(clock.now, deadline.value, interval) else horizon;
    ghost var start := Start(clock.now, clock.timers, clock.sleeps);
    var keepAliveCounter: nat := 0;
    while true
      invariant session.polls == keepAliveCounter && InStep(clock, start, interval, deadline, keepAliveCounter)
      invariant session.keepAlives == keepAliveCounter / 2
      invariant forall i: nat | i < keepAliveCounter :: Undecided(session.answer(i))
      invariant keepAliveCounter <= most
      decreases most - keepAliveCounter
    {
      var polled := session.PollRequest(keepAliveCounter);
      clock.Pass();
      if polled.Err? {
        return Err(polled.error), None;
      }
      var status := polled.value;
      if status.errorCode != 0 && status.errorMessage != "" {
        return Err(Untyped(status.errorMessage, requestId)), Some(status.value);
      }
      if status.status == "Failed" {
        return Err(Untyped("failed", requestId)), Some(status.value);
      }
      if status.completed {
        return Ok(status.value), Some(status.value);
      }
      var err := SleepAgain(clock, interval, deadline, start, keepAliveCounter);
      if err.Some? {
        return Err(err.value), None;
      }
      keepAliveCounter := keepAliveCounter + 1;
      if keepAliveCounter % 2 == 0 {
        session.KeepAlive();
        clock.Pass();
      }
    }
  }
}
