/** The primary backend's quota bookkeeping: a per-minute and a per-day
    request counter, each reset lazily once its window has elapsed, and an
    optional cool-down that overrides both. Time is an integer clock in
    seconds, passed in by the caller. */
module RateLimit {
  import opened Optional

  const MinuteWindow: int := 60
  const DayWindow: int := 86400
  /** Ceilings kept below the provider's advertised 5 per minute and 250 per day. */
  const MinuteCeiling: nat := 4
  const DayCeiling: nat := 240
  /** Length of the cool-down after a quota error. */
  const CooldownSeconds: int := 60

  /** The tracker's fields as a value. */
  datatype RateView = RateView(
    requestsThisMinute: nat,
    requestsToday: nat,
    minuteReset: int,
    dayReset: int,
    blockedUntil: Option<int>)

  /** The state of a tracker created at time `now`. */
  function Initial(now: int): RateView {
    RateView(0, 0, now, now, None)
  }

  predicate CoolingDown(r: RateView, now: int) {
    r.blockedUntil.Some? && now < r.blockedUntil.value
  }

  /** The lazy window resets: each counter restarts only when strictly more
      than its window has passed since its last reset. */
  function ResetWindows(r: RateView, now: int): (w: RateView)
    ensures w.blockedUntil == r.blockedUntil
    ensures now - r.minuteReset > MinuteWindow ==> w.requestsThisMinute == 0 && w.minuteReset == now
    ensures now - r.minuteReset <= MinuteWindow ==> w.requestsThisMinute == r.requestsThisMinute && w.minuteReset == r.minuteReset
    ensures now - r.dayReset > DayWindow ==> w.requestsToday == 0 && w.dayReset == now
    ensures now - r.dayReset <= DayWindow ==> w.requestsToday == r.requestsToday && w.dayReset == r.dayReset
  {
    var m := if now - r.minuteReset > MinuteWindow then r.(requestsThisMinute := 0, minuteReset := now) else r;
    if now - m.dayReset > DayWindow then m.(requestsToday := 0, dayReset := now) else m
  }

  /** What one `can_use_gemini()` call answers and the state it leaves. */
  datatype Check = Check(permitted: bool, after: RateView)

  function CanUse(r: RateView, now: int): (c: Check)
    ensures CoolingDown(r, now) ==> !c.permitted && c.after == r
    ensures !CoolingDown(r, now) ==> c.after == ResetWindows(r, now)
    ensures c.permitted <==> !CoolingDown(r, now)
                             && c.after.requestsThisMinute < MinuteCeiling
                             && c.after.requestsToday < DayCeiling
  {
    if CoolingDown(r, now) then Check(false, r)
    else
      var w := ResetWindows(r, now);
      Check(w.requestsThisMinute < MinuteCeiling && w.requestsToday < DayCeiling, w)
  }

  /** `record_request()`: one more request in both windows, nothing else changes. */
  function Recorded(r: RateView): (w: RateView)
    ensures w.requestsThisMinute == r.requestsThisMinute + 1 && w.requestsToday == r.requestsToday + 1
    ensures w.(requestsThisMinute := r.requestsThisMinute, requestsToday := r.requestsToday) == r
  {
    r.(requestsThisMinute := r.requestsThisMinute + 1, requestsToday := r.requestsToday + 1)
  }

  /** `block(seconds)` at time `now`. */
  function Blocked(r: RateView, now: int, seconds: int): (w: RateView)
    ensures seconds > 0 ==> CoolingDown(w, now) && CoolingDown(w, now + seconds - 1)
    ensures !CoolingDown(w, now + seconds)
    ensures w.(blockedUntil := r.blockedUntil) == r
  {
    r.(blockedUntil := Some(now + seconds))
  }

  /** `n` successive `record_request()` calls. */
  function RecordedTimes(r: RateView, n: nat): RateView
    decreases n
  {
    if n == 0 then r else Recorded(RecordedTimes(r, n - 1))
  }

  class RateLimitTracker {
    var requestsThisMinute: nat
    var requestsToday: nat
    var minuteReset: int
    var dayReset: int
    var blockedUntil: Option<int>

    function View(): RateView
      reads this
    {
      RateView(requestsThisMinute, requestsToday, minuteReset, dayReset, blockedUntil)
    }

    constructor (now: int)
      ensures View() == Initial(now)
    {
      requestsThisMinute := 0;
      requestsToday := 0;
      minuteReset := now;
      dayReset := now;
      blockedUntil := None;
    }

    method CanUseGemini(now: int) returns (ok: bool)
      modifies this
      ensures Check(ok, View()) == CanUse(old(View()), now)
    {
      if blockedUntil.Some? && now < blockedUntil.value {
        return false;
      }
      if now - minuteReset > MinuteWindow {
        requestsThisMinute := 0;
        minuteReset := now;
      }
      if now - dayReset > DayWindow {
        requestsToday := 0;
        dayReset := now;
      }
      ok := requestsThisMinute < MinuteCeiling && requestsToday < DayCeiling;
    }

    method RecordRequest()
      modifies this
      ensures View() == Recorded(old(View()))
    {
      requestsThisMinute := requestsThisMinute + 1;
      requestsToday := requestsToday + 1;
    }

    method Block(now: int, seconds: int)
      modifies this
      ensures View() == Blocked(old(View()), now, seconds)
    {
      blockedUntil := Some(now + seconds);
    }
  }

  // ---------------------------------------------------------------------------
  // Properties

  /** While a cool-down runs, the answer is "no" and no counter is reset,
      whatever the counters say. */
  lemma CooldownOverridesCounters(r: RateView, now: int, seconds: int, later: int)
    requires later < now + seconds
    ensures !CanUse(Blocked(r, now, seconds), later).permitted
    ensures CanUse(Blocked(r, now, seconds), later).after == Blocked(r, now, seconds)
  {
  }

  /** Asking twice at the same instant gives the same answer and leaves the
      same state: the lazy resets are idempotent. */
  lemma CanUseIdempotent(r: RateView, now: int)
    ensures CanUse(CanUse(r, now).after, now) == CanUse(r, now)
  {
  }

  /** `n` records add exactly `n` to both counters and change nothing else. */
  lemma {:induction false} RecordedTimesCounts(r: RateView, n: nat)
    ensures RecordedTimes(r, n)
         == r.(requestsThisMinute := r.requestsThisMinute + n, requestsToday := r.requestsToday + n)
  {
    if n > 0 {
      RecordedTimesCounts(r, n - 1);
    }
  }

  /** From a fresh tracker, four records exhaust the minute: every check up to
      a minute later is refused. */
  lemma MinuteCeilingReached(start: int, n: nat, now: int)
    requires n >= MinuteCeiling
    requires now - start <= MinuteWindow
    ensures !CanUse(RecordedTimes(Initial(start), n), now).permitted
  {
  }

  /** Once the minute has elapsed, the same tracker permits again without any
      further record, as long as the day's ceiling is not reached. */
  lemma MinuteWindowRecovers(start: int, n: nat, now: int)
    requires n < DayCeiling
    requires now - start > MinuteWindow
    ensures CanUse(RecordedTimes(Initial(start), n), now).permitted
    ensures CanUse(RecordedTimes(Initial(start), n), now).after.requestsThisMinute == 0
  {
    RecordedTimesCounts(Initial(start), n);
  }
}
