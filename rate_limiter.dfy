/** The sliding-window request limiter the front end wraps around every call to
    the data service (`RateLimiter` in src/Helpers/DataHelpers.ts).

    The clock is an explicit `now` argument, and the cooldown timer's callback is
    the method `CooldownExpired`. The fatal error the limiter dispatches while it is
    timed out is the flag carried by `RejectedTimedOut`. */
module RateLimiting {
  import opened Common
  import opened Seqs

  /** The timer length used when the caller gives none, in milliseconds. */
  const DefaultTimeoutDuration: int := 5000

  /** What one call of `makeRequest` does with the request. */
  datatype Outcome =
    | Accepted                              // timestamp recorded; the request function runs
    | RejectedOverflow                      // window full: the call throws and starts the cooldown
    | RejectedTimedOut(fatalReported: bool) // cooling down: a fatal error is dispatched, the promise rejects

  datatype Config = Config(maxRequests: int, timeWindow: int, timeoutDuration: int)

  /** The limiter's mutable part, as a value. */
  datatype LimiterState = LimiterState(timestamps: seq<int>, timedOut: bool)

  const Fresh := LimiterState([], false)

  /** The timestamps a cleanup at `now` keeps: those strictly younger than the window. */
  predicate InWindow(now: int, window: int, t: int) {
    now - t < window
  }

  function Survivors(ts: seq<int>, now: int, window: int): (r: seq<int>)
    // exactly the young timestamps, each as often as in `ts`, in their original order
    ensures r == Filter(ts, (t: int) => InWindow(now, window, t))
    ensures forall i :: 0 <= i < |r| ==> InWindow(now, window, r[i])
    ensures forall i :: 0 <= i < |ts| && InWindow(now, window, ts[i]) ==> ts[i] in r
    ensures IsSubsequence(r, ts)
    ensures |r| <= |ts|
  {
    if ts == [] then []
    else
      var rest := Survivors(ts[1..], now, window);
      if InWindow(now, window, ts[0]) then
        assert ([ts[0]] + rest)[1..] == rest;
        [ts[0]] + rest
      else
        SubsequenceSkip(rest, ts);
        rest
  }

  /** A cleanup that finds nothing old changes nothing. */
  lemma {:induction false} SurvivorsAll(ts: seq<int>, now: int, window: int)
    requires forall i :: 0 <= i < |ts| ==> InWindow(now, window, ts[i])
    ensures Survivors(ts, now, window) == ts
  {
    if ts != [] {
      SurvivorsAll(ts[1..], now, window);
    }
  }

  /** The list bound the limiter keeps: never more timestamps than requests allowed. */
  predicate Bounded(cfg: Config, st: LimiterState) {
    |st.timestamps| <= Max(cfg.maxRequests, 0)
  }

  /** One call of `makeRequest` at time `now`, on values. */
  function Admit(cfg: Config, st: LimiterState, now: int): (r: (LimiterState, Outcome))
    // while cooling down: rejected with the fatal report, and no bookkeeping at all
    ensures r.1.RejectedTimedOut? <==> st.timedOut
    ensures st.timedOut ==> r == (st, RejectedTimedOut(true))
    // a full window: the call starts the cooldown and records nothing
    // admitted iff fewer than `maxRequests` timestamps survive the cleanup
    ensures !st.timedOut ==>
              (r.1 == Accepted <==> |Survivors(st.timestamps, now, cfg.timeWindow)| < cfg.maxRequests)
    ensures r.1 == RejectedOverflow ==>
              r.0 == LimiterState(Survivors(st.timestamps, now, cfg.timeWindow), true)
    ensures r.1 == RejectedOverflow ==>
              r.0.timedOut && |r.0.timestamps| >= cfg.maxRequests && IsSubsequence(r.0.timestamps, st.timestamps)
    ensures r.1 == Accepted ==>
              r.0 == LimiterState(Survivors(st.timestamps, now, cfg.timeWindow) + [now], false)
    // an accepted call: `now` is appended after the surviving, younger timestamps
    ensures r.1 == Accepted ==>
              !r.0.timedOut && 0 < |r.0.timestamps| <= cfg.maxRequests &&
              r.0.timestamps[|r.0.timestamps| - 1] == now &&
              IsSubsequence(r.0.timestamps[..|r.0.timestamps| - 1], st.timestamps)
  {
    if st.timedOut then (st, RejectedTimedOut(true))
    else
      var kept := Survivors(st.timestamps, now, cfg.timeWindow);
      if |kept| >= cfg.maxRequests then (LimiterState(kept, true), RejectedOverflow)
      else
        assert (kept + [now])[..|kept|] == kept;
        (LimiterState(kept + [now], false), Accepted)
  }

  /** The timer callback: the only way out of the cooldown. */
  function Expire(st: LimiterState): (r: LimiterState)
    ensures !r.timedOut && r.timestamps == []
  {
    LimiterState([], false)
  }

  /** `Admit` never lets the list grow past `maxRequests`. */
  lemma AdmitKeepsBound(cfg: Config, st: LimiterState, now: int)
    requires Bounded(cfg, st)
    ensures Bounded(cfg, Admit(cfg, st, now).0)
  {
  }

  /** A cooling-down limiter stays cooling down, whatever the calls, until `Expire`. */
  lemma {:induction false} TimedOutIsSticky(cfg: Config, st: LimiterState, times: seq<int>)
    requires st.timedOut
    ensures Replay(cfg, st, times).0 == st
    ensures forall i :: 0 <= i < |times| ==> Replay(cfg, st, times).1[i] == RejectedTimedOut(true)
  {
    if times != [] {
      TimedOutIsSticky(cfg, st, times[..|times| - 1]);
    }
  }

  /** The state and outcomes after the calls made at `times`, in order. */
  function Replay(cfg: Config, st: LimiterState, times: seq<int>): (r: (LimiterState, seq<Outcome>))
    ensures |r.1| == |times|
  {
    if times == [] then (st, [])
    else
      var prev := Replay(cfg, st, times[..|times| - 1]);
      var step := Admit(cfg, prev.0, times[|times| - 1]);
      (step.0, prev.1 + [step.1])
  }

  /** From a fresh limiter, `k <= maxRequests` calls at one instant are all accepted,
      and the list then holds that instant `k` times. */
  lemma {:induction false} BurstAccepted(cfg: Config, now: int, k: nat)
    requires cfg.timeWindow > 0 && k <= cfg.maxRequests
    ensures Replay(cfg, Fresh, Repeat(now, k)) == (LimiterState(Repeat(now, k), false), Repeat(Accepted, k))
  {
    if k > 0 {
      var times := Repeat(now, k);
      var before := Repeat(now, k - 1);
      assert times[..k - 1] == before;
      BurstAccepted(cfg, now, k - 1);
      SurvivorsAll(before, now, cfg.timeWindow);
      assert Admit(cfg, LimiterState(before, false), now) == (LimiterState(times, false), Accepted);
    }
  }

  /** ... and the next call at that instant overflows and starts the cooldown. */
  lemma BurstThenOverflow(cfg: Config, now: int)
    requires cfg.timeWindow > 0 && cfg.maxRequests >= 0
    ensures Admit(cfg, Replay(cfg, Fresh, Repeat(now, cfg.maxRequests)).0, now)
            == (LimiterState(Repeat(now, cfg.maxRequests), true), RejectedOverflow)
  {
    BurstAccepted(cfg, now, cfg.maxRequests);
    SurvivorsAll(Repeat(now, cfg.maxRequests), now, cfg.timeWindow);
  }

  /** Timestamps that have left the window do not count against the limit: with all of
      them expired, the call is accepted and the list restarts at `now`. */
  lemma ExpiredFreeTheWindow(cfg: Config, st: LimiterState, now: int)
    requires !st.timedOut && cfg.maxRequests > 0
    requires forall i :: 0 <= i < |st.timestamps| ==> !InWindow(now, cfg.timeWindow, st.timestamps[i])
    ensures Admit(cfg, st, now) == (LimiterState([now], false), Accepted)
  {
    FilterNone(st.timestamps, (t: int) => InWindow(now, cfg.timeWindow, t));
  }

  /** Cleanup is strict: a timestamp exactly one window old is evicted. */
  lemma BoundaryEvicted(ts: seq<int>, now: int, window: int)
    ensures forall i :: 0 <= i < |Survivors(ts, now, window)| ==>
              Survivors(ts, now, window)[i] != now - window
  {
  }

  /** The limiter object. `requestTimestamps` and `isTimedOut` are the fields the
      source reassigns; `dispatch` is replaced by the outcome's fatal-report flag. */
  class RateLimiter {
    const maxRequests: int
    const timeWindow: int
    const timeoutDuration: int
    var requestTimestamps: seq<int>
    var isTimedOut: bool

    function Cfg(): Config {
      Config(maxRequests, timeWindow, timeoutDuration)
    }

    function State(): LimiterState
      reads this
    {
      LimiterState(requestTimestamps, isTimedOut)
    }

    predicate Valid()
      reads this
    {
      Bounded(Cfg(), State())
    }

    constructor (maxRequests: int, timeWindow: int, timeoutDuration: int)
      ensures Valid() && State() == Fresh
      ensures Cfg() == Config(maxRequests, timeWindow, timeoutDuration)
    {
      this.maxRequests := maxRequests;
      this.timeWindow := timeWindow;
      this.timeoutDuration := timeoutDuration;
      requestTimestamps := [];
      isTimedOut := false;
    }

    /** `new RateLimiter(max, window)`: the timeout falls back to 5000 ms. */
    constructor WithDefaultTimeout(maxRequests: int, timeWindow: int)
      ensures Valid() && State() == Fresh
      ensures Cfg() == Config(maxRequests, timeWindow, DefaultTimeoutDuration)
    {
      this.maxRequests := maxRequests;
      this.timeWindow := timeWindow;
      this.timeoutDuration := DefaultTimeoutDuration;
      requestTimestamps := [];
      isTimedOut := false;
    }

    method CleanupOldRequests(now: int)
      requires Valid()
      modifies this
      ensures Valid()
      ensures requestTimestamps == Survivors(old(requestTimestamps), now, timeWindow)
      ensures isTimedOut == old(isTimedOut)
    {
      requestTimestamps := Survivors(requestTimestamps, now, timeWindow);
    }

    method MakeRequest(now: int) returns (outcome: Outcome)
      requires Valid()
      modifies this
      ensures Valid()
      ensures (State(), outcome) == Admit(Cfg(), old(State()), now)
    {
      if isTimedOut {
        return RejectedTimedOut(true);
      }
      CleanupOldRequests(now);
      if |requestTimestamps| >= maxRequests {
        isTimedOut := true;
        return RejectedOverflow;
      }
      requestTimestamps := requestTimestamps + [now];
      outcome := Accepted;
    }

    /** The cooldown timer firing `timeoutDuration` after an overflow. */
    method CooldownExpired()
      modifies this
      ensures Valid()
      ensures State() == Expire(old(State()))
    {
      isTimedOut := false;
      requestTimestamps := [];
    }
  }
}
