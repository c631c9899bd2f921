/**
 * The autonomous browsing session of the content script as a pure state
 * machine: the shared `autoBrowsing` flag with `browseStartTime`,
 * `browseDuration` and `autoBrowseTimeout`, started by `startAutoBrowse` or
 * `startHomeFeedBrowse` and stopped by `stopAutoBrowse`.
 *
 * One iteration of `browseLoop`/`homeFeedBrowseLoop` runs in three parts.
 * Its synchronous prefix (`Begin`) checks the flag and the expiry and draws
 * the action. Once that action settles, `AfterAction` checks the flag again
 * and goes on to the extra `scrollMainPage` only while it is up. Once that
 * scroll settles, `AfterExtraScroll` schedules the next iteration without a
 * further check. Each continuation runs against whatever the state is by
 * then; an action that never settles simply has no continuation. The clock
 * and `Math.random()` are parameters.
 */
module Session {
  import opened Wrappers
  import opened Pacing

  /** Which loop runs: `browseLoop` (any listing) or `homeFeedBrowseLoop`. */
  datatype Variant = General | HomeFeed

  /** The page action an iteration awaits before its extra `scrollMainPage`. */
  datatype Action = VisitPost | ScrollListing

  /**
   * The last `setTimeout` handle the loop armed, with its delay. As with
   * `autoBrowseTimeout`, the handle stays after the timer has fired.
   */
  datatype Timer = Timer(loop: Variant, delay: int)

  /** How the awaited page actions of an iteration settled. */
  datatype Outcome = Completed | Threw

  /**
   * The four module-level variables; `duration` is `None` when
   * `durationMinutes * 60 * 1000` is `NaN`.
   */
  datatype State = State(browsing: bool, startTime: int, duration: Option<int>, timer: Option<Timer>)

  /** Before any start: the flag is false and no timer exists. */
  const Initial: State := State(false, 0, None, None)

  /** The draw below which an iteration visits a post: 70 %, or 80 % on the home feed. */
  function Threshold(v: Variant): real {
    match v
    case General => 0.7
    case HomeFeed => 0.8
  }

  function ChooseAction(v: Variant, r: real): Action {
    if r < Threshold(v) then VisitPost else ScrollListing
  }

  /** A draw that visits a post on the general loop also does so on the home feed. */
  lemma HomeFeedVisitsMore(r: real)
    ensures ChooseAction(General, r) == VisitPost ==> ChooseAction(HomeFeed, r) == VisitPost
    ensures 0.7 <= r < 0.8 ==> ChooseAction(General, r) == ScrollListing && ChooseAction(HomeFeed, r) == VisitPost
  {
  }

  /** `durationMinutes * 60 * 1000`, with `NaN` staying `NaN`. */
  function DurationMs(minutes: Option<int>): (ms: Option<int>)
    ensures ms.None? <==> minutes.None?
    ensures minutes.Some? ==> ms.value == minutes.value * 60000
  {
    match minutes
    case None => None
    case Some(m) => Some(m * 60 * 1000)
  }

  /** `Date.now() - browseStartTime >= browseDuration`; a comparison with `NaN` is false. */
  predicate Expired(s: State, now: int) {
    s.duration.Some? && now - s.startTime >= s.duration.value
  }

  /** `stopAutoBrowse`: the flag goes down and a pending timer is cleared. */
  function Stop(s: State): (r: State)
    ensures !r.browsing && r.timer.None?
    ensures r.startTime == s.startTime && r.duration == s.duration
  {
    s.(browsing := false, timer := None)
  }

  /**
   * The synchronous prefix of one loop iteration at time `now`: nothing
   * while the flag is down, a stop once the duration has elapsed, and
   * otherwise the chosen action with the state untouched.
   */
  function Begin(s: State, v: Variant, now: int, actionDraw: real): (r: (State, Option<Action>))
    ensures !s.browsing ==> r == (s, None)
    ensures s.browsing && Expired(s, now) ==> r == (Stop(s), None)
    ensures s.browsing && !Expired(s, now) ==> r == (s, Some(ChooseAction(v, actionDraw)))
    ensures r.1.Some? <==> s.browsing && !Expired(s, now)
  {
    if !s.browsing then (s, None)
    else if Expired(s, now) then (Stop(s), None)
    else (s, Some(ChooseAction(v, actionDraw)))
  }

  /** The loop's `setTimeout` for the variant, armed with a delay drawn from [lo, hi]. */
  function Rearm(s: State, v: Variant, lo: int, hi: int, pauseDraw: real): (r: State)
    requires lo <= hi && IsDraw(pauseDraw)
    ensures r.browsing == s.browsing && r.startTime == s.startTime && r.duration == s.duration
    ensures r.timer.Some? && r.timer.value.loop == v && lo <= r.timer.value.delay <= hi
    ensures r.timer.value.delay == RandomDelay(lo, hi, pauseDraw)
  {
    s.(timer := Some(Timer(v, RandomDelay(lo, hi, pauseDraw))))
  }

  /**
   * The continuation once the iteration's first action settled, on the state
   * at that time. A completed action leads on to the extra scroll (`r.1`)
   * exactly when the flag is still up, and returns quietly otherwise; either
   * way nothing changes yet. The `catch` branch re-arms the timer for 2–5 s
   * without looking at the flag.
   */
  function AfterAction(s: State, v: Variant, outcome: Outcome, pauseDraw: real): (r: (State, bool))
    requires IsDraw(pauseDraw)
    ensures r.0.browsing == s.browsing && r.0.startTime == s.startTime && r.0.duration == s.duration
    ensures r.1 <==> outcome == Completed && s.browsing
    ensures outcome == Completed ==> r.0 == s
    ensures outcome == Threw ==>
      r.0.timer.Some? && r.0.timer.value.loop == v && 2000 <= r.0.timer.value.delay <= 5000
  {
    match outcome
    case Completed => (s, s.browsing)
    case Threw => (Rearm(s, v, 2000, 5000, pauseDraw), false)
  }

  /**
   * The continuation once the extra `scrollMainPage` settled: the timer is
   * re-armed for 1–3 s, or by the `catch` branch for 2–5 s, in both cases
   * with no second look at the flag.
   */
  function AfterExtraScroll(s: State, v: Variant, outcome: Outcome, pauseDraw: real): (r: State)
    requires IsDraw(pauseDraw)
    ensures r.browsing == s.browsing && r.startTime == s.startTime && r.duration == s.duration
    ensures r.timer.Some? && r.timer.value.loop == v
    ensures outcome == Completed ==> 1000 <= r.timer.value.delay <= 3000
    ensures outcome == Threw ==> 2000 <= r.timer.value.delay <= 5000
  {
    match outcome
    case Completed => Rearm(s, v, 1000, 3000, pauseDraw)
    case Threw => Rearm(s, v, 2000, 5000, pauseDraw)
  }

  /**
   * `startAutoBrowse`/`startHomeFeedBrowse`: refused while either loop runs;
   * otherwise records the start and the duration and runs the synchronous
   * prefix of the first iteration at once. The flag is returned as `r.1`.
   */
  function Start(s: State, v: Variant, minutes: Option<int>, now: int, actionDraw: real): (r: (State, bool, Option<Action>))
    ensures s.browsing ==> r == (s, false, None)
    ensures !s.browsing ==> r.1 && r.0.startTime == now && r.0.duration == DurationMs(minutes)
    ensures !s.browsing ==>
      (r.0.browsing <==> !(minutes.Some? && minutes.value <= 0)) && (r.2.Some? <==> r.0.browsing)
    ensures !s.browsing && r.0.browsing ==> r.0.timer == s.timer && r.2 == Some(ChooseAction(v, actionDraw))
    ensures !s.browsing && !r.0.browsing ==> r.0.timer.None?
  {
    if s.browsing then (s, false, None)
    else
      var started := s.(browsing := true, startTime := now, duration := DurationMs(minutes));
      var first := Begin(started, v, now, actionDraw);
      (first.0, true, first.1)
  }

  // ---------------------------------------------------------------------
  // Traces

  /**
   * What can happen to the session: a start, a stop, a timer firing, the
   * first action of an iteration settling, its extra scroll settling.
   */
  datatype Event =
    | StartBrowse(variant: Variant, minutes: Option<int>, now: int, actionDraw: real)
    | StopBrowse
    | Fire(variant: Variant, now: int, actionDraw: real)
    | ActionSettled(variant: Variant, outcome: Outcome, pauseDraw: real)
    | ScrollSettled(variant: Variant, outcome: Outcome, pauseDraw: real)

  predicate WellDrawn(e: Event) {
    (e.ActionSettled? || e.ScrollSettled?) ==> IsDraw(e.pauseDraw)
  }

  predicate AllWellDrawn(es: seq<Event>) {
    forall k :: 0 <= k < |es| ==> WellDrawn(es[k])
  }

  function Apply(s: State, e: Event): State
    requires WellDrawn(e)
  {
    match e
    case StartBrowse(v, minutes, now, d) => Start(s, v, minutes, now, d).0
    case StopBrowse => Stop(s)
    case Fire(v, now, d) => Begin(s, v, now, d).0
    case ActionSettled(v, outcome, p) => AfterAction(s, v, outcome, p).0
    case ScrollSettled(v, outcome, p) => AfterExtraScroll(s, v, outcome, p)
  }

  function Run(s: State, es: seq<Event>): State
    requires AllWellDrawn(es)
    decreases |es|
  {
    if |es| == 0 then s else Run(Apply(s, es[0]), es[1..])
  }

  /** The actions the starts and timer fires of a run choose, in order. */
  function Chosen(s: State, es: seq<Event>): seq<Action>
    requires AllWellDrawn(es)
    decreases |es|
  {
    if |es| == 0 then []
    else
      var first := match es[0]
        case StartBrowse(v, minutes, now, d) => Start(s, v, minutes, now, d).2
        case Fire(v, now, d) => Begin(s, v, now, d).1
        case _ => None;
      (if first.Some? then [first.value] else []) + Chosen(Apply(s, es[0]), es[1..])
  }

  /** Every pending loop timer waits between 1 and 5 seconds. */
  predicate Inv(s: State) {
    s.timer.Some? ==> 1000 <= s.timer.value.delay <= 5000
  }

  lemma ApplyKeepsInv(s: State, e: Event)
    requires Inv(s) && WellDrawn(e)
    ensures Inv(Apply(s, e))
  {
  }

  /** Every run keeps the timer's delay within the loops' pacing. */
  lemma {:induction false} RunKeepsInv(s: State, es: seq<Event>)
    requires Inv(s) && AllWellDrawn(es)
    ensures Inv(Run(s, es))
    decreases |es|
  {
    if |es| > 0 {
      ApplyKeepsInv(s, es[0]);
      RunKeepsInv(Apply(s, es[0]), es[1..]);
    }
  }

  /**
   * The flag is checked only before the extra scroll: a stop while that
   * scroll is in flight leaves a timer armed on the stopped session, and
   * when it fires it runs only the guard.
   */
  lemma StopDuringExtraScroll(s: State, v: Variant, p: real, q: real, now: int, d: real)
    requires s.browsing && IsDraw(p) && IsDraw(q)
    ensures AfterAction(s, v, Completed, p) == (s, true)
    ensures var t := AfterExtraScroll(Stop(s), v, Completed, q);
            !t.browsing && t.timer.Some? && 1000 <= t.timer.value.delay <= 3000 &&
            Begin(t, v, now, d) == (t, None)
  {
  }

  /** A stop before the first action settles ends the iteration quietly, without a timer. */
  lemma StopDuringAction(s: State, v: Variant, p: real)
    requires IsDraw(p)
    ensures AfterAction(Stop(s), v, Completed, p) == (Stop(s), false)
    ensures Stop(s).timer.None?
  {
  }

  /** The `catch` branch re-arms a timer even on a stopped session. */
  lemma ThrowAfterStopArmsTimer(s: State, v: Variant, p: real)
    requires IsDraw(p)
    ensures var r := AfterAction(Stop(s), v, Threw, p);
            !r.0.browsing && r.0.timer.Some? && 2000 <= r.0.timer.value.delay <= 5000 && !r.1
  {
  }

  function Stops(k: nat): (es: seq<Event>)
    ensures |es| == k && AllWellDrawn(es)
  {
    seq(k, _ => StopBrowse)
  }

  /** `stopAutoBrowse` is idempotent: any positive number of calls is one call. */
  lemma {:induction false} StopIdempotent(s: State, k: nat)
    requires k >= 1
    ensures Run(s, Stops(k)) == Stop(s)
    ensures !Run(s, Stops(k)).browsing && Run(s, Stops(k)).timer.None?
    decreases k
  {
    assert Stops(k)[1..] == Stops(k - 1);
    if k > 1 {
      StopIdempotent(Stop(s), k - 1);
    }
  }

  /**
   * Once stopped, a session without a new start stays stopped: timers left
   * armed by iterations still in flight may fire, but each runs only the
   * guard, so no action is ever chosen, and start and duration are kept.
   */
  lemma {:induction false} StoppedStaysStopped(s: State, es: seq<Event>)
    requires !s.browsing && AllWellDrawn(es)
    requires forall k :: 0 <= k < |es| ==> !es[k].StartBrowse?
    ensures !Run(s, es).browsing && Chosen(s, es) == []
    ensures Run(s, es).startTime == s.startTime && Run(s, es).duration == s.duration
    decreases |es|
  {
    if |es| > 0 {
      assert !es[0].StartBrowse?;
      StoppedTail(s, es);
    }
  }

  lemma {:induction false} StoppedTail(s: State, es: seq<Event>)
    requires |es| > 0 && !s.browsing && AllWellDrawn(es) && !es[0].StartBrowse?
    requires forall k :: 0 <= k < |es| ==> !es[k].StartBrowse?
    ensures !Run(s, es).browsing && Chosen(s, es) == []
    ensures Run(s, es).startTime == s.startTime && Run(s, es).duration == s.duration
    decreases |es|, 0
  {
    var t := Apply(s, es[0]);
    assert !t.browsing && t.startTime == s.startTime && t.duration == s.duration;
    var tail := es[1..];
    assert forall k :: 0 <= k < |tail| ==> !tail[k].StartBrowse? by {
      forall k | 0 <= k < |tail| ensures !tail[k].StartBrowse? {
        assert tail[k] == es[k + 1];
      }
    }
    StoppedStaysStopped(t, tail);
  }

  function Fires(v: Variant, nows: seq<int>, draws: seq<real>): (es: seq<Event>)
    requires |draws| == |nows|
    ensures |es| == |nows| && AllWellDrawn(es)
    ensures forall k :: 0 <= k < |es| ==> es[k] == Fire(v, nows[k], draws[k])
  {
    seq(|nows|, k requires 0 <= k < |nows| => Fire(v, nows[k], draws[k]))
  }

  /**
   * A session whose duration is `NaN` never expires: however late its
   * timers fire, it keeps browsing and each fire chooses an action.
   */
  lemma {:induction false} NaNDurationNeverExpires(s: State, v: Variant, nows: seq<int>, draws: seq<real>)
    requires s.browsing && s.duration.None? && |draws| == |nows|
    ensures Run(s, Fires(v, nows, draws)) == s
    ensures forall k :: 0 <= k < |nows| ==> Begin(s, v, nows[k], draws[k]).1.Some?
    decreases |nows|
  {
    var es := Fires(v, nows, draws);
    if |nows| > 0 {
      assert es[0] == Fire(v, nows[0], draws[0]);
      assert Apply(s, es[0]) == s;
      NaNDurationNeverExpires(s, v, nows[1..], draws[1..]);
      assert es[1..] == Fires(v, nows[1..], draws[1..]);
    }
  }

  /** A fire at or after `startTime + duration` ends the session without choosing an action. */
  lemma FireAfterDeadlineStops(s: State, v: Variant, now: int, d: real)
    requires s.browsing && s.duration.Some? && now >= s.startTime + s.duration.value
    ensures Begin(s, v, now, d) == (Stop(s), None)
    ensures !Begin(s, v, now, d).0.browsing && Begin(s, v, now, d).0.timer.None?
  {
  }

  /** A start for `m > 0` minutes is not over before `m * 60000` ms have passed, and is over after. */
  lemma StartedSessionLasts(s: State, v: Variant, m: int, now: int, d: real, later: int)
    requires !s.browsing && m > 0
    ensures var t := Start(s, v, Some(m), now, d).0;
            t.browsing && (Expired(t, later) <==> later >= now + m * 60000)
  {
  }
}
