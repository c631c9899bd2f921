/**
 * The randomised pacing of the browsing session: `getRandomDelay`, and the
 * three timer-driven scrolling sub-loops as objects whose `Step` is one
 * timer callback. `Math.random()` draws are parameters in [0, 1); page
 * geometry is integral; the scrolling itself is returned as a move.
 */
module Pacing {
  import opened Wrappers

  predicate IsDraw(r: real) {
    0.0 <= r < 1.0
  }

  /** `getRandomDelay(min, max)` for the draw `r`: `Math.floor(r * (max - min + 1)) + min`. */
  function RandomDelay(min: int, max: int, r: real): (d: int)
    requires min <= max && IsDraw(r)
    ensures min <= d <= max
  {
    var width := (max - min + 1) as real;
    assert 0.0 <= r * width < width by {
      DrawScales(r, width);
    }
    (r * width).Floor + min
  }

  lemma DrawScales(r: real, width: real)
    requires IsDraw(r) && width > 0.0
    ensures 0.0 <= r * width < width
  {
  }

  /** Every delay in the range is produced by some draw. */
  lemma RandomDelayCoversRange(min: int, max: int, d: int)
    requires min <= d <= max
    ensures var r := (d - min) as real / (max - min + 1) as real;
            IsDraw(r) && RandomDelay(min, max, r) == d
  {
    var width := (max - min + 1) as real;
    var r := (d - min) as real / width;
    assert r * width == (d - min) as real;
  }

  // ---------------------------------------------------------------------
  // continuousScroll

  /** What one step of a scrolling sub-loop asks of the page. */
  datatype ScrollMove =
    | Finished
    | JumpTo(position: int)
    | ScrollBy(viewportPercent: int, forward: bool)

  /** The page's geometry when a step runs: document height, viewport height, scroll offset. */
  datatype Page = Page(scrollHeight: nat, viewportHeight: nat, scrollTop: nat)

  /** Within 50 pixels of the end of the document. */
  predicate AtBottom(p: Page) {
    p.scrollTop + p.viewportHeight >= p.scrollHeight - 50
  }

  /** The draws of one continuous-scroll step: jump target, scroll amount, direction, next delay. */
  datatype ScrollDraws = ScrollDraws(position: real, amount: real, direction: real, delay: real)

  predicate IsScrollDraws(d: ScrollDraws) {
    IsDraw(d.position) && IsDraw(d.amount) && IsDraw(d.direction) && IsDraw(d.delay)
  }

  /**
   * Scrolling inside a post until `endTime`: forward by 40–100 % of the
   * viewport (85 % of steps; otherwise back by 30 % of that), except that at
   * the bottom of a page that did not grow since the previous step it jumps
   * back to a random point in the first 70 % of the document.
   */
  class ContinuousScroll {
    const endTime: int
    var lastScrollHeight: int
    var reachedBottom: bool

    constructor (startTime: int, duration: int)
      ensures endTime == startTime + duration
      ensures lastScrollHeight == 0 && !reachedBottom
    {
      endTime := startTime + duration;
      lastScrollHeight := 0;
      reachedBottom := false;
    }

    /** One `performScroll` callback; `nextDelay` is the pause before the next one (when not finished). */
    method Step(now: int, page: Page, draws: ScrollDraws) returns (move: ScrollMove, nextDelay: int)
      requires IsScrollDraws(draws)
      modifies this
      ensures move.Finished? <==> now >= endTime
      ensures now >= endTime ==> move == Finished
      ensures now >= endTime ==>
        lastScrollHeight == old(lastScrollHeight) && reachedBottom == old(reachedBottom)
      ensures now < endTime ==>
        (move.JumpTo? <==> AtBottom(page) && page.scrollHeight == old(lastScrollHeight))
      ensures move.JumpTo? ==>
        0 <= move.position && (move.position == 0 || 10 * move.position < 7 * page.scrollHeight)
      ensures move.JumpTo? ==> reachedBottom && move.position == JumpTarget(draws.position, page.scrollHeight)
      ensures move.ScrollBy? ==>
        40 <= move.viewportPercent <= 100 && move.viewportPercent == RandomDelay(40, 100, draws.amount)
      ensures move.ScrollBy? ==> (move.forward <==> draws.direction < 0.85)
      ensures move.ScrollBy? ==> reachedBottom == (old(reachedBottom) && !move.forward)
      ensures now < endTime ==> lastScrollHeight == page.scrollHeight
      ensures now < endTime ==> 600 <= nextDelay <= 1200 && nextDelay == RandomDelay(600, 1200, draws.delay)
    {
      if now >= endTime {
        return Finished, 0;
      }
      if AtBottom(page) && page.scrollHeight == lastScrollHeight {
        reachedBottom := true;
        move := JumpTo(JumpTarget(draws.position, page.scrollHeight));
      } else {
        var percent := RandomDelay(40, 100, draws.amount);
        var forward := draws.direction < 0.85;
        if forward {
          reachedBottom := false;
        }
        move := ScrollBy(percent, forward);
      }
      lastScrollHeight := page.scrollHeight;
      nextDelay := RandomDelay(600, 1200, draws.delay);
    }
  }

  /**
   * The end-of-content detector over two callbacks before the end time: a
   * page that sits at the bottom with the height the previous callback saw
   * is jumped back into its first 70 %.
   */
  method StuckAtBottomJumps(c: ContinuousScroll, now1: int, now2: int, page: Page, d1: ScrollDraws, d2: ScrollDraws)
      returns (first: ScrollMove, second: ScrollMove)
    requires IsScrollDraws(d1) && IsScrollDraws(d2) && AtBottom(page) && now1 <= now2 < c.endTime
    modifies c
    ensures !first.Finished? && second.JumpTo? && c.reachedBottom
    ensures second.position == 0 || 10 * second.position < 7 * page.scrollHeight
  {
    var delay;
    first, delay := c.Step(now1, page, d1);
    second, delay := c.Step(now2, page, d2);
  }

  /** The jump target `Math.floor(r * scrollHeight * 0.7)`: in the first 70 % of the page, or 0. */
  function JumpTarget(r: real, height: nat): (p: int)
    requires IsDraw(r)
    ensures 0 <= p && (p == 0 || 10 * p < 7 * height)
  {
    JumpTargetBounds(r, height);
    (r * height as real * 0.7).Floor
  }

  /** `Math.floor(r * height * 0.7)` lies in [0, 0.7 height), or is 0 on an empty page. */
  lemma JumpTargetBounds(r: real, height: nat)
    requires IsDraw(r)
    ensures var p := (r * height as real * 0.7).Floor;
            0 <= p && (p == 0 || 10 * p < 7 * height)
  {
    var x := r * height as real * 0.7;
    ScaledDrawBounds(r, height, x);
    FloorBelowSevenTenths(x, height);
  }

  lemma ScaledDrawBounds(r: real, height: nat, x: real)
    requires IsDraw(r) && x == r * height as real * 0.7
    ensures 0.0 <= x
    ensures x == 0.0 || x < height as real * 0.7
  {
    assert 0.0 <= r * height as real;
    assert height > 0 ==> r * height as real < height as real;
  }

  lemma FloorBelowSevenTenths(x: real, height: nat)
    requires 0.0 <= x
    requires x == 0.0 || x < height as real * 0.7
    ensures 0 <= x.Floor && (x.Floor == 0 || 10 * x.Floor < 7 * height)
  {
    var p := x.Floor;
    assert p as real <= x;
    assert (10 * p) as real == 10.0 * p as real;
    assert (7 * height) as real == 7.0 * height as real;
  }

  // ---------------------------------------------------------------------
  // humanLikeScroll

  const MaxScrollAttempts: nat := 20
  const MaxStagnantScrolls: nat := 3

  /** The counters of `humanLikeScroll`. */
  datatype HumanScroll = HumanScroll(attempts: nat, lastScrollHeight: int, stagnant: nat)

  /** What a step of `humanLikeScroll` does when it does not finish. */
  datatype HumanMove = HumanMove(toBottomFirst: bool)

  /**
   * One `scrollStep`: finish at the bottom, after 20 attempts or after 3
   * steps in a row that saw the page height unchanged; otherwise scroll on,
   * first jumping to the very bottom on the second unchanged step.
   */
  function HumanStep(s: HumanScroll, page: Page): Option<(HumanScroll, HumanMove)> {
    if AtBottom(page) || s.attempts >= MaxScrollAttempts || s.stagnant >= MaxStagnantScrolls then None
    else
      var stagnant := if page.scrollHeight == s.lastScrollHeight then s.stagnant + 1 else 0;
      Some((HumanScroll(s.attempts + 1, page.scrollHeight, stagnant), HumanMove(stagnant == 2)))
  }

  /** The run of `humanLikeScroll` over the pages its successive steps see ends within them. */
  predicate EndsWithin(s: HumanScroll, pages: seq<Page>)
    decreases |pages|
  {
    |pages| > 0 &&
    match HumanStep(s, pages[0])
    case None => true
    case Some((next, _)) => EndsWithin(next, pages[1..])
  }

  /** Whatever the page does, `humanLikeScroll` finishes by its 21st step. */
  lemma {:induction false} HumanScrollTerminates(s: HumanScroll, pages: seq<Page>)
    requires s.attempts <= MaxScrollAttempts
    requires |pages| > MaxScrollAttempts - s.attempts
    ensures EndsWithin(s, pages)
    decreases MaxScrollAttempts - s.attempts
  {
    match HumanStep(s, pages[0])
    case None =>
    case Some((next, _)) =>
      HumanScrollTerminates(next, pages[1..]);
  }

  /** On a page whose height never changes, `humanLikeScroll` finishes within five steps. */
  lemma {:induction false} StagnantPageEndsSoon(s: HumanScroll, pages: seq<Page>, height: int)
    requires s.stagnant <= MaxStagnantScrolls
    requires s.lastScrollHeight == height ==> |pages| > MaxStagnantScrolls - s.stagnant
    requires s.lastScrollHeight != height ==> |pages| > MaxStagnantScrolls + 1
    requires forall k :: 0 <= k < |pages| ==> pages[k].scrollHeight == height
    ensures EndsWithin(s, pages)
    decreases if s.lastScrollHeight == height then MaxStagnantScrolls - s.stagnant else MaxStagnantScrolls + 1
  {
    match HumanStep(s, pages[0])
    case None =>
    case Some((next, _)) =>
      StagnantPageEndsSoon(next, pages[1..], height);
  }

  /** The `humanLikeScroll` promise as an object updated in place by each timer callback. */
  class HumanLikeScroll {
    var scrollAttempts: nat
    var lastScrollHeight: int
    var stagnantScrolls: nat

    function Counters(): HumanScroll
      reads this
    {
      HumanScroll(scrollAttempts, lastScrollHeight, stagnantScrolls)
    }

    constructor ()
      ensures Counters() == HumanScroll(0, 0, 0)
    {
      scrollAttempts, lastScrollHeight, stagnantScrolls := 0, 0, 0;
    }

    /** One `scrollStep`; `waitTime` is the pause before the next step when it does not finish. */
    method Step(page: Page, delayDraw: real) returns (move: Option<HumanMove>, waitTime: int)
      requires IsDraw(delayDraw)
      modifies this
      ensures HumanStep(old(Counters()), page).None? ==> move.None? && Counters() == old(Counters())
      ensures HumanStep(old(Counters()), page).Some? ==>
        move == Some(HumanStep(old(Counters()), page).value.1) &&
        Counters() == HumanStep(old(Counters()), page).value.0 &&
        1200 <= waitTime <= 2000 && waitTime == RandomDelay(1200, 2000, delayDraw)
    {
      if AtBottom(page) || scrollAttempts >= MaxScrollAttempts || stagnantScrolls >= MaxStagnantScrolls {
        return None, 0;
      }
      if page.scrollHeight == lastScrollHeight {
        stagnantScrolls := stagnantScrolls + 1;
      } else {
        stagnantScrolls := 0;
      }
      lastScrollHeight := page.scrollHeight;
      scrollAttempts := scrollAttempts + 1;
      move := Some(HumanMove(stagnantScrolls == 2));
      waitTime := RandomDelay(1200, 2000, delayDraw);
    }
  }

  // ---------------------------------------------------------------------
  // scrollMainPage

  /** `scrollMainPage`: 2 to 4 scrolls of 60 % of the viewport, with 0.8–1.5 s pauses between them. */
  class MainPageScroll {
    const scrollActions: int
    var actionsCompleted: nat

    constructor (r: real)
      requires IsDraw(r)
      ensures scrollActions == RandomDelay(2, 4, r) && actionsCompleted == 0
    {
      scrollActions := RandomDelay(2, 4, r);
      actionsCompleted := 0;
    }

    /** One `performMainPageScroll`: scrolls once; a pause means another step follows. */
    method Step(pauseDraw: real) returns (pause: Option<int>)
      requires IsDraw(pauseDraw)
      modifies this
      ensures actionsCompleted == old(actionsCompleted) + 1
      ensures pause.Some? <==> actionsCompleted < scrollActions
      ensures pause.Some? ==> 800 <= pause.value <= 1500 && pause.value == RandomDelay(800, 1500, pauseDraw)
    {
      actionsCompleted := actionsCompleted + 1;
      if actionsCompleted < scrollActions {
        pause := Some(RandomDelay(800, 1500, pauseDraw));
      } else {
        pause := None;
      }
    }
  }

  /** Runs the `scrollMainPage` chain to completion; `steps` scrolls happen, 2 to 4 of them. */
  method ScrollMainPage(r: real, pauseDraws: seq<real>) returns (steps: nat)
    requires IsDraw(r)
    requires |pauseDraws| >= 4 && forall k :: 0 <= k < |pauseDraws| ==> IsDraw(pauseDraws[k])
    ensures steps == RandomDelay(2, 4, r)
    ensures 2 <= steps <= 4
  {
    var chain := new MainPageScroll(r);
    var pause := chain.Step(pauseDraws[0]);
    steps := 1;
    while pause.Some?
      invariant steps == chain.actionsCompleted <= chain.scrollActions <= 4
      invariant pause.Some? <==> steps < chain.scrollActions
      invariant chain.scrollActions == RandomDelay(2, 4, r)
      decreases chain.scrollActions - steps
    {
      pause := chain.Step(pauseDraws[steps]);
      steps := steps + 1;
    }
  }
}
