/**
 * The popup: the checks on its search and login inputs, the duration field
 * read as `parseInt(value) || 5`, and the countdown shown while a session
 * runs, as an object whose fields the button handlers and the one-second
 * interval update. Messages to the page are returned as values.
 */
module Popup {
  import opened Wrappers
  import opened Text
  import opened JsValues
  import Session
  import Agent

  /** A `sendToReddit(command, data)` call; `data` defaults to `{}`. */
  datatype Message = Message(command: string, data: Value)

  /** What a button click did: sent a message with a status line, or only showed an error. */
  datatype Click = Sent(message: Message, status: string) | Refused(error: string)

  /** The search button: the trimmed term, unless it is empty. */
  function SearchClick(input: string): (c: Click)
    ensures c.Refused? <==> Trim(input) == []
    ensures c.Refused? ==> c.error == "Please enter a search term"
    ensures c.Sent? ==> c.message == Message("search", Obj([Property("query", Str(Trim(input)))]))
  {
    var term := Trim(input);
    if term == [] then Refused("Please enter a search term")
    else Sent(Message("search", Obj([Property("query", Str(term))])), "Searching for \"" + term + "\"...")
  }

  /** The query sent is never empty and has no surrounding whitespace, and retyping it sends the same. */
  lemma SearchQueryIsTrimmed(input: string)
    requires SearchClick(input).Sent?
    ensures var q := Trim(input);
            q != [] && !IsJsWhitespace(q[0]) && !IsJsWhitespace(q[|q| - 1]) && SearchClick(q) == SearchClick(input)
  {
    TrimIdempotent(input);
  }

  /** The login button: both trimmed fields must be non-empty. */
  function LoginClick(email: string, password: string): (c: Click)
    ensures c.Refused? <==> Trim(email) == [] || Trim(password) == []
    ensures c.Refused? ==> c.error == "Please enter both email and password"
    ensures c.Sent? ==>
      c.message == Message("login", Obj([Property("email", Str(Trim(email))), Property("password", Str(Trim(password)))]))
  {
    var e := Trim(email);
    var p := Trim(password);
    if e == [] || p == [] then Refused("Please enter both email and password")
    else Sent(Message("login", Obj([Property("email", Str(e)), Property("password", Str(p))])), "Logging in to Reddit...")
  }

  /** A login the popup sends always passes the script's own field check. */
  lemma SentLoginPassesScriptCheck(email: string, password: string)
    requires LoginClick(email, password).Sent?
    ensures var data := LoginClick(email, password).message.data;
            Agent.Decode(Str("login"), data) == Agent.Perform(Agent.Login(Str(Trim(email)), Str(Trim(password))))
  {
    Agent.FilledLoginDecodes(Trim(email), Trim(password));
  }

  /** `parseInt(browseTimeInput.value) || 5`: a value that reads as NaN or 0 becomes 5. */
  function DurationInput(raw: string): (minutes: int)
    ensures minutes != 0
    ensures ParseInt(raw) == Some(minutes) || (minutes == 5 && (ParseInt(raw).None? || ParseInt(raw) == Some(0)))
  {
    match ParseInt(raw)
    case None => 5
    case Some(n) => if n == 0 then 5 else n
  }

  /** A field holding the text of a non-zero number is read as that number. */
  lemma DurationInputReadsNumber(n: int)
    requires n != 0
    ensures DurationInput(IntToString(n)) == n
  {
    IntToStringParses(n);
  }

  /** A zero is read as the default 5. */
  lemma DurationInputZeroIsFive()
    ensures DurationInput("0") == 5
  {
    IntToStringParses(0);
    assert IntToString(0) == "0";
  }

  /** `a % b` for a divisor `b > 0`: the remainder takes the sign of the dividend. */
  function JsRem(a: int, b: int): (r: int)
    requires b > 0
    ensures a >= 0 ==> r == a % b && 0 <= r < b
    ensures a < 0 ==> -b < r <= 0
  {
    if a >= 0 then a % b else -((-a) % b)
  }

  /** Unlike Dafny's `%`, the remainder of a negated dividend is the negated remainder. */
  lemma JsRemOdd(a: int, b: int)
    requires b > 0
    ensures JsRem(-a, b) == -JsRem(a, b)
  {
  }

  /**
   * `${Math.floor(s / 60)}:${(s % 60).toString().padStart(2, '0')}`;
   * division by the positive 60 already rounds down.
   */
  function FormatRemaining(s: int): string {
    IntToString(s / 60) + ":" + PadStart(IntToString(JsRem(s, 60)), 2, '0')
  }

  /** The two-character seconds field of `0 <= r < 60`, and its value. */
  lemma SecondsField(r: nat)
    requires r < 60
    ensures var t := PadStart(IntToString(r), 2, '0');
            |t| == 2 && IsDecimalDigit(t[0]) && IsDecimalDigit(t[1]) &&
            10 * DigitValue(t[0]) + DigitValue(t[1]) == r
  {
    SecondsText(r);
    DigitCharValue(r / 10);
    DigitCharValue(r % 10);
  }

  /** The seconds field is the tens digit followed by the units digit. */
  lemma SecondsText(r: nat)
    requires r < 60
    ensures PadStart(IntToString(r), 2, '0') == [DigitChar(r / 10), DigitChar(r % 10)]
  {
    if r < 10 {
      OneDigitText(r);
    } else {
      TwoDigitText(r);
    }
  }

  lemma OneDigitText(r: nat)
    requires r < 10
    ensures PadStart(IntToString(r), 2, '0') == [DigitChar(r / 10), DigitChar(r % 10)]
  {
    DivModTen(r, 0, r);
    OneDigitField(r);
  }

  lemma TwoDigitText(r: nat)
    requires 10 <= r < 60
    ensures PadStart(IntToString(r), 2, '0') == [DigitChar(r / 10), DigitChar(r % 10)]
  {
    TwoDigitField(r, r / 10, r % 10);
  }

  lemma DivModTen(r: nat, q: nat, d: nat)
    requires d < 10 && r == 10 * q + d
    ensures r / 10 == q && r % 10 == d
  {
  }

  lemma DigitCharValue(d: nat)
    requires d < 10
    ensures IsDecimalDigit(DigitChar(d)) && DigitValue(DigitChar(d)) == d
  {
  }

  lemma OneDigitField(r: nat)
    requires r < 10
    ensures PadStart(IntToString(r), 2, '0') == [DigitChar(0), DigitChar(r)]
  {
    assert IntToString(r) == [DigitChar(r)];
    assert PadStart([DigitChar(r)], 2, '0') == PadStart([DigitChar(0), DigitChar(r)], 2, '0');
  }

  lemma TwoDigitField(r: nat, q: nat, d: nat)
    requires 10 <= r < 60 && q < 10 && d < 10 && r == 10 * q + d
    ensures PadStart(IntToString(r), 2, '0') == [DigitChar(q), DigitChar(d)]
  {
    DivModTen(r, q, d);
    assert NatToString(r) == NatToString(q) + [DigitChar(d)];
    assert NatToString(q) == [DigitChar(q)];
  }

  /** The displayed text of `s >= 0` seconds: the minutes, a colon and two digits worth `s % 60`. */
  lemma FormatShape(s: int)
    requires s >= 0
    ensures var f := FormatRemaining(s);
            |f| >= 4 && f[|f| - 3] == ':' && f[..|f| - 3] == IntToString(s / 60) &&
            IsDecimalDigit(f[|f| - 2]) && IsDecimalDigit(f[|f| - 1]) &&
            10 * DigitValue(f[|f| - 2]) + DigitValue(f[|f| - 1]) == s % 60
  {
    var m := IntToString(s / 60);
    var t := PadStart(IntToString(s % 60), 2, '0');
    SecondsField(s % 60);
    assert FormatRemaining(s) == (m + ":") + t;
    ColonThenTwo(m, t);
  }

  lemma ColonThenTwo(m: string, t: string)
    requires |m| >= 1 && |t| == 2
    ensures var f := (m + ":") + t;
            |f| >= 4 && f[|f| - 3] == ':' && f[..|f| - 3] == m && f[|f| - 2] == t[0] && f[|f| - 1] == t[1]
  {
    var f := (m + ":") + t;
    assert f[..|f| - 3] == m;
  }

  /** Different non-negative remaining times are displayed differently. */
  lemma FormatInjective(a: int, b: int)
    requires a >= 0 && b >= 0
    ensures FormatRemaining(a) == FormatRemaining(b) <==> a == b
  {
    if FormatRemaining(a) == FormatRemaining(b) {
      var qa, ra := a / 60, a % 60;
      var qb, rb := b / 60, b % 60;
      var ma, ta := IntToString(qa), PadStart(IntToString(ra), 2, '0');
      var mb, tb := IntToString(qb), PadStart(IntToString(rb), 2, '0');
      assert FormatRemaining(a) == (ma + ":") + ta;
      assert FormatRemaining(b) == (mb + ":") + tb;
      SecondsField(ra);
      SecondsField(rb);
      SameLengthTails(ma + ":", ta, mb + ":", tb);
      SameLengthTails(ma, ":", mb, ":");
      IntToStringInjective(qa, qb);
      assert ra == rb;
      DivModDetermine(a, b);
    }
  }

  /** Two equal concatenations with equally long second halves have equal halves. */
  lemma SameLengthTails<T>(x1: seq<T>, t1: seq<T>, x2: seq<T>, t2: seq<T>)
    requires x1 + t1 == x2 + t2 && |t1| == |t2|
    ensures x1 == x2 && t1 == t2
  {
    assert x1 == (x1 + t1)[..|x1|];
    assert x2 == (x2 + t2)[..|x2|];
    assert t1 == (x1 + t1)[|x1|..];
    assert t2 == (x2 + t2)[|x2|..];
  }

  lemma DivModDetermine(a: nat, b: nat)
    requires a / 60 == b / 60 && a % 60 == b % 60
    ensures a == b
  {
  }

  /** `s = 60 q + r` seconds are displayed as the text of `q`, a colon and `r` padded to two places. */
  lemma FormatOf(s: int, q: nat, r: nat)
    requires r < 60 && s == q * 60 + r
    ensures FormatRemaining(s) == IntToString(q) + ":" + PadStart(IntToString(r), 2, '0')
  {
    var mins := s / 60;
    var sec := JsRem(s, 60);
    assert mins == q && sec == r;
    var f := FormatRemaining(s);
    assert f == IntToString(mins) + ":" + PadStart(IntToString(sec), 2, '0');
  }

  /** Zero seconds are displayed as `00`. */
  lemma ZeroSecondsField()
    ensures PadStart(IntToString(0), 2, '0') == "00"
  {
    assert IntToString(0) == [DigitChar(0)];
    assert PadStart(['0'], 2, '0') == PadStart(['0', '0'], 2, '0');
  }

  /** Whole minutes are displayed as `M:00`. */
  lemma FormatWholeMinutes(m: nat)
    ensures FormatRemaining(m * 60) == IntToString(m) + ":" + "00"
  {
    ZeroSecondsField();
    FormatOf(m * 60, m, 0);
  }

  function StatusLine(remaining: int): string {
    "Auto browsing... " + FormatRemaining(remaining) + " remaining"
  }

  /** `sendToReddit(command, { duration: minutes })`. */
  function DurationMessage(command: string, minutes: int): Message {
    Message(command, Obj([Property("duration", Num(minutes))]))
  }

  // ---------------------------------------------------------------------
  // The countdown

  /**
   * The countdown: whether `browseInterval` is armed, the remaining
   * seconds, and whether the controls are locked (start button hidden,
   * stop button shown, duration field disabled).
   */
  datatype Countdown = Countdown(armed: bool, remaining: int, locked: bool)

  const Closed: Countdown := Countdown(false, 0, false)

  /** The status text: the remaining time while armed, empty once reset. */
  function Status(c: Countdown): string {
    if c.armed then StatusLine(c.remaining) else ""
  }

  /** The auto-browse button's effect on the countdown. */
  function StartCountdown(minutes: int): (c: Countdown)
    ensures c.armed && c.locked && c.remaining == minutes * 60
  {
    Countdown(true, minutes * 60, true)
  }

  /** The popup's `stopAutoBrowse()`: controls unlocked, interval cleared, so the status is empty. */
  function ResetCountdown(c: Countdown): (r: Countdown)
    ensures !r.armed && !r.locked && Status(r) == "" && r.remaining == c.remaining
  {
    Countdown(false, c.remaining, false)
  }

  /** One call of the interval's callback; a cleared interval calls nothing. */
  function TickCountdown(c: Countdown): (r: Countdown)
    ensures !c.armed ==> r == c
    ensures c.armed && c.remaining - 1 > 0 ==> r == c.(remaining := c.remaining - 1)
    ensures c.armed && c.remaining - 1 <= 0 ==> r == ResetCountdown(c.(remaining := c.remaining - 1))
  {
    if !c.armed then c
    else
      var left := c.remaining - 1;
      if left > 0 then c.(remaining := left)
      else ResetCountdown(c.(remaining := left))
  }

  function Ticks(c: Countdown, k: nat): Countdown
    decreases k
  {
    if k == 0 then c else Ticks(TickCountdown(c), k - 1)
  }

  /** Before it reaches zero the countdown drops by one per tick. */
  lemma {:induction false} CountdownDrops(c: Countdown, k: nat)
    requires c.armed && c.remaining > k
    ensures Ticks(c, k) == c.(remaining := c.remaining - k)
    decreases k
  {
    if k > 0 {
      CountdownDrops(TickCountdown(c), k - 1);
    }
  }

  /** Ticks after the interval was cleared change nothing. */
  lemma {:induction false} ClosedStaysClosed(c: Countdown, k: nat)
    requires !c.armed
    ensures Ticks(c, k) == c
    decreases k
  {
    if k > 0 {
      ClosedStaysClosed(TickCountdown(c), k - 1);
    }
  }

  lemma {:induction false} TicksSplit(c: Countdown, i: nat, j: nat)
    ensures Ticks(c, i + j) == Ticks(Ticks(c, i), j)
    decreases i
  {
    if i > 0 {
      TicksSplit(TickCountdown(c), i - 1, j);
    }
  }

  /** A countdown of `n` seconds is still running, with `n - k` left, after `k < n` ticks. */
  lemma CountdownRuns(n: int, k: nat)
    requires k < n
    ensures Ticks(Countdown(true, n, true), k) == Countdown(true, n - k, true)
  {
    CountdownDrops(Countdown(true, n, true), k);
  }

  /**
   * A countdown of `n > 0` seconds is closed, with the controls unlocked and
   * the status cleared, from the `n`-th tick on.
   */
  lemma CountdownCloses(n: int, k: nat)
    requires 0 < n <= k
    ensures var c := Ticks(Countdown(true, n, true), k);
            c == Countdown(false, 0, false) && Status(c) == ""
  {
    var c := Countdown(true, n, true);
    CountdownDrops(c, n - 1);
    var last := Ticks(c, n - 1);
    assert last == Countdown(true, 1, true);
    var closed := TickCountdown(last);
    assert closed == Countdown(false, 0, false);
    assert Ticks(last, 1) == closed;
    TicksSplit(last, 1, k - n);
    ClosedStaysClosed(closed, k - n);
    TicksSplit(c, n - 1, k - (n - 1));
  }

  /** The popup's countdown state, updated in place by its handlers. */
  class PopupUi {
    var browseInterval: bool
    var remainingTime: int
    var statusText: string
    var controlsLocked: bool

    function View(): Countdown
      reads this
    {
      Countdown(browseInterval, remainingTime, controlsLocked)
    }

    /** The status line always shows what the countdown holds. */
    predicate Valid()
      reads this
    {
      statusText == Status(View())
    }

    constructor ()
      ensures Valid() && View() == Closed
    {
      browseInterval, remainingTime, statusText, controlsLocked := false, 0, "", false;
    }

    /** The auto-browse button: reads the duration, sends the start and arms the countdown. */
    method AutoBrowseClick(raw: string) returns (sent: Message)
      modifies this
      ensures Valid()
      ensures sent == DurationMessage("startAutoBrowse", DurationInput(raw))
      ensures View() == StartCountdown(DurationInput(raw))
    {
      var minutes := DurationInput(raw);
      sent := DurationMessage("startAutoBrowse", minutes);
      Arm(minutes * 60);
    }

    /** Locks the controls, shows the full time and arms the interval. */
    method Arm(seconds: int)
      modifies this
      ensures Valid() && View() == Countdown(true, seconds, true)
    {
      var line := StatusLine(seconds);
      browseInterval, remainingTime, statusText, controlsLocked := true, seconds, line, true;
    }

    /** The interval callback, once a second while armed. */
    method Tick()
      requires Valid()
      modifies this
      ensures Valid()
      ensures View() == TickCountdown(old(View()))
    {
      if !browseInterval {
        return;
      }
      var left := remainingTime - 1;
      if left > 0 {
        ShowRemaining(left);
      } else {
        remainingTime := left;
        ResetUi();
      }
    }

    /** `remainingTime` and the status line set to `seconds` while the interval runs. */
    method ShowRemaining(seconds: int)
      requires browseInterval
      modifies this
      ensures Valid() && View() == Countdown(true, seconds, old(controlsLocked))
    {
      var line := StatusLine(seconds);
      remainingTime, statusText := seconds, line;
    }

    /** The popup's `stopAutoBrowse()`. */
    method ResetUi()
      modifies this
      ensures Valid()
      ensures View() == ResetCountdown(old(View()))
    {
      controlsLocked := false;
      statusText := "";
      if browseInterval {
        browseInterval := false;
      }
    }

    /** The stop button: tells the page to stop and resets the countdown. */
    method StopClick() returns (sent: Message)
      modifies this
      ensures Valid()
      ensures sent == Message("stopAutoBrowse", EmptyObject)
      ensures View() == ResetCountdown(old(View()))
    {
      sent := Message("stopAutoBrowse", EmptyObject);
      ResetUi();
    }

    /** The home-feed button: sends the start and leaves the countdown alone. */
    method HomeFeedClick(raw: string) returns (sent: Message)
      ensures sent == DurationMessage("browseHomeFeed", DurationInput(raw))
    {
      sent := DurationMessage("browseHomeFeed", DurationInput(raw));
    }
  }

  /**
   * The start the popup sends is taken at its word by the page: an idle
   * session starts for the same number of minutes that the countdown counts
   * down in seconds.
   */
  lemma PopupStartMatchesSession(raw: string, s: Session.State, now: int, d: real)
    requires !s.browsing
    ensures var m := DurationInput(raw);
            var r := Agent.HandleMessage(s, "startAutoBrowse", Obj([Property("duration", Num(m))]), now, d);
            r.Some? && r.value.0.duration == Some(m * 60000) && StartCountdown(m).remaining * 1000 == m * 60000
  {
    Agent.PopupStartsFor(s, "startAutoBrowse", DurationInput(raw), now, d);
  }
}
