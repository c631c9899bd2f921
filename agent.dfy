/**
 * The content script's side of the relay: `processApiCommand` as a decoding
 * of a command into either an immediate result or a call on the page, the
 * result that call produces, and `pollApiCommands` with the polling flags as
 * methods of an object holding the script's module-level variables.
 *
 * The page functions (`performSearch`, `performLogin`, `performLogout`,
 * `checkAuthentication`, `scrollToTop`, navigation) are an adapter whose
 * call either returns a value or throws; which of the two happens is a
 * parameter, together with the clock and the draw of the first browsing
 * iteration.
 */
module Agent {
  import opened Wrappers
  import opened Text
  import opened JsValues
  import opened Pacing
  import opened Session
  import RelayServer

  /** `{ success, message, data? }` as reported back to the relay. */
  datatype CommandResult = CommandResult(success: Value, message: string, data: Option<Value>)

  /** One `reportCommandResult(id, result)` call. */
  datatype Report = Report(commandId: string, result: CommandResult)

  function Fail(message: string): CommandResult {
    CommandResult(Bool(false), message, None)
  }

  function Ok(message: string): CommandResult {
    CommandResult(Bool(true), message, None)
  }

  /** What the `catch` at the end of `processApiCommand` makes of a thrown error. */
  function Thrown(message: string): CommandResult {
    Fail("Error: " + message)
  }

  /** What a call of a page function did. */
  datatype Attempt = Returned(value: Value) | Raised(message: string)

  /** What processing one command may depend on besides the script's state. */
  datatype Env = Env(attempt: Attempt, now: int, actionDraw: real)

  /** The work a command asks for once its fields have been checked. */
  datatype Request =
    | Search(query: Value)
    | Login(email: Value, password: Value)
    | Logout
    | CheckAuth
    | StartLoop(variant: Variant, minutes: Value)
    | StopLoop
    | CallUndefined(name: string)
    | ScrollToTop
    | GoHome
    | Refresh

  /** Either the result is known from the command alone, or a request is carried out. */
  datatype Plan = Done(result: CommandResult) | Perform(request: Request)

  /** The kinds `processApiCommand` switches on; anything else is unknown. */
  predicate IsKnownKind(command: Value) {
    command in {Str("search"), Str("login"), Str("logout"), Str("checkAuth"), Str("startAutoBrowse"),
                Str("browseHomeFeed"), Str("stopAutoBrowse"), Str("scrollDown"), Str("scrollUp"),
                Str("scrollToTop"), Str("goHome"), Str("refresh")}
  }

  /**
   * The `switch (command)` up to the first call on the page: the strict
   * comparisons with the kind names, the field checks, the duration
   * defaults `|| 5` and `|| 10`, and the `TypeError` of reading a field
   * of `null` data.
   */
  function Decode(command: Value, data: Value): (p: Plan)
    ensures !IsKnownKind(command) ==> p == Done(Fail("Unknown command: " + ToJsString(command)))
    ensures command == Str("scrollDown") ==> p == Perform(CallUndefined("scrollDown"))
    ensures command == Str("scrollUp") ==> p == Perform(CallUndefined("scrollUp"))
  {
    if command == Str("search") then
      match Get(data, "query")
      case Failure(e) => Done(Thrown(e))
      case Success(q) => if Truthy(q) then Perform(Search(q)) else Done(Fail("Query parameter required for search"))
    else if command == Str("login") then
      match Get(data, "email")
      case Failure(e) => Done(Thrown(e))
      case Success(email) =>
        if !Truthy(email) then Done(Fail("Email and password required for login"))
        else
          var password := Get(data, "password").value;
          if Truthy(password) then Perform(Login(email, password))
          else Done(Fail("Email and password required for login"))
    else if command == Str("logout") then Perform(Logout)
    else if command == Str("checkAuth") then Perform(CheckAuth)
    else if command == Str("startAutoBrowse") then
      match Get(data, "duration")
      case Failure(e) => Done(Thrown(e))
      case Success(d) => Perform(StartLoop(General, Or(d, Num(5))))
    else if command == Str("browseHomeFeed") then
      match Get(data, "duration")
      case Failure(e) => Done(Thrown(e))
      case Success(d) => Perform(StartLoop(HomeFeed, Or(d, Num(10))))
    else if command == Str("stopAutoBrowse") then Perform(StopLoop)
    else if command == Str("scrollDown") then Perform(CallUndefined("scrollDown"))
    else if command == Str("scrollUp") then Perform(CallUndefined("scrollUp"))
    else if command == Str("scrollToTop") then Perform(ScrollToTop)
    else if command == Str("goHome") then Perform(GoHome)
    else if command == Str("refresh") then Perform(Refresh)
    else Done(Fail("Unknown command: " + ToJsString(command)))
  }

  /** Whether carrying out the request calls a page function. */
  predicate UsesPage(r: Request) {
    r.Search? || r.Login? || r.Logout? || r.CheckAuth? || r.ScrollToTop? || r.GoHome? || r.Refresh?
  }

  /** The result of a page call that returned `v`. */
  function PageResult(r: Request, v: Value): (res: CommandResult)
    requires UsesPage(r)
    ensures r.Search? || r.Login? || r.Logout? ==> res.success == v && res.data.None?
    ensures r.CheckAuth? || r.ScrollToTop? || r.GoHome? || r.Refresh? ==> res.success == Bool(true)
    ensures r.CheckAuth? <==> res.data.Some?
    ensures r.CheckAuth? ==> res.data == Some(Obj([Property("authenticated", Bool(Truthy(v))), Property("username", v)]))
    ensures r.Search? ==> (Truthy(v) <==> res.message == "Search performed for: " + ToJsString(r.query))
    ensures r.Login? ==> (Truthy(v) <==> res.message == "Login attempted")
    ensures r.Logout? ==> (Truthy(v) <==> res.message == "Logout performed")
  {
    match r
    case Search(q) =>
      CommandResult(v, if Truthy(v) then "Search performed for: " + ToJsString(q) else "Search failed", None)
    case Login(_, _) => CommandResult(v, if Truthy(v) then "Login attempted" else "Login failed", None)
    case Logout => CommandResult(v, if Truthy(v) then "Logout performed" else "Logout failed", None)
    case CheckAuth =>
      CommandResult(Bool(true), if Truthy(v) then "Authenticated as: " + ToJsString(v) else "Not authenticated",
                    Some(Obj([Property("authenticated", Bool(Truthy(v))), Property("username", v)])))
    case ScrollToTop => Ok("Scrolled to top")
    case GoHome => Ok("Navigating to Reddit home")
    case Refresh => Ok("Page refreshed")
  }

  /** Carries out a request on the session state. */
  function Execute(s: State, r: Request, env: Env): (out: (State, CommandResult))
    ensures !r.StartLoop? && !r.StopLoop? ==> out.0 == s
    ensures r.StopLoop? ==> out == (Stop(s), Ok("Auto browse stopped"))
    ensures r.StartLoop? ==>
      out.0 == Start(s, r.variant, ToNumber(r.minutes), env.now, env.actionDraw).0 &&
      out.1.success == Bool(!s.browsing) && out.1.data.None?
    ensures r.CallUndefined? ==> out.1 == Thrown(r.name + " is not defined")
    ensures UsesPage(r) && env.attempt.Raised? ==> out.1 == Thrown(env.attempt.message)
    ensures UsesPage(r) && env.attempt.Returned? ==> out.1 == PageResult(r, env.attempt.value)
  {
    match r
    case StartLoop(v, minutes) =>
      var started := Start(s, v, ToNumber(minutes), env.now, env.actionDraw);
      var message :=
        if started.1 then
          (if v == General then "Auto browse started for " else "Home feed browse started for ")
          + ToJsString(minutes) + " minutes"
        else if v == General then "Failed to start auto browse" else "Failed to start home feed browse";
      (started.0, CommandResult(Bool(started.1), message, None))
    case StopLoop => (Stop(s), Ok("Auto browse stopped"))
    case CallUndefined(name) => (s, Thrown(name + " is not defined"))
    case _ =>
      match env.attempt
      case Raised(m) => (s, Thrown(m))
      case Returned(v) => (s, PageResult(r, v))
  }

  /** `processApiCommand(commandObj)`: the new session state and the one report it sends. */
  function Process(s: State, cmd: RelayServer.Command, env: Env): (r: (State, Report))
    ensures r.1.commandId == cmd.id
    ensures Decode(cmd.command, Default(cmd.data, EmptyObject)).Done? ==> r.0 == s
  {
    match Decode(cmd.command, Default(cmd.data, EmptyObject))
    case Done(result) => (s, Report(cmd.id, result))
    case Perform(request) =>
      var (t, result) := Execute(s, request, env);
      (t, Report(cmd.id, result))
  }

  /** An unknown kind is reported as such and changes nothing. */
  lemma UnknownCommandReported(s: State, cmd: RelayServer.Command, env: Env)
    requires !IsKnownKind(cmd.command)
    ensures Process(s, cmd, env) == (s, Report(cmd.id, Fail("Unknown command: " + ToJsString(cmd.command))))
  {
  }

  /** A search without a truthy `query` fails without touching the page or the session. */
  lemma SearchNeedsQuery(s: State, id: string, data: Value, e1: Env, e2: Env)
    requires data.Obj? && !Truthy(Lookup(data.props, "query"))
    ensures var cmd := RelayServer.Command(id, Str("search"), data, 0, "pending");
            Process(s, cmd, e1) == Process(s, cmd, e2) == (s, Report(id, Fail("Query parameter required for search")))
  {
  }

  /** A login without both a truthy `email` and a truthy `password` fails without touching the page. */
  lemma LoginNeedsBothFields(s: State, id: string, data: Value, e1: Env, e2: Env)
    requires data.Obj?
    requires !(Truthy(Lookup(data.props, "email")) && Truthy(Lookup(data.props, "password")))
    ensures var cmd := RelayServer.Command(id, Str("login"), data, 0, "pending");
            Process(s, cmd, e1) == Process(s, cmd, e2) == (s, Report(id, Fail("Email and password required for login")))
  {
  }

  /** Search data with a non-empty string query reaches the page. */
  lemma QueryDecodes(query: string)
    requires query != []
    ensures Decode(Str("search"), Obj([Property("query", Str(query))])) == Perform(Search(Str(query)))
  {
    assert Get(Obj([Property("query", Str(query))]), "query") == Success(Str(query));
  }

  /** Login data with two non-empty string fields reaches the page. */
  lemma FilledLoginDecodes(email: string, password: string)
    requires email != [] && password != []
    ensures Decode(Str("login"), Obj([Property("email", Str(email)), Property("password", Str(password))]))
            == Perform(Login(Str(email), Str(password)))
  {
    var props := [Property("email", Str(email)), Property("password", Str(password))];
    assert Get(Obj(props), "email") == Success(Str(email));
    assert Get(Obj(props), "password") == Success(Str(password));
  }

  /** A command whose data is `null` and whose kind reads a field fails with the `TypeError`. */
  lemma NullDataThrows(s: State, id: string, kind: string, env: Env)
    requires kind in {"search", "login", "startAutoBrowse", "browseHomeFeed"}
    ensures var field := if kind == "search" then "query" else if kind == "login" then "email" else "duration";
            Process(s, RelayServer.Command(id, Str(kind), Null, 0, "pending"), env) ==
            (s, Report(id, Thrown("Cannot read properties of null (reading '" + field + "')")))
  {
  }

  /** Every error a page call throws becomes `{ success: false, message: "Error: …" }`, state untouched. */
  lemma ThrownErrorsAreReported(s: State, cmd: RelayServer.Command, m: string, now: int, d: real)
    requires Decode(cmd.command, Default(cmd.data, EmptyObject)).Perform?
    requires UsesPage(Decode(cmd.command, Default(cmd.data, EmptyObject)).request)
    ensures Process(s, cmd, Env(Raised(m), now, d)) == (s, Report(cmd.id, Thrown(m)))
  {
  }

  /** `scrollDown` and `scrollUp` name functions that do not exist, so they always fail. */
  lemma ScrollDownUpAlwaysFail(s: State, cmd: RelayServer.Command, env: Env)
    requires cmd.command == Str("scrollDown") || cmd.command == Str("scrollUp")
    ensures Process(s, cmd, env).0 == s
    ensures Process(s, cmd, env).1.result ==
      Thrown((if cmd.command == Str("scrollDown") then "scrollDown" else "scrollUp") + " is not defined")
    ensures Process(s, cmd, env).1.result.success == Bool(false)
  {
  }

  /** `checkAuth` reads no field of the data and always calls the page. */
  lemma CheckAuthDecodes(data: Value)
    ensures Decode(Str("checkAuth"), data) == Perform(CheckAuth)
  {
  }

  /**
   * `checkAuth` always reports success; since `checkAuthentication` resolves
   * an object whether or not a user is logged in, the message names
   * `[object Object]`.
   */
  lemma CheckAuthAlwaysSucceeds(s: State, id: string, data: Value, env: Env)
    requires env.attempt.Returned?
    ensures var r := Process(s, RelayServer.Command(id, Str("checkAuth"), data, 0, "pending"), env);
            r.0 == s && r.1.result.success == Bool(true) &&
            r.1.result.data == Some(Obj([Property("authenticated", Bool(Truthy(env.attempt.value))), Property("username", env.attempt.value)]))
  {
    CheckAuthDecodes(Default(data, EmptyObject));
  }

  /** What the message reads when the adapter resolves an object. */
  lemma CheckAuthNamesObject(s: State, id: string, data: Value, props: seq<Property>, now: int, d: real)
    ensures Process(s, RelayServer.Command(id, Str("checkAuth"), data, 0, "pending"), Env(Returned(Obj(props)), now, d)).1.result.message
            == "Authenticated as: [object Object]"
  {
    CheckAuthDecodes(Default(data, EmptyObject));
    assert Process(s, RelayServer.Command(id, Str("checkAuth"), data, 0, "pending"), Env(Returned(Obj(props)), now, d)).1.result
           == PageResult(CheckAuth, Obj(props));
    ObjectMessage(props);
  }

  lemma ObjectMessage(props: seq<Property>)
    ensures "Authenticated as: " + ToJsString(Obj(props)) == "Authenticated as: [object Object]"
  {
  }

  /** `logout` reports the adapter's resolved object itself as `success`. */
  lemma LogoutReportsObject(s: State, id: string, data: Value, props: seq<Property>, now: int, d: real)
    ensures Process(s, RelayServer.Command(id, Str("logout"), data, 0, "pending"), Env(Returned(Obj(props)), now, d)) ==
      (s, Report(id, CommandResult(Obj(props), "Logout performed", None)))
  {
  }

  /** A loop started with a positive whole number of minutes while none runs. */
  lemma StartLoopSucceeds(s: State, v: Variant, n: int, env: Env)
    requires !s.browsing && n > 0
    ensures var r := Execute(s, StartLoop(v, Num(n)), env);
            r.0.browsing && r.0.duration == Some(n * 60000) &&
            r.1 == Ok((if v == General then "Auto browse started for " else "Home feed browse started for ")
                      + IntToString(n) + " minutes")
  {
  }

  /** The duration field, absent or falsy, decoded for either browse kind. */
  lemma DefaultDurationDecodes(d: Value)
    requires !Truthy(d)
    ensures Decode(Str("startAutoBrowse"), Obj([Property("duration", d)])) == Perform(StartLoop(General, Num(5)))
    ensures Decode(Str("browseHomeFeed"), Obj([Property("duration", d)])) == Perform(StartLoop(HomeFeed, Num(10)))
  {
  }

  /** A missing or falsy duration means 5 minutes for `startAutoBrowse`. */
  lemma AutoBrowseDefaultsToFive(s: State, id: string, d: Value, env: Env)
    requires !Truthy(d) && !s.browsing
    ensures var r := Process(s, RelayServer.Command(id, Str("startAutoBrowse"), Obj([Property("duration", d)]), 0, "pending"), env);
            r.0.duration == Some(5 * 60000) && r.1.result == Ok("Auto browse started for 5 minutes")
  {
    DefaultDurationDecodes(d);
    StartLoopSucceeds(s, General, 5, env);
    StartedMessages();
  }

  /** A missing or falsy duration means 10 minutes for `browseHomeFeed`. */
  lemma HomeFeedDefaultsToTen(s: State, id: string, d: Value, env: Env)
    requires !Truthy(d) && !s.browsing
    ensures var r := Process(s, RelayServer.Command(id, Str("browseHomeFeed"), Obj([Property("duration", d)]), 0, "pending"), env);
            r.0.duration == Some(10 * 60000) && r.1.result == Ok("Home feed browse started for 10 minutes")
  {
    DefaultDurationDecodes(d);
    StartLoopSucceeds(s, HomeFeed, 10, env);
    StartedMessages();
  }

  lemma StartedMessages()
    ensures "Auto browse started for " + IntToString(5) + " minutes" == "Auto browse started for 5 minutes"
    ensures "Home feed browse started for " + IntToString(10) + " minutes" == "Home feed browse started for 10 minutes"
  {
    assert IntToString(5) == "5" by { assert NatToString(5) == [DigitChar(5)]; }
    assert IntToString(10) == "10" by {
      assert NatToString(10) == NatToString(1) + [DigitChar(0)];
    }
  }

  /** A start while either loop runs is refused and leaves the session as it was. */
  lemma StartWhileBrowsingRefused(s: State, cmd: RelayServer.Command, env: Env)
    requires s.browsing
    requires cmd.command == Str("startAutoBrowse") || cmd.command == Str("browseHomeFeed")
    requires cmd.data.Obj?
    ensures Process(s, cmd, env).0 == s
    ensures Process(s, cmd, env).1.result ==
      Fail(if cmd.command == Str("startAutoBrowse") then "Failed to start auto browse" else "Failed to start home feed browse")
  {
  }

  // ---------------------------------------------------------------------
  // Batches

  /** The drained batch processed in order, each command seeing the state its predecessors left. */
  function RunBatch(s: State, cmds: seq<RelayServer.Command>, envs: seq<Env>): (r: (State, seq<Report>))
    requires |envs| == |cmds|
    decreases |cmds|
  {
    if |cmds| == 0 then (s, [])
    else
      var prefix := RunBatch(s, cmds[..|cmds| - 1], envs[..|envs| - 1]);
      var last := Process(prefix.0, cmds[|cmds| - 1], envs[|envs| - 1]);
      (last.0, prefix.1 + [last.1])
  }

  /** A batch one command longer is the shorter batch followed by that command. */
  lemma RunBatchStep(s: State, cmds: seq<RelayServer.Command>, envs: seq<Env>, i: nat)
    requires |envs| == |cmds| && i < |cmds|
    ensures var prefix := RunBatch(s, cmds[..i], envs[..i]);
            var last := Process(prefix.0, cmds[i], envs[i]);
            RunBatch(s, cmds[..i + 1], envs[..i + 1]) == (last.0, prefix.1 + [last.1])
  {
    assert cmds[..i + 1][..i] == cmds[..i];
    assert envs[..i + 1][..i] == envs[..i];
  }

  /** Exactly one report per command, in the batch's order, each under its command's id. */
  lemma {:induction false} OneReportPerCommand(s: State, cmds: seq<RelayServer.Command>, envs: seq<Env>)
    requires |envs| == |cmds|
    ensures |RunBatch(s, cmds, envs).1| == |cmds|
    ensures forall k :: 0 <= k < |cmds| ==> RunBatch(s, cmds, envs).1[k].commandId == cmds[k].id
    decreases |cmds|
  {
    if |cmds| > 0 {
      var n := |cmds| - 1;
      OneReportPerCommand(s, cmds[..n], envs[..n]);
      var prefix := RunBatch(s, cmds[..n], envs[..n]);
      var last := Process(prefix.0, cmds[n], envs[n]);
      RunBatchStep(s, cmds, envs, n);
      assert cmds[..n + 1] == cmds && envs[..n + 1] == envs;
      AppendedIds(prefix.1, last.1, cmds);
    }
  }

  /** Appending the report of the last command to those of the others keeps reports and ids aligned. */
  lemma AppendedIds(reports: seq<Report>, last: Report, cmds: seq<RelayServer.Command>)
    requires |cmds| == |reports| + 1 && last.commandId == cmds[|reports|].id
    requires forall k :: 0 <= k < |reports| ==> reports[k].commandId == cmds[..|reports|][k].id
    ensures forall k :: 0 <= k < |cmds| ==> (reports + [last])[k].commandId == cmds[k].id
  {
    assert forall k :: 0 <= k < |reports| ==> cmds[..|reports|][k] == cmds[k];
  }

  /** What the relay's poll endpoint answered. */
  datatype PollResponse =
    | Unreachable(reason: string)
    | HttpError(status: int)
    | Body(success: Value, commands: seq<RelayServer.Command>)

  /** The commands a poll response makes the script process: none unless `success && commands.length > 0`. */
  function Received(response: PollResponse): seq<RelayServer.Command> {
    if response.Body? && Truthy(response.success) then response.commands else []
  }

  // ---------------------------------------------------------------------
  // The popup message path

  /**
   * The popup's `startAutoBrowse`, `browseHomeFeed` and `stopAutoBrowse`
   * messages, with `request.data || {}` and `data.duration || 5` for both
   * browse kinds; `None` for the other kinds, which are not part of this model.
   */
  function HandleMessage(s: State, command: string, rawData: Value, now: int, actionDraw: real): (r: Option<(State, CommandResult)>)
    ensures r.Some? <==> command == "startAutoBrowse" || command == "browseHomeFeed" || command == "stopAutoBrowse"
    ensures command == "stopAutoBrowse" ==> r == Some((Stop(s), Ok("Auto browse stopped")))
    ensures r.Some? && command != "stopAutoBrowse" && s.browsing ==>
      r.value == (s, CommandResult(Bool(false),
        if command == "startAutoBrowse" then "Auto browse already running" else "Browse already running", None))
    ensures r.Some? && command != "stopAutoBrowse" && !s.browsing ==>
      r.value.1.success == Bool(true) && r.value.0.startTime == now
  {
    var data := Or(rawData, EmptyObject);
    if command == "startAutoBrowse" || command == "browseHomeFeed" then
      var minutes := Or(Get(data, "duration").value, Num(5));
      var v := if command == "startAutoBrowse" then General else HomeFeed;
      var started := Start(s, v, ToNumber(minutes), now, actionDraw);
      var message :=
        if started.1 then
          (if v == General then "Auto browse started for " else "Home feed browse started for ")
          + ToJsString(minutes) + " minutes"
        else if v == General then "Auto browse already running" else "Browse already running";
      Some((started.0, CommandResult(Bool(started.1), message, None)))
    else if command == "stopAutoBrowse" then Some((Stop(s), Ok("Auto browse stopped")))
    else None
  }

  /** A popup browse message without data means 5 minutes, for either kind. */
  lemma PopupDefaultsToFive(s: State, command: string, now: int, d: real)
    requires !s.browsing && (command == "startAutoBrowse" || command == "browseHomeFeed")
    ensures var r := HandleMessage(s, command, EmptyObject, now, d);
            r.Some? && r.value.0 == Start(s, if command == "startAutoBrowse" then General else HomeFeed, Some(5), now, d).0
            && r.value.0.duration == Some(300000)
  {
  }

  /** A popup browse message with a non-zero number of minutes starts an idle session for that many. */
  lemma PopupStartsFor(s: State, command: string, m: int, now: int, d: real)
    requires !s.browsing && m != 0 && (command == "startAutoBrowse" || command == "browseHomeFeed")
    ensures var r := HandleMessage(s, command, Obj([Property("duration", Num(m))]), now, d);
            r.Some? && r.value.0.duration == Some(m * 60000)
  {
    var data := Obj([Property("duration", Num(m))]);
    assert Or(data, EmptyObject) == data;
    assert Get(data, "duration") == Success(Num(m));
    assert Or(Num(m), Num(5)) == Num(m);
  }

  /**
   * The same home-feed request lasts 5 minutes from the popup and 10 from
   * the relay when no duration is given; the general loop lasts 5 either way.
   */
  lemma HomeFeedDefaultsDiffer(s: State, id: string, now: int, d: real)
    requires !s.browsing
    ensures var viaPopup := HandleMessage(s, "browseHomeFeed", EmptyObject, now, d);
            var viaRelay := Process(s, RelayServer.Command(id, Str("browseHomeFeed"), EmptyObject, 0, "pending"), Env(Returned(Undefined), now, d));
            viaPopup.Some? && viaPopup.value.0.duration == Some(300000) && viaRelay.0.duration == Some(600000)
  {
    PopupDefaultsToFive(s, "browseHomeFeed", now, d);
    HomeFeedDefaultsToTen(s, id, Undefined, Env(Returned(Undefined), now, d));
    EmptyIsUndefinedDuration(Str("browseHomeFeed"));
  }

  /** Data `{}` decodes as data whose `duration` is `undefined`. */
  lemma EmptyIsUndefinedDuration(command: Value)
    ensures Decode(command, EmptyObject) == Decode(command, Obj([Property("duration", Undefined)]))
  {
    assert Lookup([], "duration") == Lookup([Property("duration", Undefined)], "duration");
  }

  /** Without a duration the general loop gets the same session from either path. */
  lemma AutoBrowseDefaultsAgree(s: State, id: string, now: int, d: real)
    requires !s.browsing
    ensures var viaPopup := HandleMessage(s, "startAutoBrowse", EmptyObject, now, d);
            var viaRelay := Process(s, RelayServer.Command(id, Str("startAutoBrowse"), EmptyObject, 0, "pending"), Env(Returned(Undefined), now, d));
            viaPopup.Some? && viaPopup.value.0 == viaRelay.0
  {
    PopupDefaultsToFive(s, "startAutoBrowse", now, d);
    assert Decode(Str("startAutoBrowse"), EmptyObject) == Perform(StartLoop(General, Num(5)));
  }

  // ---------------------------------------------------------------------
  // The script's module-level state

  /** The period `setInterval(pollApiCommands, 2000)` runs at. */
  const PollPeriod: int := 2000

  class ContentScript {
    var autoBrowsing: bool
    var browseStartTime: int
    var browseDuration: Option<int>
    var autoBrowseTimeout: Option<Timer>
    var isApiPollingActive: bool
    var apiPollingInterval: Option<int>

    /** The browsing session these variables hold. */
    function Browse(): State
      reads this
    {
      State(autoBrowsing, browseStartTime, browseDuration, autoBrowseTimeout)
    }

    /** The polling flag and the interval handle go up and down together. */
    predicate PollingValid()
      reads this
    {
      isApiPollingActive <==> apiPollingInterval.Some?
    }

    /** Before the script's last statement runs `startApiPolling()`. */
    constructor ()
      ensures Browse() == Initial && !isApiPollingActive && apiPollingInterval.None?
    {
      autoBrowsing, browseStartTime, browseDuration, autoBrowseTimeout := false, 0, None, None;
      isApiPollingActive, apiPollingInterval := false, None;
    }

    method SetBrowse(s: State)
      modifies this
      ensures Browse() == s
      ensures isApiPollingActive == old(isApiPollingActive) && apiPollingInterval == old(apiPollingInterval)
    {
      autoBrowsing, browseStartTime, browseDuration, autoBrowseTimeout := s.browsing, s.startTime, s.duration, s.timer;
    }

    /** `startAutoBrowse(minutes)` or `startHomeFeedBrowse(minutes)`, with the first iteration's synchronous part. */
    method StartBrowsing(v: Variant, minutes: Value, now: int, actionDraw: real) returns (started: bool, action: Option<Action>)
      modifies this
      ensures (Browse(), started, action) == Start(old(Browse()), v, ToNumber(minutes), now, actionDraw)
      ensures isApiPollingActive == old(isApiPollingActive) && apiPollingInterval == old(apiPollingInterval)
    {
      var r := Start(Browse(), v, ToNumber(minutes), now, actionDraw);
      SetBrowse(r.0);
      started, action := r.1, r.2;
    }

    /** `stopAutoBrowse()`. */
    method StopAutoBrowse()
      modifies this
      ensures Browse() == Stop(old(Browse()))
      ensures !autoBrowsing && autoBrowseTimeout.None?
      ensures isApiPollingActive == old(isApiPollingActive) && apiPollingInterval == old(apiPollingInterval)
    {
      autoBrowsing := false;
      if autoBrowseTimeout.Some? {
        autoBrowseTimeout := None;
      }
    }

    /** The loop's timer fires at `now`: the synchronous part of an iteration. */
    method FireBrowseTimer(v: Variant, now: int, actionDraw: real) returns (action: Option<Action>)
      modifies this
      ensures (Browse(), action) == Begin(old(Browse()), v, now, actionDraw)
      ensures isApiPollingActive == old(isApiPollingActive) && apiPollingInterval == old(apiPollingInterval)
    {
      var r := Begin(Browse(), v, now, actionDraw);
      SetBrowse(r.0);
      action := r.1;
    }

    /**
     * The first awaited action of an iteration settled. `extraScroll` says
     * whether the iteration goes on to its extra `scrollMainPage`.
     */
    method SettleAction(v: Variant, outcome: Outcome, pauseDraw: real) returns (extraScroll: bool)
      requires IsDraw(pauseDraw)
      modifies this
      ensures (Browse(), extraScroll) == AfterAction(old(Browse()), v, outcome, pauseDraw)
      ensures isApiPollingActive == old(isApiPollingActive) && apiPollingInterval == old(apiPollingInterval)
    {
      var r := AfterAction(Browse(), v, outcome, pauseDraw);
      SetBrowse(r.0);
      extraScroll := r.1;
    }

    /** The extra `scrollMainPage` of an iteration settled: the next iteration is scheduled. */
    method SettleExtraScroll(v: Variant, outcome: Outcome, pauseDraw: real)
      requires IsDraw(pauseDraw)
      modifies this
      ensures Browse() == AfterExtraScroll(old(Browse()), v, outcome, pauseDraw)
      ensures isApiPollingActive == old(isApiPollingActive) && apiPollingInterval == old(apiPollingInterval)
    {
      SetBrowse(AfterExtraScroll(Browse(), v, outcome, pauseDraw));
    }

    /**
     * `startApiPolling()`: always answers true and never arms a second
     * interval. A first start arms the 2000 ms interval and polls at once;
     * that immediate poll answers `response`.
     */
    method StartApiPolling(response: PollResponse, envs: seq<Env>) returns (ok: bool, reports: seq<Report>)
      requires PollingValid() && |envs| == |Received(response)|
      modifies this
      ensures PollingValid() && ok && isApiPollingActive
      ensures old(isApiPollingActive) ==>
        apiPollingInterval == old(apiPollingInterval) && reports == [] && Browse() == old(Browse())
      ensures !old(isApiPollingActive) ==>
        apiPollingInterval == Some(PollPeriod) &&
        (Browse(), reports) == RunBatch(old(Browse()), Received(response), envs)
    {
      ok, reports := true, [];
      if isApiPollingActive {
        return;
      }
      isApiPollingActive := true;
      apiPollingInterval := Some(PollPeriod);
      reports := PollApiCommands(response, envs);
    }

    /** `stopApiPolling()`: nothing when inactive, otherwise both go down. */
    method StopApiPolling()
      requires PollingValid()
      modifies this
      ensures PollingValid() && !isApiPollingActive && apiPollingInterval.None?
      ensures Browse() == old(Browse())
    {
      if !isApiPollingActive {
        return;
      }
      isApiPollingActive := false;
      if apiPollingInterval.Some? {
        apiPollingInterval := None;
      }
    }

    /** `processApiCommand(cmd)`: updates the session and returns the one report it sends. */
    method ProcessApiCommand(cmd: RelayServer.Command, env: Env) returns (report: Report)
      modifies this
      ensures (Browse(), report) == Process(old(Browse()), cmd, env)
      ensures report.commandId == cmd.id
      ensures isApiPollingActive == old(isApiPollingActive) && apiPollingInterval == old(apiPollingInterval)
    {
      var r := Process(Browse(), cmd, env);
      SetBrowse(r.0);
      report := r.1;
    }

    /**
     * `pollApiCommands()`: nothing while polling is off; a failed fetch or
     * an error status is swallowed; otherwise every received command is
     * processed in order, one report each.
     */
    method PollApiCommands(response: PollResponse, envs: seq<Env>) returns (reports: seq<Report>)
      requires |envs| == |Received(response)|
      modifies this
      ensures !old(isApiPollingActive) ==> reports == [] && Browse() == old(Browse())
      ensures old(isApiPollingActive) ==>
        (Browse(), reports) == RunBatch(old(Browse()), Received(response), envs)
      ensures |reports| == (if old(isApiPollingActive) then |Received(response)| else 0)
      ensures isApiPollingActive == old(isApiPollingActive) && apiPollingInterval == old(apiPollingInterval)
    {
      reports := [];
      if !isApiPollingActive {
        return;
      }
      var commands := Received(response);
      var i := 0;
      while i < |commands|
        invariant 0 <= i <= |commands|
        invariant (Browse(), reports) == RunBatch(old(Browse()), commands[..i], envs[..i])
        invariant isApiPollingActive == old(isApiPollingActive) && apiPollingInterval == old(apiPollingInterval)
      {
        RunBatchStep(old(Browse()), commands, envs, i);
        var report := ProcessApiCommand(commands[i], envs[i]);
        reports := reports + [report];
        i := i + 1;
      }
      assert commands[..i] == commands && envs[..i] == envs;
      OneReportPerCommand(old(Browse()), commands, envs);
    }
  }

  /** An error of the transport or of the relay processes nothing and changes nothing. */
  lemma TransportErrorsSwallowed(response: PollResponse)
    requires response.Unreachable? || response.HttpError?
    ensures Received(response) == []
  {
  }
}
