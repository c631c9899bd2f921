/**
 * The command-line test client of the relay: how the interactive loop turns
 * a typed line into a local action or a command to send, and how
 * command-line mode turns the program arguments into one command. The HTTP
 * calls of `sendCommand`, `checkStatus`, `getHistory` and
 * `getAvailableCommands`, the console output and the `readline` prompts
 * are not part of this model; a prompt's answers become parameters.
 */
module TestClient {
  import opened Wrappers
  import opened Text
  import opened JsValues
  import Session
  import Agent

  /** What one typed line makes the interactive loop do. */
  datatype LineAction =
    | Quit
    | ShowStatus
    | ShowHistory
    | ShowCommands
    | ShowHelp
    | SearchUsage
    | PromptLogin
    | Send(command: string, data: Value)
    | UnknownHint(name: string)
    | Nothing

  /** `parseInt(s)` as a value: the number read, or NaN. */
  function ParsedNumber(s: string): Value {
    match ParseInt(s)
    case None => NaN
    case Some(n) => Num(n)
  }

  /** The `switch (command)` of an interactive line, given its lowercased first word and the other words. */
  function Dispatch(command: string, args: seq<string>): (a: LineAction)
    ensures a.Quit? <==> command == "quit" || command == "exit"
    ensures a.Nothing? <==> command == []
    ensures a.Send? && a.data != EmptyObject ==> command == "search" || command == "startbrowse"
    ensures command == "search" ==> (a.SearchUsage? <==> |args| == 0)
    ensures command == "startbrowse" && |args| == 0 ==> a == Send("startAutoBrowse", Obj([Property("duration", Num(5))]))
  {
    if command == "quit" || command == "exit" then Quit
    else if command == "status" then ShowStatus
    else if command == "history" then ShowHistory
    else if command == "commands" then ShowCommands
    else if command == "help" then ShowHelp
    else if command == "search" then
      if |args| == 0 then SearchUsage
      else Send("search", Obj([Property("query", Str(Join(args, " ")))]))
    else if command == "login" then PromptLogin
    else if command == "startbrowse" then
      Send("startAutoBrowse", Obj([Property("duration", if |args| > 0 then ParsedNumber(args[0]) else Num(5))]))
    else if command == "logout" then Send("logout", EmptyObject)
    else if command == "checkauth" then Send("checkAuth", EmptyObject)
    else if command == "stopbrowse" then Send("stopAutoBrowse", EmptyObject)
    else if command == "scrolldown" then Send("scrollDown", EmptyObject)
    else if command == "scrollup" then Send("scrollUp", EmptyObject)
    else if command == "gohome" then Send("goHome", EmptyObject)
    else if command == "refresh" then Send("refresh", EmptyObject)
    else if command != [] then UnknownHint(command)
    else Nothing
  }

  /**
   * One typed line: trimmed, split at every single space (so runs of
   * spaces leave empty words), the first word lowercased.
   */
  function DecodeLine(input: string): (a: LineAction)
    ensures Trim(input) == [] ==> a == Nothing
    ensures a.Send? ==> Agent.IsKnownKind(Str(a.command))
  {
    var parts := Words(input);
    EverySendIsKnown(ToLower(parts[0]), parts[1..]);
    Dispatch(ToLower(parts[0]), parts[1..])
  }

  /** `input.trim().split(' ')`. */
  function Words(input: string): (parts: seq<string>)
    ensures |parts| >= 1
  {
    Split(Trim(input), ' ')
  }

  /** The client only ever sends kinds the content script handles. */
  lemma EverySendIsKnown(command: string, args: seq<string>)
    ensures Dispatch(command, args).Send? ==> Agent.IsKnownKind(Str(Dispatch(command, args).command))
  {
  }

  /** The words the help text lists, each a command the loop recognises. */
  const HelpNames: set<string> :=
    {"search", "login", "logout", "checkauth", "startbrowse", "stopbrowse", "scrolldown", "scrollup",
     "gohome", "refresh", "status", "history", "commands", "quit"}

  /**
   * A first word gets the unknown-command hint exactly when it is neither
   * empty, nor listed in the help, nor one of the two unlisted words
   * `help` and `exit`.
   */
  lemma UnknownExactlyOffTheHelp(command: string, args: seq<string>)
    ensures Dispatch(command, args).UnknownHint? <==> command != [] && command !in HelpNames + {"help", "exit"}
    ensures Dispatch(command, args).UnknownHint? ==> Dispatch(command, args).name == command
    ensures Dispatch(command, args).Nothing? <==> command == []
  {
  }

  /**
   * A line that is a first word, one space and trimmed rest is decided by
   * the lowercased word and the words of the rest; so the case of the
   * first word never matters.
   */
  lemma FirstWordSelects(w: string, rest: string)
    requires w != [] && ' ' !in w && !IsJsWhitespace(w[0])
    requires rest != [] && !IsJsWhitespace(rest[0]) && !IsJsWhitespace(rest[|rest| - 1])
    ensures Words(w + " " + rest) == [w] + Split(rest, ' ')
    ensures DecodeLine(w + " " + rest) == Dispatch(ToLower(w), Split(rest, ' '))
  {
    var line := w + " " + rest;
    assert line[0] == w[0] && line[|line| - 1] == rest[|rest| - 1];
    TrimOfTrimmed(line);
    SplitAtFirst(w, ' ', rest);
    assert w + [' '] + rest == line;
    assert Words(line) == [w] + Split(rest, ' ');
    DecodeByWords(line, w, Split(rest, ' '));
  }

  /** A line of one word is decided by the lowercased word alone. */
  lemma SingleWordSelects(w: string)
    requires w != [] && ' ' !in w && !IsJsWhitespace(w[0]) && !IsJsWhitespace(w[|w| - 1])
    ensures Words(w) == [w]
    ensures DecodeLine(w) == Dispatch(ToLower(w), [])
  {
    TrimOfTrimmed(w);
    assert Words(w) == [w] + [];
    DecodeByWords(w, w, []);
  }

  /** A line is decided by its first word, lowercased, and its other words. */
  lemma DecodeByWords(input: string, w: string, args: seq<string>)
    requires Words(input) == [w] + args
    ensures DecodeLine(input) == Dispatch(ToLower(w), args)
  {
    assert Words(input)[0] == w;
    assert Words(input)[1..] == args;
  }

  /**
   * A search line sends exactly the trimmed line after its first space,
   * which is never empty, so the content script goes on to search for it;
   * with no space it only prints the usage.
   */
  lemma SearchQueryIsRestOfLine(input: string)
    requires ToLower(Words(input)[0]) == "search"
    ensures var t := Trim(input);
            (' ' !in t ==> DecodeLine(input) == SearchUsage) &&
            (' ' in t ==>
               var q := t[IndexOf(t, ' ') + 1..];
               q != [] && DecodeLine(input) == Send("search", Obj([Property("query", Str(q))])) &&
               Agent.Decode(Str("search"), DecodeLine(input).data) == Agent.Perform(Agent.Search(Str(q))))
  {
    var t := Trim(input);
    if ' ' in t {
      SearchWithQuery(input);
    } else {
      assert |Words(input)| == 1;
      assert DecodeLine(input) == Dispatch("search", []);
    }
  }

  lemma SearchWithQuery(input: string)
    requires ToLower(Words(input)[0]) == "search" && ' ' in Trim(input)
    ensures var t := Trim(input);
            var q := t[IndexOf(t, ' ') + 1..];
            q != [] && DecodeLine(input) == Send("search", Obj([Property("query", Str(q))])) &&
            Agent.Decode(Str("search"), DecodeLine(input).data) == Agent.Perform(Agent.Search(Str(q)))
  {
    var t := Trim(input);
    var i := IndexOf(t, ' ');
    assert t[|t| - 1] != ' ';
    var q := t[i + 1..];
    assert q != [] by { assert i < |t| - 1; }
    var parts := Words(input);
    assert parts == Split(t, ' ');
    RestAfterFirst(t, ' ');
    var args := parts[1..];
    assert Join(args, " ") == q;
    assert |args| > 0;
    DispatchSearch(args);
    Agent.QueryDecodes(q);
  }

  /** A `search` with words after it sends them joined by spaces. */
  lemma DispatchSearch(args: seq<string>)
    requires |args| > 0
    ensures Dispatch("search", args) == Send("search", Obj([Property("query", Str(Join(args, " ")))]))
  {
    assert "search"[1] == 'e' && "status"[1] == 't';
    assert "search" != "quit" && "search" != "exit" && "search" != "status";
    assert "search" != "history" && "search" != "commands" && "search" != "help";
  }

  /** `startbrowse` with no argument asks for 5 minutes. */
  lemma StartBrowseDefaultsToFive(input: string)
    requires ToLower(Words(input)[0]) == "startbrowse" && ' ' !in Trim(input)
    ensures DecodeLine(input) == Send("startAutoBrowse", Obj([Property("duration", Num(5))]))
  {
  }

  /** `startbrowse n` asks for `n` minutes, whatever the case of the word. */
  lemma StartBrowseReadsNumber(w: string, n: int)
    requires w != [] && ' ' !in w && !IsJsWhitespace(w[0]) && ToLower(w) == "startbrowse"
    ensures DecodeLine(w + " " + IntToString(n)) == Send("startAutoBrowse", Obj([Property("duration", Num(n))]))
  {
    NumeralIsOneWord(n);
    FirstWordSelects(w, IntToString(n));
    StartBrowseNumeral(n);
  }

  lemma StartBrowseNumeral(n: int)
    ensures Dispatch("startbrowse", [IntToString(n)]) == Send("startAutoBrowse", Obj([Property("duration", Num(n))]))
  {
    IntToStringParses(n);
  }

  /** The decimal text of a number is one word. */
  lemma NumeralIsOneWord(n: int)
    ensures var d := IntToString(n);
            d != [] && ' ' !in d && !IsJsWhitespace(d[0]) && !IsJsWhitespace(d[|d| - 1]) && Split(d, ' ') == [d]
  {
    var d := IntToString(n);
    var m: nat := if n < 0 then -n else n;
    var r := NatToString(m);
    assert d == (if n < 0 then "-" + r else r);
    assert forall k :: 0 <= k < |d| ==> d[k] == '-' || IsDecimalDigit(d[k]);
  }

  /** `startbrowse` with one argument sends whatever `parseInt` makes of it, NaN included. */
  lemma StartBrowseSendsParsed(w: string, arg: string)
    requires w != [] && ' ' !in w && !IsJsWhitespace(w[0]) && ToLower(w) == "startbrowse"
    requires arg != [] && ' ' !in arg && !IsJsWhitespace(arg[0]) && !IsJsWhitespace(arg[|arg| - 1])
    ensures DecodeLine(w + " " + arg) == Send("startAutoBrowse", Obj([Property("duration", ParsedNumber(arg))]))
  {
    FirstWordSelects(w, arg);
    assert Split(arg, ' ') == [arg];
    StartBrowseArgument(arg);
  }

  lemma StartBrowseArgument(arg: string)
    ensures Dispatch("startbrowse", [arg]) == Send("startAutoBrowse", Obj([Property("duration", ParsedNumber(arg))]))
  {
  }

  /**
   * An argument `parseInt` cannot read is sent as NaN, with no fallback to
   * 5; the content script's own `|| 5` then starts a 5-minute loop.
   */
  lemma UnreadableDurationRunsFive(arg: string)
    requires ParseInt(arg).None?
    ensures ParsedNumber(arg) == NaN
    ensures Agent.Decode(Str("startAutoBrowse"), Obj([Property("duration", ParsedNumber(arg))]))
            == Agent.Perform(Agent.StartLoop(Session.General, Num(5)))
  {
    Agent.DefaultDurationDecodes(NaN);
  }

  /** The interactive `login` prompts for a username and a password and sends them untrimmed. */
  function LoginAnswered(username: string, password: string): LineAction {
    Send("login", Obj([Property("email", Str(username)), Property("password", Str(password))]))
  }

  /** A prompted login reaches the page exactly when both answers are non-empty. */
  lemma PromptedLoginChecked(username: string, password: string)
    ensures var d := Agent.Decode(Str("login"), LoginAnswered(username, password).data);
            (username != [] && password != [] ==> d == Agent.Perform(Agent.Login(Str(username), Str(password)))) &&
            (username == [] || password == [] ==> d == Agent.Done(Agent.Fail("Email and password required for login")))
  {
    if username != [] && password != [] {
      Agent.FilledLoginDecodes(username, password);
    } else {
      var props := [Property("email", Str(username)), Property("password", Str(password))];
      assert Lookup(props, "email") == Str(username);
      assert Lookup(props, "password") == Str(password);
    }
  }

  // ---------------------------------------------------------------------
  // Command-line mode

  /** What the program arguments after the script name select. */
  datatype Mode = Interactive | Demo | OneShot(command: string, data: Value)

  /** The three commands demo mode sends, in order, with pauses between them. */
  const DemoCommands: seq<LineAction> :=
    [Send("checkAuth", EmptyObject),
     Send("search", Obj([Property("query", Str("javascript tutorials"))])),
     Send("scrollDown", EmptyObject)]

  /**
   * No arguments start the interactive loop, `demo` the demo; anything
   * else is sent as typed, with a `query` for `search` and a `duration`
   * for `startAutoBrowse` when a truthy second argument is given.
   */
  function DecodeArgs(args: seq<string>): (m: Mode)
    ensures |args| == 0 <==> m.Interactive?
    ensures m.Demo? <==> |args| > 0 && args[0] == "demo"
    ensures m.OneShot? <==> |args| > 0 && args[0] != "demo"
    ensures m.OneShot? ==> m.command == args[0] && m.data.Obj? && |m.data.props| <= 1
    ensures m.OneShot? && m.command == "search" && |args| > 1 && args[1] != [] ==>
      m.data == Obj([Property("query", Str(Join(args[1..], " ")))])
    ensures m.OneShot? && m.command == "startAutoBrowse" && |args| > 1 && args[1] != [] ==>
      m.data == Obj([Property("duration", ParsedNumber(args[1]))])
    ensures m.OneShot? && !((m.command == "search" || m.command == "startAutoBrowse") && |args| > 1 && args[1] != []) ==>
      m.data == EmptyObject
  {
    if |args| == 0 then Interactive
    else if args[0] == "demo" then Demo
    else
      var command := args[0];
      var data :=
        if command == "search" && |args| > 1 && args[1] != [] then Obj([Property("query", Str(Join(args[1..], " ")))])
        else if command == "startAutoBrowse" && |args| > 1 && args[1] != [] then Obj([Property("duration", ParsedNumber(args[1]))])
        else EmptyObject;
      OneShot(command, data)
  }

  /** A command-line search with a second argument sends every later argument joined by spaces. */
  lemma CommandLineSearchJoins(query: seq<string>)
    requires |query| >= 1 && query[0] != []
    ensures var m := DecodeArgs(["search"] + query);
            m == OneShot("search", Obj([Property("query", Str(Join(query, " ")))])) &&
            Agent.Decode(Str("search"), m.data) == Agent.Perform(Agent.Search(Str(Join(query, " "))))
  {
    var args := ["search"] + query;
    assert args[1..] == query;
    JoinStartsWithFirst(query, " ");
    Agent.QueryDecodes(Join(query, " "));
  }

  /** A join starts with its first part. */
  lemma JoinStartsWithFirst(parts: seq<string>, sep: string)
    requires |parts| >= 1
    ensures |Join(parts, sep)| >= |parts[0]| && Join(parts, sep)[..|parts[0]|] == parts[0]
  {
    if |parts| > 1 {
      assert Join(parts, sep) == parts[0] + (sep + Join(parts[1..], sep));
    }
  }

  /** A command-line search without a query sends `{}`, which the content script refuses. */
  lemma CommandLineSearchWithoutQuery(rest: seq<string>)
    requires rest == [] || rest[0] == []
    ensures var m := DecodeArgs(["search"] + rest);
            m == OneShot("search", EmptyObject) &&
            Agent.Decode(Str("search"), m.data) == Agent.Done(Agent.Fail("Query parameter required for search"))
  {
    var args := ["search"] + rest;
    assert |args| > 1 ==> args[1] == rest[0];
  }

  /** `startAutoBrowse n` on the command line sends `n`. */
  lemma CommandLineDuration(n: int, rest: seq<string>)
    ensures DecodeArgs(["startAutoBrowse", IntToString(n)] + rest) ==
            OneShot("startAutoBrowse", Obj([Property("duration", Num(n))]))
  {
    var args := ["startAutoBrowse", IntToString(n)] + rest;
    assert args[0] == "startAutoBrowse" && args[1] == IntToString(n);
    IntToStringParses(n);
  }

  /** The interactive loop lowercases the first word: one-word lines that differ only in case act alike. */
  lemma InteractiveIgnoresCase(w1: string, w2: string)
    requires w1 != [] && ' ' !in w1 && !IsJsWhitespace(w1[0]) && !IsJsWhitespace(w1[|w1| - 1])
    requires w2 != [] && ' ' !in w2 && !IsJsWhitespace(w2[0]) && !IsJsWhitespace(w2[|w2| - 1])
    requires ToLower(w1) == ToLower(w2)
    ensures DecodeLine(w1) == DecodeLine(w2)
  {
    SingleWordSelects(w1);
    SingleWordSelects(w2);
  }

  /** The lowercase words for the session commands, and the kinds they send with `{}`. */
  lemma InteractiveSessionKinds(args: seq<string>)
    ensures Dispatch("logout", args) == Send("logout", EmptyObject)
    ensures Dispatch("checkauth", args) == Send("checkAuth", EmptyObject)
    ensures Dispatch("stopbrowse", args) == Send("stopAutoBrowse", EmptyObject)
  {
  }

  /** The lowercase words for moving about the page, and the kinds they send with `{}`. */
  lemma InteractivePageKinds(args: seq<string>)
    ensures Dispatch("scrolldown", args) == Send("scrollDown", EmptyObject)
    ensures Dispatch("scrollup", args) == Send("scrollUp", EmptyObject)
    ensures Dispatch("gohome", args) == Send("goHome", EmptyObject)
    ensures Dispatch("refresh", args) == Send("refresh", EmptyObject)
  {
  }

  /** `quit` and `exit` end the loop and so does nothing else. */
  lemma OnlyQuitEnds(command: string, args: seq<string>)
    ensures Dispatch(command, args) == Quit <==> command == "quit" || command == "exit"
  {
  }

  /**
   * Command-line mode neither lowercases nor maps names: `checkauth` goes
   * out as typed and the content script reports it unknown.
   */
  lemma CommandLineIsCaseSensitive()
    ensures DecodeArgs(["checkauth"]) == OneShot("checkauth", EmptyObject)
    ensures Agent.Decode(Str("checkauth"), EmptyObject) == Agent.Done(Agent.Fail("Unknown command: checkauth"))
  {
    assert !Agent.IsKnownKind(Str("checkauth"));
  }

  /** The demo's last command names a function the page does not define, so it always fails. */
  lemma DemoEndsWithFailure()
    ensures forall k :: 0 <= k < |DemoCommands| ==> Agent.IsKnownKind(Str(DemoCommands[k].command))
    ensures Agent.Decode(Str(DemoCommands[2].command), DemoCommands[2].data) == Agent.Perform(Agent.CallUndefined("scrollDown"))
  {
  }
}
