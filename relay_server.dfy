/**
 * The relay server's in-memory store: a queue of pending commands that a
 * poll drains, and an append-only history of reported results of which a
 * read returns the most recent fifty. The HTTP handlers become methods; the
 * clock (`Date.now()`) and the process uptime are parameters.
 */
module RelayServer {
  import opened JsValues
  import opened Text

  /** How many results a history read returns. */
  const HistoryWindow: nat := 50

  /** A queued command; `timestamp` is the clock reading the ISO date string is made from. */
  datatype Command = Command(id: string, command: Value, data: Value, timestamp: int, status: string)

  /** A recorded result, as the controller sees it in the history. */
  datatype ResultRecord = ResultRecord(commandId: string, success: Value, message: Value, data: Value, completedAt: int)

  /** Reply to `POST /api/command`. */
  datatype EnqueueReply =
    | Queued(commandId: string, message: string)
    | Rejected(httpStatus: int, error: string)

  /** Reply to `GET /api/status`. */
  datatype StatusReply = StatusReply(status: string, queueLength: nat, historyLength: nat, uptime: int)

  /** The id a command enqueued at clock reading `clock` gets: `Date.now().toString()`. */
  function CommandId(clock: int): string {
    IntToString(clock)
  }

  /** Two enqueues get the same id exactly when they read the same clock value. */
  lemma IdsCollideExactlyOnEqualClocks(c1: int, c2: int)
    ensures CommandId(c1) == CommandId(c2) <==> c1 == c2
  {
    IntToStringInjective(c1, c2);
  }

  /** Enqueues at strictly increasing clock readings receive pairwise distinct ids. */
  lemma IncreasingClockGivesDistinctIds(clocks: seq<int>, i: nat, j: nat)
    requires forall k :: 0 <= k < |clocks| - 1 ==> clocks[k] < clocks[k + 1]
    requires i < j < |clocks|
    ensures CommandId(clocks[i]) != CommandId(clocks[j])
  {
    IncreasingIsStrict(clocks, i, j);
    IdsCollideExactlyOnEqualClocks(clocks[i], clocks[j]);
  }

  lemma {:induction false} IncreasingIsStrict(clocks: seq<int>, i: nat, j: nat)
    requires forall k :: 0 <= k < |clocks| - 1 ==> clocks[k] < clocks[k + 1]
    requires i < j < |clocks|
    ensures clocks[i] < clocks[j]
    decreases j - i
  {
    if i + 1 < j {
      IncreasingIsStrict(clocks, i + 1, j);
    }
  }

  /** `Array.prototype.slice(start)`: a negative start counts from the end. */
  function Slice<T>(s: seq<T>, start: int): seq<T> {
    var from := if start < 0 then (if |s| + start < 0 then 0 else |s| + start)
                else (if start > |s| then |s| else start);
    s[from..]
  }

  class Store {
    /** Pending commands, oldest first. */
    var commandQueue: seq<Command>
    /** Every result ever recorded, oldest first; never trimmed. */
    var commandHistory: seq<ResultRecord>

    /** Every command ever accepted, and every command ever handed out by a poll. */
    ghost var enqueued: seq<Command>
    ghost var delivered: seq<Command>

    /** Nothing is lost or handed out twice: what was accepted is what was delivered followed by what waits. */
    ghost predicate Valid()
      reads this
    {
      enqueued == delivered + commandQueue
    }

    constructor ()
      ensures Valid()
      ensures commandQueue == [] && commandHistory == []
      ensures enqueued == [] && delivered == []
    {
      commandQueue, commandHistory := [], [];
      enqueued, delivered := [], [];
    }

    /** `POST /api/command` with body fields `command` and `data`. */
    method Enqueue(command: Value, data: Value, clock: int) returns (reply: EnqueueReply)
      requires Valid()
      modifies this
      ensures Valid()
      ensures !Truthy(command) ==> reply == Rejected(400, "Command is required")
      ensures !Truthy(command) ==>
        commandQueue == old(commandQueue) && enqueued == old(enqueued)
      ensures Truthy(command) ==>
        reply == Queued(CommandId(clock), "Command '" + ToJsString(command) + "' queued successfully")
      ensures Truthy(command) ==>
        var entry := Command(CommandId(clock), command, Default(data, EmptyObject), clock, "pending");
        commandQueue == old(commandQueue) + [entry] && enqueued == old(enqueued) + [entry]
      ensures commandHistory == old(commandHistory) && delivered == old(delivered)
    {
      if !Truthy(command) {
        return Rejected(400, "Command is required");
      }
      var commandId := CommandId(clock);
      var entry := Command(commandId, command, Default(data, EmptyObject), clock, "pending");
      commandQueue := commandQueue + [entry];
      enqueued := enqueued + [entry];
      reply := Queued(commandId, "Command '" + ToJsString(command) + "' queued successfully");
    }

    /** `GET /api/commands/poll`: hands out every pending command in arrival order and empties the queue. */
    method Poll() returns (commands: seq<Command>)
      requires Valid()
      modifies this
      ensures Valid()
      ensures commands == old(commandQueue) && commandQueue == []
      ensures delivered == old(delivered) + commands
      ensures commandHistory == old(commandHistory) && enqueued == old(enqueued)
    {
      if |commandQueue| == 0 {
        return [];
      }
      commands := commandQueue;
      commandQueue := [];
      delivered := delivered + commands;
    }

    /** `POST /api/commands/:commandId/result`: appends, whatever the id. */
    method RecordResult(commandId: string, success: Value, message: Value, data: Value, clock: int)
      returns (reply: string)
      requires Valid()
      modifies this
      ensures Valid()
      ensures reply == "Result recorded"
      ensures commandHistory == old(commandHistory) + [ResultRecord(commandId, success, message, Default(data, EmptyObject), clock)]
      ensures commandQueue == old(commandQueue)
      ensures enqueued == old(enqueued) && delivered == old(delivered)
    {
      commandHistory := commandHistory + [ResultRecord(commandId, success, message, Default(data, EmptyObject), clock)];
      reply := "Result recorded";
    }

    /** `GET /api/commands/history`: the most recent results, oldest first. */
    method History() returns (recent: seq<ResultRecord>)
      ensures |recent| == if |commandHistory| < HistoryWindow then |commandHistory| else HistoryWindow
      ensures forall k :: 0 <= k < |recent| ==> recent[k] == commandHistory[|commandHistory| - |recent| + k]
      ensures commandHistory != [] ==> recent[|recent| - 1] == commandHistory[|commandHistory| - 1]
    {
      recent := Slice(commandHistory, -(HistoryWindow as int));
    }

    /** `GET /api/status`. */
    method Status(uptime: int) returns (reply: StatusReply)
      ensures reply.queueLength == |commandQueue| && reply.historyLength == |commandHistory|
      ensures reply.status == "running" && reply.uptime == uptime
    {
      reply := StatusReply("running", |commandQueue|, |commandHistory|, uptime);
    }
  }

  /** A poll right after a poll hands out nothing. */
  method PollTwice(store: Store) returns (first: seq<Command>, second: seq<Command>)
    requires store.Valid()
    modifies store
    ensures store.Valid()
    ensures first == old(store.commandQueue) && second == []
    ensures store.delivered == old(store.delivered) + first
  {
    first := store.Poll();
    second := store.Poll();
  }
}
