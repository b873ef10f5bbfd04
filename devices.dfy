/** The two instruments of the powder sampler and the operator's console.
    The robot is driven through its dashboard server, the balance through
    text commands on a serial line, and the operator answers prompts on the
    console. All three are modelled by one Bench: the replies each of them
    will give, in order, and a log of what crossed each interface. */
module Devices {
  import opened PyJson

  /** The balance's serial commands, each sent as one line. */
  datatype ScaleCommand =
    | Inquire                                      // "I"
    | Reset                                        // "@"
    | Door(position: int)                          // "WS <position>": 4 opens, 0 closes
    | TareCommand                                  // "T"
    | ZeroImmediately                              // "ZI"
    | SendStable                                   // "S"
    | A10(register: int, value: real, unit: Json)  // "A10 <register> <value> <unit>"

  /** The robot programs the sampler runs; the file names are
      retrievevial<slot>.urp, returnvial<slot>.urp, retrieve<name>.urp and
      return<name>.urp. */
  datatype Program =
    | RetrieveVial(slot: int)
    | ReturnVial(slot: int)
    | RetrievePowder(name: Json)
    | ReturnPowder(name: Json)

  /** What crosses the interfaces: serial lines written and read, dashboard
      requests and replies, console lines read (None at end of input). */
  datatype Event =
    | SerialWrite(command: ScaleCommand)
    | SerialRead(reply: string)
    | DashConnect
    | DashIsConnected
    | DashDisconnect
    | DashLoad(program: Program)
    | DashPlay
    | DashRunning(running: bool)
    | ConsoleRead(line: Option<string>)

  /** The device operations the orchestration code calls. */
  datatype Call =
    | Connect
    | Disconnect
    | Run(program: Program)
    | OpenDoor
    | CloseDoor
    | Zero
    | Tare
    | ResetScale
    | GetWeight
    | SetTarget(value: real, unit: Json)
    | SetUpper(value: real, unit: Json)
    | SetLower(value: real, unit: Json)
    | AwaitOperator

  /** The robot, the balance and the console, with the answers they will
      give. A serial read after the last scripted reply times out and gives
      the empty line; a running() query after the last scripted reply says
      the program has stopped; reading the console after its last line is
      the end of input. */
  class Bench {
    const serialReplies: seq<string>
    const connectReply: bool       // truthiness of what dashboard connect() returns
    const hasIsConnected: bool     // whether the dashboard client has isConnected()
    const isConnectedReply: bool
    const runningReplies: seq<bool>
    const consoleLines: seq<string>

    var serialPos: nat
    var runningPos: nat
    var consolePos: nat
    var wire: seq<Event>    // everything that crossed an interface, oldest first
    var calls: seq<Call>    // device operations called, oldest first

    constructor (serialReplies: seq<string>, connectReply: bool, hasIsConnected: bool, isConnectedReply: bool,
                 runningReplies: seq<bool>, consoleLines: seq<string>)
      ensures this.serialReplies == serialReplies && this.connectReply == connectReply
      ensures this.hasIsConnected == hasIsConnected && this.isConnectedReply == isConnectedReply
      ensures this.runningReplies == runningReplies && this.consoleLines == consoleLines
      ensures serialPos == 0 && runningPos == 0 && consolePos == 0 && wire == [] && calls == []
    {
      this.serialReplies := serialReplies;
      this.connectReply := connectReply;
      this.hasIsConnected := hasIsConnected;
      this.isConnectedReply := isConnectedReply;
      this.runningReplies := runningReplies;
      this.consoleLines := consoleLines;
      serialPos, runningPos, consolePos := 0, 0, 0;
      wire, calls := [], [];
    }

    /** The reply to the k-th serial command, already stripped. */
    function Reply(k: nat): string
    {
      if k < |serialReplies| then serialReplies[k] else ""
    }

    /** The k-th answer to running(). */
    function Running(k: nat): bool
    {
      k < |runningReplies| && runningReplies[k]
    }

    /** The k-th console line. */
    function Line(k: nat): Option<string>
    {
      if k < |consoleLines| then Some(consoleLines[k]) else None
    }

    /** Serial commands lo .. hi - 1, each the same command, with their replies. */
    function Exchanges(command: ScaleCommand, lo: nat, hi: nat): seq<Event>
      requires lo <= hi
      decreases hi - lo
    {
      if lo == hi then [] else [SerialWrite(command), SerialRead(Reply(lo))] + Exchanges(command, lo + 1, hi)
    }

    /** running() queries lo .. hi - 1 with their answers. */
    function RunningQueries(lo: nat, hi: nat): seq<Event>
      requires lo <= hi
      decreases hi - lo
    {
      if lo == hi then [] else [DashRunning(Running(lo))] + RunningQueries(lo + 1, hi)
    }

    /** Console reads lo .. hi - 1. */
    function ConsoleReads(lo: nat, hi: nat): seq<Event>
      requires lo <= hi
      decreases hi - lo
    {
      if lo == hi then [] else [ConsoleRead(Line(lo))] + ConsoleReads(lo + 1, hi)
    }

    /** Replies lo .. hi - 1 form a wait for readiness: every reply but the
        last is "I", and the last is not. */
    predicate ReadyAfter(lo: nat, hi: nat)
    {
      lo < hi && (forall k :: lo <= k < hi - 1 ==> Reply(k) == "I") && Reply(hi - 1) != "I"
    }
  }

  lemma ExchangesAppend(bench: Bench, command: ScaleCommand, lo: nat, hi: nat)
    requires lo <= hi
    ensures bench.Exchanges(command, lo, hi + 1)
            == bench.Exchanges(command, lo, hi) + [SerialWrite(command), SerialRead(bench.Reply(hi))]
    decreases hi - lo
  {
    if lo < hi {
      ExchangesAppend(bench, command, lo + 1, hi);
    }
  }

  lemma RunningQueriesAppend(bench: Bench, lo: nat, hi: nat)
    requires lo <= hi
    ensures bench.RunningQueries(lo, hi + 1) == bench.RunningQueries(lo, hi) + [DashRunning(bench.Running(hi))]
    decreases hi - lo
  {
    if lo < hi {
      RunningQueriesAppend(bench, lo + 1, hi);
    }
  }

  lemma ConsoleReadsAppend(bench: Bench, lo: nat, hi: nat)
    requires lo <= hi
    ensures bench.ConsoleReads(lo, hi + 1) == bench.ConsoleReads(lo, hi) + [ConsoleRead(bench.Line(hi))]
    decreases hi - lo
  {
    if lo < hi {
      ConsoleReadsAppend(bench, lo + 1, hi);
    }
  }

  // -----------------------------------------------------------------------
  // The operator's console

  /** The ASCII characters str.isspace() accepts: space, tab, the line
      breaks \n, \v, \f and \r, and the separators \x1c to \x1f. */
  predicate IsSpace(c: char)
  {
    c == ' ' || c == '\t' || c == '\n' || c == '\r' || c == '\U{000B}' || c == '\U{000C}'
    || '\U{001C}' <= c <= '\U{001F}'
  }

  /** str.strip() over ASCII whitespace. */
  function Strip(s: string): (r: string)
    ensures |r| <= |s|
    ensures r != [] ==> !IsSpace(r[0]) && !IsSpace(r[|r| - 1])
  {
    if s != [] && IsSpace(s[0]) then Strip(s[1..])
    else if s != [] && IsSpace(s[|s| - 1]) then Strip(s[..|s| - 1])
    else s
  }

  /** What strip() removes: s[i..j] is left, and everything before i and
      from j on is whitespace. */
  predicate TrimmedTo(s: string, i: int, j: int, r: string)
  {
    0 <= i <= j <= |s| && r == s[i..j]
    && (forall k :: 0 <= k < i ==> IsSpace(s[k]))
    && (forall k :: j <= k < |s| ==> IsSpace(s[k]))
  }

  /** strip() cuts whitespace from both ends and nothing else: the result is
      a slice of the input with only whitespace around it, and it neither
      starts nor ends with whitespace. */
  lemma {:induction false} StripTrims(s: string)
    ensures exists i, j :: TrimmedTo(s, i, j, Strip(s))
    ensures Strip(s) != [] ==> !IsSpace(Strip(s)[0]) && !IsSpace(Strip(s)[|Strip(s)| - 1])
    decreases |s|
  {
    if s != [] && IsSpace(s[0]) {
      var t := s[1..];
      StripTrims(t);
      var i, j :| TrimmedTo(t, i, j, Strip(t));
      assert t[i..j] == s[i + 1..j + 1];
      forall k | 0 <= k < i + 1
        ensures IsSpace(s[k])
      {
        if 0 < k {
          assert s[k] == t[k - 1];
        }
      }
      forall k | j + 1 <= k < |s|
        ensures IsSpace(s[k])
      {
        assert s[k] == t[k - 1];
      }
      assert TrimmedTo(s, i + 1, j + 1, Strip(s));
    } else if s != [] && IsSpace(s[|s| - 1]) {
      var t := s[..|s| - 1];
      StripTrims(t);
      var i, j :| TrimmedTo(t, i, j, Strip(t));
      assert t[i..j] == s[i..j];
      assert i == 0;  // s does not start with whitespace, and neither does t
      forall k | j <= k < |s|
        ensures IsSpace(s[k])
      {
        if k < |s| - 1 {
          assert s[k] == t[k];
        }
      }
      assert TrimmedTo(s, i, j, Strip(s));
    } else {
      assert TrimmedTo(s, 0, |s|, Strip(s));
    }
  }

  /** str.lower() over ASCII letters. */
  function Lower(s: string): (r: string)
    ensures |r| == |s|
  {
    if s == [] then []
    else [if 'A' <= s[0] <= 'Z' then (s[0] as int + 32) as char else s[0]] + Lower(s[1..])
  }

  /** Lower-casing turns each upper-case letter into its lower-case letter
      and keeps every other character, so it changes exactly the upper-case
      letters. */
  lemma {:induction false} LowerChangesLetters(s: string)
    ensures forall k :: 0 <= k < |s| ==>
              Lower(s)[k] == (if 'A' <= s[k] <= 'Z' then (s[k] as int + 32) as char else s[k])
    ensures forall k :: 0 <= k < |s| ==> ('A' <= s[k] <= 'Z' <==> Lower(s)[k] != s[k])
  {
    if s != [] {
      LowerChangesLetters(s[1..]);
      assert forall k :: 1 <= k < |s| ==> Lower(s)[k] == Lower(s[1..])[k - 1] && s[k] == s[1..][k - 1];
    }
  }

  /** Whether the operator's answer is "continue" once stripped and
      lower-cased. */
  predicate SaysContinue(line: string)
  {
    Lower(Strip(line)) == "continue"
  }

  /** wait_for_continue: reads console lines until one says "continue"; at
      the end of input, input() raises EOFError. Every line read before the
      last was something else. */
  method WaitForContinue(bench: Bench) returns (c: Completion)
    modifies bench
    ensures bench.calls == old(bench.calls) + [AwaitOperator]
    ensures old(bench.consolePos) < bench.consolePos
    ensures forall k :: old(bench.consolePos) <= k < bench.consolePos - 1 ==>
              bench.Line(k).Some? && !SaysContinue(bench.Line(k).value)
    ensures var last := bench.Line(bench.consolePos - 1);
            (c == Returned <==> last.Some? && SaysContinue(last.value))
            && (c != Returned ==> c == Raised(EOFError) && last.None?)
    ensures bench.wire == old(bench.wire) + bench.ConsoleReads(old(bench.consolePos), bench.consolePos)
    ensures bench.serialPos == old(bench.serialPos) && bench.runningPos == old(bench.runningPos)
  {
    bench.calls := bench.calls + [AwaitOperator];
    ghost var start := bench.consolePos;
    ghost var wire0 := bench.wire;
    while true
      invariant start <= bench.consolePos
      invariant forall k :: start <= k < bench.consolePos ==>
                  bench.Line(k).Some? && !SaysContinue(bench.Line(k).value)
      invariant bench.wire == wire0 + bench.ConsoleReads(start, bench.consolePos)
      invariant bench.calls == old(bench.calls) + [AwaitOperator]
      invariant bench.serialPos == old(bench.serialPos) && bench.runningPos == old(bench.runningPos)
      decreases |bench.consoleLines| - bench.consolePos
    {
      var line := bench.Line(bench.consolePos);
      ConsoleReadsAppend(bench, start, bench.consolePos);
      bench.wire := bench.wire + [ConsoleRead(line)];
      bench.consolePos := bench.consolePos + 1;
      if line.None? {
        return Raised(EOFError);
      }
      if SaysContinue(line.value) {
        return Returned;
      }
    }
  }

  // -----------------------------------------------------------------------
  // The robot

  /** The robot arm, driven through its dashboard server. */
  class UR {
    const bench: Bench
    var connected: bool

    constructor (bench: Bench)
      ensures this.bench == bench && !connected
    {
      this.bench := bench;
      connected := false;
    }

    /** Whether connect() succeeds: the dashboard's reply is truthy and, when
        the client has isConnected(), that says so as well. */
    predicate ConnectSucceeds()
    {
      bench.connectReply && (!bench.hasIsConnected || bench.isConnectedReply)
    }

    /** connect: asks isConnected() only when the client has it and connect()
        was truthy; raises RuntimeError and leaves the flag alone on failure,
        sets it on success. */
    method Connect() returns (c: Completion)
      modifies this, bench
      ensures bench.calls == old(bench.calls) + [Call.Connect]
      ensures bench.wire == old(bench.wire) + [DashConnect]
                            + (if bench.connectReply && bench.hasIsConnected then [DashIsConnected] else [])
      ensures ConnectSucceeds() ==> c == Returned && connected
      ensures !ConnectSucceeds() ==> c == Raised(RuntimeError) && connected == old(connected)
      ensures bench.serialPos == old(bench.serialPos) && bench.runningPos == old(bench.runningPos)
      ensures bench.consolePos == old(bench.consolePos)
    {
      bench.calls := bench.calls + [Call.Connect];
      bench.wire := bench.wire + [DashConnect];
      var ok := bench.connectReply;
      if bench.hasIsConnected {
        if ok {
          bench.wire := bench.wire + [DashIsConnected];
          ok := bench.isConnectedReply;
        }
      }
      if !ok {
        return Raised(RuntimeError);
      }
      connected := true;
      return Returned;
    }

    /** disconnect: closes the dashboard connection only when connected, so
        a second disconnect sends nothing. */
    method Disconnect()
      modifies this, bench
      ensures bench.calls == old(bench.calls) + [Call.Disconnect]
      ensures bench.wire == old(bench.wire) + (if old(connected) then [DashDisconnect] else [])
      ensures !connected
      ensures bench.serialPos == old(bench.serialPos) && bench.runningPos == old(bench.runningPos)
      ensures bench.consolePos == old(bench.consolePos)
    {
      bench.calls := bench.calls + [Call.Disconnect];
      if connected {
        bench.wire := bench.wire + [DashDisconnect];
        connected := false;
      }
    }

    /** run_program: raises RuntimeError when not connected, before touching
        the dashboard; otherwise loads and plays the program and asks
        running() until it says the program has stopped. */
    method RunProgram(program: Program) returns (c: Completion)
      modifies bench
      ensures bench.calls == old(bench.calls) + [Run(program)]
      ensures !connected ==> c == Raised(RuntimeError) && bench.wire == old(bench.wire)
                             && bench.runningPos == old(bench.runningPos)
      ensures connected ==>
                c == Returned
                && old(bench.runningPos) < bench.runningPos
                && (forall k :: old(bench.runningPos) <= k < bench.runningPos - 1 ==> bench.Running(k))
                && !bench.Running(bench.runningPos - 1)
                && bench.wire == old(bench.wire) + [DashLoad(program), DashPlay]
                                 + bench.RunningQueries(old(bench.runningPos), bench.runningPos)
      ensures bench.serialPos == old(bench.serialPos) && bench.consolePos == old(bench.consolePos)
    {
      bench.calls := bench.calls + [Run(program)];
      if !connected {
        return Raised(RuntimeError);
      }
      bench.wire := bench.wire + [DashLoad(program), DashPlay];
      ghost var start := bench.runningPos;
      ghost var wire0 := bench.wire;
      var running := true;
      while running
        invariant start <= bench.runningPos
        invariant forall k :: start <= k < bench.runningPos - 1 ==> bench.Running(k)
        invariant running <==> (bench.runningPos == start || bench.Running(bench.runningPos - 1))
        invariant bench.wire == wire0 + bench.RunningQueries(start, bench.runningPos)
        invariant bench.calls == old(bench.calls) + [Run(program)]
        invariant bench.serialPos == old(bench.serialPos) && bench.consolePos == old(bench.consolePos)
        decreases (if bench.runningPos <= |bench.runningReplies| then |bench.runningReplies| - bench.runningPos else 0)
                  + (if running then 1 else 0)
      {
        running := bench.Running(bench.runningPos);
        RunningQueriesAppend(bench, start, bench.runningPos);
        bench.wire := bench.wire + [DashRunning(running)];
        bench.runningPos := bench.runningPos + 1;
      }
      return Returned;
    }
  }

  // -----------------------------------------------------------------------
  // The balance

  /** The balance on its serial line. */
  class WM {
    const bench: Bench

    constructor (bench: Bench)
      ensures this.bench == bench
    {
      this.bench := bench;
    }

    /** send_command: one line out, one stripped line back. */
    method SendCommand(command: ScaleCommand) returns (reply: string)
      modifies bench
      ensures reply == bench.Reply(old(bench.serialPos)) && bench.serialPos == old(bench.serialPos) + 1
      ensures bench.wire == old(bench.wire) + [SerialWrite(command), SerialRead(reply)]
      ensures bench.calls == old(bench.calls)
      ensures bench.runningPos == old(bench.runningPos) && bench.consolePos == old(bench.consolePos)
    {
      reply := bench.Reply(bench.serialPos);
      bench.wire := bench.wire + [SerialWrite(command), SerialRead(reply)];
      bench.serialPos := bench.serialPos + 1;
    }

    /** wait_ready: sends "I" until the reply is something other than "I". */
    method WaitReady()
      modifies bench
      ensures bench.ReadyAfter(old(bench.serialPos), bench.serialPos)
      ensures bench.wire == old(bench.wire) + bench.Exchanges(Inquire, old(bench.serialPos), bench.serialPos)
      ensures bench.calls == old(bench.calls)
      ensures bench.runningPos == old(bench.runningPos) && bench.consolePos == old(bench.consolePos)
    {
      ghost var start := bench.serialPos;
      ghost var wire0 := bench.wire;
      while true
        invariant start <= bench.serialPos
        invariant forall k :: start <= k < bench.serialPos ==> bench.Reply(k) == "I"
        invariant bench.wire == wire0 + bench.Exchanges(Inquire, start, bench.serialPos)
        invariant bench.calls == old(bench.calls)
        invariant bench.runningPos == old(bench.runningPos) && bench.consolePos == old(bench.consolePos)
        decreases |bench.serialReplies| - bench.serialPos
      {
        ExchangesAppend(bench, Inquire, start, bench.serialPos);
        var reply := SendCommand(Inquire);
        if reply != "I" {
          return;
        }
      }
    }

    /** A command followed by a wait for readiness; the command's own reply
        is returned. */
    method CommandThenReady(command: ScaleCommand) returns (reply: string)
      modifies bench
      ensures reply == bench.Reply(old(bench.serialPos))
      ensures bench.ReadyAfter(old(bench.serialPos) + 1, bench.serialPos)
      ensures bench.wire == old(bench.wire) + [SerialWrite(command), SerialRead(reply)]
                            + bench.Exchanges(Inquire, old(bench.serialPos) + 1, bench.serialPos)
      ensures bench.calls == old(bench.calls)
      ensures bench.runningPos == old(bench.runningPos) && bench.consolePos == old(bench.consolePos)
    {
      reply := SendCommand(command);
      WaitReady();
    }

    /** reset: "@", then wait until ready. */
    method ResetScale() returns (reply: string)
      modifies bench
      ensures reply == bench.Reply(old(bench.serialPos))
      ensures bench.ReadyAfter(old(bench.serialPos) + 1, bench.serialPos)
      ensures bench.wire == old(bench.wire) + [SerialWrite(Reset), SerialRead(reply)]
                            + bench.Exchanges(Inquire, old(bench.serialPos) + 1, bench.serialPos)
      ensures bench.calls == old(bench.calls) + [Call.ResetScale]
      ensures bench.runningPos == old(bench.runningPos) && bench.consolePos == old(bench.consolePos)
    {
      bench.calls := bench.calls + [Call.ResetScale];
      reply := CommandThenReady(Reset);
    }

    /** open_door: "WS 4", then wait until ready. */
    method OpenDoor() returns (reply: string)
      modifies bench
      ensures reply == bench.Reply(old(bench.serialPos))
      ensures bench.ReadyAfter(old(bench.serialPos) + 1, bench.serialPos)
      ensures bench.wire == old(bench.wire) + [SerialWrite(Door(4)), SerialRead(reply)]
                            + bench.Exchanges(Inquire, old(bench.serialPos) + 1, bench.serialPos)
      ensures bench.calls == old(bench.calls) + [Call.OpenDoor]
      ensures bench.runningPos == old(bench.runningPos) && bench.consolePos == old(bench.consolePos)
    {
      bench.calls := bench.calls + [Call.OpenDoor];
      reply := CommandThenReady(Door(4));
    }

    /** close_door: "WS 0", then wait until ready. */
    method CloseDoor() returns (reply: string)
      modifies bench
      ensures reply == bench.Reply(old(bench.serialPos))
      ensures bench.ReadyAfter(old(bench.serialPos) + 1, bench.serialPos)
      ensures bench.wire == old(bench.wire) + [SerialWrite(Door(0)), SerialRead(reply)]
                            + bench.Exchanges(Inquire, old(bench.serialPos) + 1, bench.serialPos)
      ensures bench.calls == old(bench.calls) + [Call.CloseDoor]
      ensures bench.runningPos == old(bench.runningPos) && bench.consolePos == old(bench.consolePos)
    {
      bench.calls := bench.calls + [Call.CloseDoor];
      reply := CommandThenReady(Door(0));
    }

    /** tare: "T", then wait until ready. */
    method Tare() returns (reply: string)
      modifies bench
      ensures reply == bench.Reply(old(bench.serialPos))
      ensures bench.ReadyAfter(old(bench.serialPos) + 1, bench.serialPos)
      ensures bench.wire == old(bench.wire) + [SerialWrite(TareCommand), SerialRead(reply)]
                            + bench.Exchanges(Inquire, old(bench.serialPos) + 1, bench.serialPos)
      ensures bench.calls == old(bench.calls) + [Call.Tare]
      ensures bench.runningPos == old(bench.runningPos) && bench.consolePos == old(bench.consolePos)
    {
      bench.calls := bench.calls + [Call.Tare];
      reply := CommandThenReady(TareCommand);
    }

    /** zero: "ZI", then wait until ready. */
    method Zero() returns (reply: string)
      modifies bench
      ensures reply == bench.Reply(old(bench.serialPos))
      ensures bench.ReadyAfter(old(bench.serialPos) + 1, bench.serialPos)
      ensures bench.wire == old(bench.wire) + [SerialWrite(ZeroImmediately), SerialRead(reply)]
                            + bench.Exchanges(Inquire, old(bench.serialPos) + 1, bench.serialPos)
      ensures bench.calls == old(bench.calls) + [Call.Zero]
      ensures bench.runningPos == old(bench.runningPos) && bench.consolePos == old(bench.consolePos)
    {
      bench.calls := bench.calls + [Call.Zero];
      reply := CommandThenReady(ZeroImmediately);
    }

    /** get_weight: sends "S" until the reply converts with float(); a reply
        "I" means busy and is retried, any other reply raises RuntimeError. */
    method GetWeight(conv: Conversions) returns (r: Result<real>)
      modifies bench
      ensures old(bench.serialPos) < bench.serialPos
      ensures forall k :: old(bench.serialPos) <= k < bench.serialPos - 1 ==>
                conv.parseFloat(bench.Reply(k)).None? && bench.Reply(k) == "I"
      ensures var last := bench.Reply(bench.serialPos - 1);
              (conv.parseFloat(last).Some? ==> r == Ok(conv.parseFloat(last).value))
              && (conv.parseFloat(last).None? ==> last != "I" && r == Err(RuntimeError))
      ensures bench.wire == old(bench.wire) + bench.Exchanges(SendStable, old(bench.serialPos), bench.serialPos)
      ensures bench.calls == old(bench.calls) + [Call.GetWeight]
      ensures bench.runningPos == old(bench.runningPos) && bench.consolePos == old(bench.consolePos)
    {
      bench.calls := bench.calls + [Call.GetWeight];
      ghost var start := bench.serialPos;
      ghost var wire0 := bench.wire;
      while true
        invariant start <= bench.serialPos
        invariant forall k :: start <= k < bench.serialPos ==>
                    conv.parseFloat(bench.Reply(k)).None? && bench.Reply(k) == "I"
        invariant bench.wire == wire0 + bench.Exchanges(SendStable, start, bench.serialPos)
        invariant bench.calls == old(bench.calls) + [Call.GetWeight]
        invariant bench.runningPos == old(bench.runningPos) && bench.consolePos == old(bench.consolePos)
        decreases |bench.serialReplies| - bench.serialPos
      {
        ExchangesAppend(bench, SendStable, start, bench.serialPos);
        var reply := SendCommand(SendStable);
        var weight := conv.parseFloat(reply);
        if weight.Some? {
          return Ok(weight.value);
        }
        if reply != "I" {
          return Err(RuntimeError);
        }
      }
    }

    /** _a10_set: "A10 <register> <value> <unit>"; raises RuntimeError unless
        the reply starts with "A10 A". */
    method A10Set(register: int, value: real, unit: Json) returns (r: Result<string>)
      modifies bench
      ensures var reply := bench.Reply(old(bench.serialPos));
              (r.Ok? <==> StartsWith(reply, "A10 A")) && (r.Ok? ==> r.value == reply)
              && (r.Err? ==> r.error == RuntimeError)
      ensures bench.serialPos == old(bench.serialPos) + 1
      ensures bench.wire == old(bench.wire) + [SerialWrite(A10(register, value, unit)),
                                               SerialRead(bench.Reply(old(bench.serialPos)))]
      ensures bench.calls == old(bench.calls)
      ensures bench.runningPos == old(bench.runningPos) && bench.consolePos == old(bench.consolePos)
    {
      var reply := SendCommand(A10(register, value, unit));
      if !StartsWith(reply, "A10 A") {
        return Err(RuntimeError);
      }
      return Ok(reply);
    }

    /** set_target_weight: register 0. */
    method SetTargetWeight(value: real, unit: Json) returns (r: Result<string>)
      modifies bench
      ensures var reply := bench.Reply(old(bench.serialPos));
              (r.Ok? <==> StartsWith(reply, "A10 A")) && (r.Ok? ==> r.value == reply)
              && (r.Err? ==> r.error == RuntimeError)
      ensures bench.serialPos == old(bench.serialPos) + 1
      ensures bench.wire == old(bench.wire) + [SerialWrite(A10(0, value, unit)),
                                               SerialRead(bench.Reply(old(bench.serialPos)))]
      ensures bench.calls == old(bench.calls) + [SetTarget(value, unit)]
      ensures bench.runningPos == old(bench.runningPos) && bench.consolePos == old(bench.consolePos)
    {
      bench.calls := bench.calls + [SetTarget(value, unit)];
      r := A10Set(0, value, unit);
    }

    /** set_tolerance_upper: register 1. */
    method SetToleranceUpper(value: real, unit: Json) returns (r: Result<string>)
      modifies bench
      ensures var reply := bench.Reply(old(bench.serialPos));
              (r.Ok? <==> StartsWith(reply, "A10 A")) && (r.Ok? ==> r.value == reply)
              && (r.Err? ==> r.error == RuntimeError)
      ensures bench.serialPos == old(bench.serialPos) + 1
      ensures bench.wire == old(bench.wire) + [SerialWrite(A10(1, value, unit)),
                                               SerialRead(bench.Reply(old(bench.serialPos)))]
      ensures bench.calls == old(bench.calls) + [SetUpper(value, unit)]
      ensures bench.runningPos == old(bench.runningPos) && bench.consolePos == old(bench.consolePos)
    {
      bench.calls := bench.calls + [SetUpper(value, unit)];
      r := A10Set(1, value, unit);
    }

    /** set_tolerance_lower: register 2. */
    method SetToleranceLower(value: real, unit: Json) returns (r: Result<string>)
      modifies bench
      ensures var reply := bench.Reply(old(bench.serialPos));
              (r.Ok? <==> StartsWith(reply, "A10 A")) && (r.Ok? ==> r.value == reply)
              && (r.Err? ==> r.error == RuntimeError)
      ensures bench.serialPos == old(bench.serialPos) + 1
      ensures bench.wire == old(bench.wire) + [SerialWrite(A10(2, value, unit)),
                                               SerialRead(bench.Reply(old(bench.serialPos)))]
      ensures bench.calls == old(bench.calls) + [SetLower(value, unit)]
      ensures bench.runningPos == old(bench.runningPos) && bench.consolePos == old(bench.consolePos)
    {
      bench.calls := bench.calls + [SetLower(value, unit)];
      r := A10Set(2, value, unit);
    }
  }
}
