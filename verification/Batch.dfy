/** A receive buffer with several commands in it. */
module Batch {
  import opened Options
  import opened CStrings
  import opened SocketList
  import opened Commands
  import opened CommandExecution
  import opened RoundTrip

  const BROKER_RECEIVE_BUFFER_SIZE: nat := 4600

  function Zeros(n: nat): (z: seq<char>)
    ensures |z| == n && forall j :: 0 <= j < n ==> z[j] == NUL
  {
    seq(n, _ => NUL)
  }

  /** The index of the first null character, or the end. */
  function NulIn(s: seq<char>): (n: nat)
    ensures n <= |s| && (n < |s| ==> s[n] == NUL)
    ensures forall j :: 0 <= j < n ==> s[j] != NUL
  {
    if s == [] || s[0] == NUL then 0 else 1 + NulIn(s[1..])
  }

  /** The commands the loop finds in what is left of the buffer, or none if it reads past the end. */
  function CommandsIn(rest: seq<char>): (commands: Option<seq<string>>)
    decreases |rest|
  {
    if rest == [] then None
    else if rest[0] != '#' then Some([])
    else
      var n := NulIn(rest);
      if n == |rest| then None
      else
        match CommandsIn(rest[n + 1..])
        case None => None
        case Some(more) => Some([rest[1..n]] + more)
  }

  /** Commands one after the other, each with a '#' in front and a null character at the end. */
  function Wire(commands: seq<string>): seq<char> {
    if commands == [] then [] else ("#" + commands[0] + [NUL]) + Wire(commands[1..])
  }

  lemma FrameFirst(command: string, tail: seq<char>)
    requires NUL !in command
    ensures
      var s, n := ("#" + command + [NUL]) + tail, |command| + 1;
      s[0] == '#' && NulIn(s) == n && s[1..n] == command && s[n + 1..] == tail
  {
    var s, n := ("#" + command + [NUL]) + tail, |command| + 1;
    assert s[1..n] == command && s[n] == NUL;
    forall j | 0 <= j < n ensures s[j] != NUL {
      assert j > 0 ==> s[j] == command[j - 1];
    }
  }

  lemma CommandFirst(command: string, tail: seq<char>)
    requires NUL !in command
    ensures CommandsIn(("#" + command + [NUL]) + tail) ==
      match CommandsIn(tail) { case None => None case Some(more) => Some([command] + more) }
  {
    FrameFirst(command, tail);
  }

  /** The loop on a zeroed buffer with these commands in it recovers exactly them, in order, and stops
      at the first unused byte, exactly when there is one: when they do not fill the buffer. */
  lemma {:induction false} BatchRecovered(commands: seq<string>, room: nat)
    requires forall k :: 0 <= k < |commands| ==> NUL !in commands[k]
    ensures CommandsIn(Wire(commands) + Zeros(room)) == if room > 0 then Some(commands) else None
    decreases |commands|
  {
    if commands != [] {
      WireFirst(commands, room);
      CommandFirst(commands[0], Wire(commands[1..]) + Zeros(room));
      BatchRecovered(commands[1..], room);
      Rejoin(commands);
    }
  }

  lemma WireFirst(commands: seq<string>, room: nat)
    requires commands != []
    ensures Wire(commands) + Zeros(room) == ("#" + commands[0] + [NUL]) + (Wire(commands[1..]) + Zeros(room))
  {
  }

  lemma Rejoin<T>(s: seq<T>)
    requires s != []
    ensures [s[0]] + s[1..] == s
  {
  }

  /** The last answer overran its buffer, which ends the process. */
  predicate Ended(responses: seq<Response>) {
    responses != [] && responses[|responses| - 1] == Overrun
  }

  /** The state after the commands, and the answers; after an overrun no more commands are executed. */
  ghost function ExecuteAll(names: seq<string>, s: State, commands: seq<string>, socket: Socket): (r: (State, seq<Response>))
    requires Sized(names, s) && AllWellFormed(commands)
    ensures Sized(names, r.0)
    decreases |commands|
  {
    if commands == [] then (s, [])
    else
      var before := ExecuteAll(names, s, commands[..|commands| - 1], socket);
      var last := commands[|commands| - 1];
      if Ended(before.1) then before
      else (Execute(names, before.0, last, socket), before.1 + [Answer(names, before.0, last)])
  }

  lemma {:induction false} EndedStays(names: seq<string>, s: State, commands: seq<string>, done: nat, socket: Socket)
    requires Sized(names, s) && AllWellFormed(commands) && done <= |commands|
    requires Ended(ExecuteAll(names, s, commands[..done], socket).1)
    ensures ExecuteAll(names, s, commands, socket) == ExecuteAll(names, s, commands[..done], socket)
    decreases |commands|
  {
    if done < |commands| {
      assert commands[..|commands| - 1][..done] == commands[..done];
      EndedStays(names, s, commands[..|commands| - 1], done, socket);
    } else {
      assert commands[..done] == commands;
    }
  }

  /** The state after the first `n` commands, one after the other. */
  ghost function Executed(names: seq<string>, s: State, commands: seq<string>, n: nat, socket: Socket): (r: State)
    requires Sized(names, s) && AllWellFormed(commands) && n <= |commands|
    ensures Sized(names, r)
  {
    if n == 0 then s else Execute(names, Executed(names, s, commands, n - 1, socket), commands[n - 1], socket)
  }

  lemma {:induction false} ExecutedPrefix(names: seq<string>, s: State, commands: seq<string>, m: nat, n: nat, socket: Socket)
    requires Sized(names, s) && AllWellFormed(commands) && n <= m <= |commands|
    ensures Executed(names, s, commands[..m], n, socket) == Executed(names, s, commands, n, socket)
  {
    if n > 0 {
      ExecutedPrefix(names, s, commands, m, n - 1, socket);
    }
  }

  /** Each command is executed in the state its predecessors leave and has its answer; all are, unless
      an answer overruns its buffer: then that is the last one. */
  ghost predicate InTurn(names: seq<string>, s: State, commands: seq<string>, socket: Socket, now: State, responses: seq<Response>)
    requires Sized(names, s) && AllWellFormed(commands)
  {
    && |responses| <= |commands| && now == Executed(names, s, commands, |responses|, socket)
    && (forall k {:trigger responses[k]} :: 0 <= k < |responses| ==>
         responses[k] == Answer(names, Executed(names, s, commands, k, socket), commands[k]))
    && (forall k :: 0 <= k < |responses| - 1 ==> responses[k] != Overrun)
    && (|responses| < |commands| ==> Overrun in responses)
  }

  lemma {:induction false} AllInTurn(names: seq<string>, s: State, commands: seq<string>, socket: Socket)
    requires Sized(names, s) && AllWellFormed(commands)
    ensures var r := ExecuteAll(names, s, commands, socket); InTurn(names, s, commands, socket, r.0, r.1)
    decreases |commands|
  {
    if commands != [] {
      var m := |commands| - 1;
      AllInTurn(names, s, commands[..m], socket);
      var before := ExecuteAll(names, s, commands[..m], socket);
      InTurnNext(names, s, commands, socket, before.0, before.1);
    }
  }

  lemma InTurnNext(names: seq<string>, s: State, commands: seq<string>, socket: Socket, now: State, responses: seq<Response>)
    requires Sized(names, s) && AllWellFormed(commands) && commands != []
    requires InTurn(names, s, commands[..|commands| - 1], socket, now, responses)
    ensures if Ended(responses) then InTurn(names, s, commands, socket, now, responses)
            else
              var last := commands[|commands| - 1];
              && Sized(names, now)
              && InTurn(names, s, commands, socket, Execute(names, now, last, socket), responses + [Answer(names, now, last)])
  {
    LastOverruns(responses);
    if Ended(responses) {
      InTurnStays(names, s, commands, socket, now, responses);
    } else {
      InTurnGrows(names, s, commands, socket, now, responses);
    }
  }

  /** The states and the answers are those of the longer list, too. */
  lemma InTurnPrefix(names: seq<string>, s: State, commands: seq<string>, m: nat, socket: Socket, now: State, responses: seq<Response>)
    requires Sized(names, s) && AllWellFormed(commands) && m <= |commands|
    requires InTurn(names, s, commands[..m], socket, now, responses)
    ensures |responses| <= m && now == Executed(names, s, commands, |responses|, socket)
    ensures forall k {:trigger responses[k]} :: 0 <= k < |responses| ==>
      responses[k] == Answer(names, Executed(names, s, commands, k, socket), commands[k])
  {
    ExecutedPrefix(names, s, commands, m, |responses|, socket);
    forall k {:trigger responses[k]} | 0 <= k < |responses|
      ensures responses[k] == Answer(names, Executed(names, s, commands, k, socket), commands[k])
    {
      ExecutedPrefix(names, s, commands, m, k, socket);
    }
  }

  lemma InTurnStays(names: seq<string>, s: State, commands: seq<string>, socket: Socket, now: State, responses: seq<Response>)
    requires Sized(names, s) && AllWellFormed(commands) && commands != [] && Overrun in responses
    requires InTurn(names, s, commands[..|commands| - 1], socket, now, responses)
    ensures InTurn(names, s, commands, socket, now, responses)
  {
    InTurnPrefix(names, s, commands, |commands| - 1, socket, now, responses);
  }

  lemma InTurnGrows(names: seq<string>, s: State, commands: seq<string>, socket: Socket, now: State, responses: seq<Response>)
    requires Sized(names, s) && AllWellFormed(commands) && commands != [] && Overrun !in responses
    requires InTurn(names, s, commands[..|commands| - 1], socket, now, responses)
    ensures Sized(names, now)
    ensures
      var last := commands[|commands| - 1];
      InTurn(names, s, commands, socket, Execute(names, now, last, socket), responses + [Answer(names, now, last)])
  {
    var m := |commands| - 1;
    InTurnPrefix(names, s, commands, m, socket, now, responses);
    assert |responses| == m && now == Executed(names, s, commands, m, socket);
  }

  lemma LastOverruns(responses: seq<Response>)
    requires forall k :: 0 <= k < |responses| - 1 ==> responses[k] != Overrun
    ensures Ended(responses) <==> Overrun in responses
  {
  }

  predicate AllWellFormed(commands: seq<string>) {
    forall k :: 0 <= k < |commands| ==> WellFormed(commands[k])
  }

  /** What is known of a batch before it is executed. */
  predicate Executable(buf: seq<char>, commands: seq<string>) {
    CommandsIn(buf) == Some(commands) && AllWellFormed(commands)
  }

  /** memset(receive_buffer, 0, size). */
  method Clear(buf: array<char>)
    modifies buf
    ensures buf[..] == Zeros(buf.Length)
  {
    for j := 0 to buf.Length
      invariant forall k :: 0 <= k < j ==> buf[k] == NUL
    {
      buf[j] := NUL;
    }
  }

  lemma FirstCommand(rest: seq<char>, commands: seq<string>)
    requires rest != [] && rest[0] == '#' && CommandsIn(rest) == Some(commands)
    ensures
      var n := NulIn(rest);
      && 0 < n < |rest| && commands != [] && commands[0] == rest[1..n]
      && rest[n + 1..] != [] && CommandsIn(rest[n + 1..]) == Some(commands[1..])
  {
  }

  lemma HoldsFrame(buf: seq<char>, i: nat)
    requires i < |buf| && buf[i] == '#' && NulIn(buf[i..]) < |buf| - i
    ensures 0 < NulIn(buf[i..]) && Holds(buf, i + 1, buf[i..][1..NulIn(buf[i..])])
  {
    var rest := buf[i..];
    assert forall j :: i <= j < |buf| ==> buf[j] == rest[j - i];
  }

  /** The next command in the buffer. */
  lemma NextCommandIs(buf: seq<char>, i: nat, commands: seq<string>, done: nat)
    requires i < |buf| && buf[i] == '#' && done <= |commands| && CommandsIn(buf[i..]) == Some(commands[done..])
    ensures done < |commands| && Holds(buf, i + 1, commands[done])
    ensures
      var next := i + NulIn(buf[i..]) + 1;
      next < |buf| && CommandsIn(buf[next..]) == Some(commands[done + 1..])
  {
    var rest := buf[i..];
    FirstCommand(rest, commands[done..]);
    HoldsFrame(buf, i);
    assert rest[NulIn(rest) + 1..] == buf[i + NulIn(rest) + 1..];
    assert commands[done..][1..] == commands[done + 1..];
  }

  /** What the first `done` commands have done. */
  ghost predicate Progress(names: seq<string>, was: State, commands: seq<string>, socket: Socket, done: nat,
                           now: State, responses: seq<Response>) {
    && Sized(names, was) && AllWellFormed(commands) && done <= |commands|
    && (now, responses) == ExecuteAll(names, was, commands[..done], socket)
  }

  lemma ProgressStep(names: seq<string>, was: State, commands: seq<string>, socket: Socket, done: nat,
                     now: State, responses: seq<Response>)
    requires Progress(names, was, commands, socket, done, now, responses) && done < |commands| && !Ended(responses)
    ensures Sized(names, now)
    ensures Progress(names, was, commands, socket, done + 1,
                     Execute(names, now, commands[done], socket), responses + [Answer(names, now, commands[done])])
  {
    assert commands[..done + 1][..done] == commands[..done];
  }

  /** The state of the loop at index `i`. */
  ghost predicate Midway(buf: seq<char>, commands: seq<string>, i: nat, done: nat) {
    i < |buf| && done <= |commands| && CommandsIn(buf[i..]) == Some(commands[done..])
  }

  method ExecuteOne(broker: Broker, buf: array<char>, i: nat, ghost was: State, ghost commands: seq<string>, socket: Socket,
                    ghost done: nat, responses: seq<Response>)
      returns (more: seq<Response>)
    requires broker.Valid() && Progress(broker.names, was, commands, socket, done, broker.Now(), responses)
    requires Midway(buf[..], commands, i, done) && buf[i] == '#' && !Ended(responses)
    modifies broker, broker.queues, broker.queueNodes`next, broker.lists, broker.listNodes`next
    ensures broker.queueNodes >= old(broker.queueNodes) && fresh(broker.queueNodes - old(broker.queueNodes))
    ensures broker.listNodes >= old(broker.listNodes) && fresh(broker.listNodes - old(broker.listNodes))
    ensures broker.Valid() && Progress(broker.names, was, commands, socket, done + 1, broker.Now(), more)
  {
    NextCommandIs(buf[..], i, commands, done);
    ProgressStep(broker.names, was, commands, socket, done, broker.Now(), responses);
    var response := broker.ExecuteCommand(buf, i + 1, commands[done], socket);
    more := responses + [response];
  }

  method SkipCommand(buf: array<char>, i: nat, ghost commands: seq<string>, ghost done: nat) returns (next: nat)
    requires Midway(buf[..], commands, i, done) && buf[i] == '#'
    ensures i < next && Midway(buf[..], commands, next, done + 1)
  {
    NextCommandIs(buf[..], i, commands, done);
    next := NextFrame(buf, i);
  }

  /** The loop with `done` commands executed: at index `i` in the buffer, or at the end of the process. */
  ghost predicate Executing(broker: Broker, buf: seq<char>, was: State, commands: seq<string>, socket: Socket,
                            i: nat, done: nat, responses: seq<Response>)
    reads broker, broker.queues, broker.queueNodes, broker.lists, broker.listNodes
  {
    && broker.Valid() && Progress(broker.names, was, commands, socket, done, broker.Now(), responses)
    && (Ended(responses) || Midway(buf, commands, i, done))
  }

  /** One turn of the loop. */
  method ExecuteNext(broker: Broker, buf: array<char>, i: nat, ghost was: State, ghost commands: seq<string>, socket: Socket,
                     ghost done: nat, responses: seq<Response>)
      returns (next: nat, more: seq<Response>)
    requires Executing(broker, buf[..], was, commands, socket, i, done, responses)
    requires !Ended(responses) && buf[i] == '#'
    modifies broker, broker.queues, broker.queueNodes`next, broker.lists, broker.listNodes`next
    ensures broker.queueNodes >= old(broker.queueNodes) && fresh(broker.queueNodes - old(broker.queueNodes))
    ensures broker.listNodes >= old(broker.listNodes) && fresh(broker.listNodes - old(broker.listNodes))
    ensures Executing(broker, buf[..], was, commands, socket, next, done + 1, more)
    ensures Ended(more) || i < next
  {
    next := i;
    more := ExecuteOne(broker, buf, i, was, commands, socket, done, responses);
    if !Ended(more) {
      next := SkipCommand(buf, i, commands, done);
    }
  }

  lemma ExecutingEnds(broker: Broker, buf: seq<char>, was: State, commands: seq<string>, socket: Socket,
                      i: nat, done: nat, responses: seq<Response>)
    requires Executing(broker, buf, was, commands, socket, i, done, responses)
    requires Ended(responses) || (i < |buf| && buf[i] != '#')
    ensures (broker.Now(), responses) == ExecuteAll(broker.names, was, commands, socket)
  {
    if Ended(responses) {
      EndedStays(broker.names, was, commands, done, socket);
    } else {
      assert commands[..done] == commands;
    }
  }

  lemma ExecutingStarts(broker: Broker, buf: seq<char>, commands: seq<string>, socket: Socket)
    requires broker.Valid() && Executable(buf, commands)
    ensures Executing(broker, buf, broker.Now(), commands, socket, 0, 0, [])
  {
    assert buf[0..] == buf;
  }

  /** The loop over the commands in the buffer. */
  method ExecuteCommands(broker: Broker, buf: array<char>, socket: Socket, ghost commands: seq<string>)
      returns (responses: seq<Response>)
    requires broker.Valid() && Executable(buf[..], commands)
    modifies broker, broker.queues, broker.queueNodes`next, broker.lists, broker.listNodes`next
    ensures broker.queueNodes >= old(broker.queueNodes) && fresh(broker.queueNodes - old(broker.queueNodes))
    ensures broker.listNodes >= old(broker.listNodes) && fresh(broker.listNodes - old(broker.listNodes))
    ensures broker.Valid() && (broker.Now(), responses) == ExecuteAll(broker.names, old(broker.Now()), commands, socket)
  {
    responses := [];
    var i: nat := 0;
    ghost var done, was, queueNodes, listNodes := 0, broker.Now(), broker.queueNodes, broker.listNodes;
    ExecutingStarts(broker, buf[..], commands, socket);
    while !Ended(responses) && buf[i] == '#'
      invariant Executing(broker, buf[..], was, commands, socket, i, done, responses)
      invariant broker.queueNodes >= queueNodes && fresh(broker.queueNodes - queueNodes)
      invariant broker.listNodes >= listNodes && fresh(broker.listNodes - listNodes)
      decreases !Ended(responses), buf.Length - i
    {
      i, responses := ExecuteNext(broker, buf, i, was, commands, socket, done, responses);
      done := done + 1;
    }
    ExecutingEnds(broker, buf[..], was, commands, socket, i, done, responses);
  }

  /** The inner loop over a received batch, and the clearing of the buffer after it. */
  method ExecuteBatch(broker: Broker, buf: array<char>, socket: Socket, ghost commands: seq<string>)
      returns (responses: seq<Response>)
    requires broker.Valid() && Executable(buf[..], commands)
    modifies buf, broker, broker.queues, broker.queueNodes`next, broker.lists, broker.listNodes`next
    ensures broker.queueNodes >= old(broker.queueNodes) && fresh(broker.queueNodes - old(broker.queueNodes))
    ensures broker.listNodes >= old(broker.listNodes) && fresh(broker.listNodes - old(broker.listNodes))
    ensures broker.Valid() && (broker.Now(), responses) == ExecuteAll(broker.names, old(broker.Now()), commands, socket)
    ensures InTurn(broker.names, old(broker.Now()), commands, socket, broker.Now(), responses)
    ensures Overrun !in responses ==> buf[..] == Zeros(buf.Length)
    ensures Ended(responses) <==> Overrun in responses
  {
    responses := ExecuteCommands(broker, buf, socket, commands);
    AllInTurn(broker.names, old(broker.Now()), commands, socket);
    if !Ended(responses) {
      Clear(buf);
    }
  }

  /** Goes to the index after the null character. */
  method NextFrame(buf: array<char>, i: nat) returns (next: nat)
    requires i <= buf.Length && NulIn(buf[..][i..]) < buf.Length - i
    ensures next == i + NulIn(buf[..][i..]) + 1
  {
    next := i;
    while buf[next] != NUL
      invariant i <= next <= i + NulIn(buf[..][i..]) && buf[next] == buf[..][i..][next - i]
      decreases i + NulIn(buf[..][i..]) - next
    {
      next := next + 1;
    }
    next := next + 1;
  }

  /** What the clients' encoders make of a list of requests. */
  function EncodedAll(requests: seq<Request>): seq<char> {
    if requests == [] then [] else Encoded(requests[0]) + EncodedAll(requests[1..])
  }

  predicate AllFaithful(requests: seq<Request>) {
    forall k :: 0 <= k < |requests| ==> Faithful(requests[k])
  }

  function CommandsOf(requests: seq<Request>): (commands: seq<string>)
    requires AllFaithful(requests)
    ensures |commands| == |requests|
    ensures forall k :: 0 <= k < |requests| ==> commands[k] == Command(requests[k])
  {
    seq(|requests|, k requires 0 <= k < |requests| => Command(requests[k]))
  }

  lemma {:induction false} EncodedIsWire(requests: seq<Request>)
    requires AllFaithful(requests)
    ensures EncodedAll(requests) == Wire(CommandsOf(requests))
    ensures AllWellFormed(CommandsOf(requests))
  {
    forall k | 0 <= k < |requests|
      ensures WellFormed(CommandsOf(requests)[k])
    {
      EncodedIsCommand(requests[k]);
    }
    if requests != [] {
      EncodedIsCommand(requests[0]);
      EncodedIsWire(requests[1..]);
      assert CommandsOf(requests)[1..] == CommandsOf(requests[1..]);
    }
  }

  /** The state after the first `n` requests, one after the other. */
  ghost function Served(names: seq<string>, s: State, requests: seq<Request>, n: nat, socket: Socket): (r: State)
    requires Sized(names, s) && AllFaithful(requests) && n <= |requests|
    ensures Sized(names, r)
  {
    if n == 0 then s else Serve(names, Served(names, s, requests, n - 1, socket), requests[n - 1], socket)
  }

  lemma {:induction false} ExecutedServes(names: seq<string>, s: State, requests: seq<Request>, n: nat, socket: Socket)
    requires Sized(names, s) && AllFaithful(requests) && AllWellFormed(CommandsOf(requests)) && n <= |requests|
    ensures Executed(names, s, CommandsOf(requests), n, socket) == Served(names, s, requests, n, socket)
  {
    if n > 0 {
      ExecutedServes(names, s, requests, n - 1, socket);
      ExecuteServes(names, Served(names, s, requests, n - 1, socket), requests[n - 1], socket);
    }
  }

  /** Each request is served in the state its predecessors leave and has its answer; all are, unless an
      answer overruns its buffer: then that is the last one. */
  ghost predicate ServedInTurn(names: seq<string>, s: State, requests: seq<Request>, socket: Socket,
                               now: State, responses: seq<Response>)
    requires Sized(names, s) && AllFaithful(requests)
  {
    && |responses| <= |requests| && now == Served(names, s, requests, |responses|, socket)
    && (forall k {:trigger responses[k]} :: 0 <= k < |responses| ==>
         responses[k] == Asked(names, Served(names, s, requests, k, socket), requests[k]))
    && (forall k :: 0 <= k < |responses| - 1 ==> responses[k] != Overrun)
    && (|responses| < |requests| ==> Overrun in responses)
  }

  lemma InTurnServes(names: seq<string>, s: State, requests: seq<Request>, socket: Socket, now: State, responses: seq<Response>)
    requires Sized(names, s) && AllFaithful(requests) && AllWellFormed(CommandsOf(requests))
    requires InTurn(names, s, CommandsOf(requests), socket, now, responses)
    ensures ServedInTurn(names, s, requests, socket, now, responses)
  {
    ExecutedServes(names, s, requests, |responses|, socket);
    forall k {:trigger responses[k]} | 0 <= k < |responses|
      ensures responses[k] == Asked(names, Served(names, s, requests, k, socket), requests[k])
    {
      ExecutedServes(names, s, requests, k, socket);
      ExecuteServes(names, Served(names, s, requests, k, socket), requests[k], socket);
    }
  }

  lemma BatchArrives(requests: seq<Request>, room: nat)
    requires 0 < room && AllFaithful(requests)
    ensures AllWellFormed(CommandsOf(requests)) && Executable(EncodedAll(requests) + Zeros(room), CommandsOf(requests))
  {
    EncodedIsWire(requests);
    BatchRecovered(CommandsOf(requests), room);
  }

  /** From the clients' encoders through the receive buffer to the topics: for requests whose encodings
      leave at least one byte of a zeroed buffer unused, executing the batch serves the requests, one
      after the other, all of them unless an answer overruns. */
  lemma BatchServes(names: seq<string>, s: State, requests: seq<Request>, room: nat, socket: Socket)
    requires Sized(names, s) && 0 < room && AllFaithful(requests)
    ensures
      var buf, commands := EncodedAll(requests) + Zeros(room), CommandsOf(requests);
      && Executable(buf, commands)
      && var r := ExecuteAll(names, s, commands, socket);
      && ServedInTurn(names, s, requests, socket, r.0, r.1)
      && (Overrun !in r.1 ==> |r.1| == |requests| && r.0 == Served(names, s, requests, |requests|, socket))
  {
    BatchArrives(requests, room);
    AllInTurn(names, s, CommandsOf(requests), socket);
    var r := ExecuteAll(names, s, CommandsOf(requests), socket);
    InTurnServes(names, s, requests, socket, r.0, r.1);
  }

  /** A request that the client's input buffers allow. */
  predicate Typed(r: Request) {
    Faithful(r) && |r.topic| <= 20 && (r.message.Some? ==> |r.message.value| <= 20)
  }

  lemma {:induction false} EncodedSize(requests: seq<Request>)
    requires forall k :: 0 <= k < |requests| ==> Typed(requests[k])
    ensures |EncodedAll(requests)| <= 45 * |requests|
  {
    if requests != [] {
      EncodedSize(requests[1..]);
    }
  }

  /** A hundred requests as the client can type them always fit the broker's buffer with a byte to
      spare, so a batch of them is executed as they say. */
  lemma HundredFit(names: seq<string>, s: State, requests: seq<Request>, socket: Socket)
    requires Sized(names, s) && |requests| <= 100 && forall k :: 0 <= k < |requests| ==> Typed(requests[k])
    ensures |EncodedAll(requests)| < 4600 == BROKER_RECEIVE_BUFFER_SIZE
    ensures
      var buf := EncodedAll(requests) + Zeros(BROKER_RECEIVE_BUFFER_SIZE - |EncodedAll(requests)|);
      && AllFaithful(requests) && Executable(buf, CommandsOf(requests))
      && var r := ExecuteAll(names, s, CommandsOf(requests), socket);
      && ServedInTurn(names, s, requests, socket, r.0, r.1)
      && (Overrun !in r.1 ==> |r.1| == |requests| && r.0 == Served(names, s, requests, |requests|, socket))
  {
    EncodedSize(requests);
    BatchServes(names, s, requests, BROKER_RECEIVE_BUFFER_SIZE - |EncodedAll(requests)|, socket);
  }

  /** recv into the buffer: what was sent arrives at its start. */
  method Receive(buf: array<char>, sent: seq<char>)
    requires |sent| <= buf.Length && buf[..] == Zeros(buf.Length)
    modifies buf
    ensures buf[..] == sent + Zeros(buf.Length - |sent|)
  {
    Write(buf, 0, sent);
  }

  method Arrive(buf: array<char>, requests: seq<Request>)
    requires buf[..] == Zeros(buf.Length) && |EncodedAll(requests)| < buf.Length && AllFaithful(requests)
    modifies buf
    ensures AllWellFormed(CommandsOf(requests)) && Executable(buf[..], CommandsOf(requests))
  {
    var sent := EncodedAll(requests);
    BatchArrives(requests, buf.Length - |sent|);
    Receive(buf, sent);
  }

  method ExecuteRequests(broker: Broker, buf: array<char>, requests: seq<Request>, socket: Socket, ghost was: State)
      returns (responses: seq<Response>)
    requires broker.Valid() && AllFaithful(requests) && Executable(buf[..], CommandsOf(requests)) && was == broker.Now()
    modifies buf, broker, broker.queues, broker.queueNodes`next, broker.lists, broker.listNodes`next
    ensures broker.queueNodes >= old(broker.queueNodes) && fresh(broker.queueNodes - old(broker.queueNodes))
    ensures broker.listNodes >= old(broker.listNodes) && fresh(broker.listNodes - old(broker.listNodes))
    ensures broker.Valid() && Sized(broker.names, was) && ServedInTurn(broker.names, was, requests, socket, broker.Now(), responses)
    ensures Overrun !in responses ==> buf[..] == Zeros(buf.Length)
  {
    responses := ExecuteBatch(broker, buf, socket, CommandsOf(requests));
    InTurnServes(broker.names, was, requests, socket, broker.Now(), responses);
  }

  method ServeBatch(broker: Broker, buf: array<char>, requests: seq<Request>, socket: Socket, ghost was: State)
      returns (responses: seq<Response>)
    requires broker.Valid() && buf[..] == Zeros(buf.Length) && |EncodedAll(requests)| < buf.Length && AllFaithful(requests)
    requires was == broker.Now()
    modifies buf, broker, broker.queues, broker.queueNodes`next, broker.lists, broker.listNodes`next
    ensures broker.queueNodes >= old(broker.queueNodes) && fresh(broker.queueNodes - old(broker.queueNodes))
    ensures broker.listNodes >= old(broker.listNodes) && fresh(broker.listNodes - old(broker.listNodes))
    ensures broker.Valid() && Sized(broker.names, was) && ServedInTurn(broker.names, was, requests, socket, broker.Now(), responses)
    ensures Overrun !in responses ==> buf[..] == Zeros(buf.Length)
  {
    Arrive(buf, requests);
    assert broker.Valid() && broker.Now() == was;
    responses := ExecuteRequests(broker, buf, requests, socket, was);
  }

  /** Receiving and executing requests: each is served and answered in the state its predecessors leave,
      up to the first answer that overruns its buffer; without one all are, and the cleared buffer is
      ready for the next batch. */
  method ReceiveAndExecute(broker: Broker, buf: array<char>, requests: seq<Request>, socket: Socket)
      returns (responses: seq<Response>)
    requires broker.Valid() && buf[..] == Zeros(buf.Length) && |EncodedAll(requests)| < buf.Length && AllFaithful(requests)
    modifies buf, broker, broker.queues, broker.queueNodes`next, broker.lists, broker.listNodes`next
    ensures broker.queueNodes >= old(broker.queueNodes) && fresh(broker.queueNodes - old(broker.queueNodes))
    ensures broker.listNodes >= old(broker.listNodes) && fresh(broker.listNodes - old(broker.listNodes))
    ensures broker.Valid() && |responses| <= |requests|
    ensures broker.Now() == Served(broker.names, old(broker.Now()), requests, |responses|, socket)
    ensures forall k {:trigger responses[k]} :: 0 <= k < |responses| ==>
              responses[k] == Asked(broker.names, Served(broker.names, old(broker.Now()), requests, k, socket), requests[k])
    ensures forall k :: 0 <= k < |responses| - 1 ==> responses[k] != Overrun
    ensures Overrun !in responses ==> |responses| == |requests| && buf[..] == Zeros(buf.Length)
  {
    responses := ServeBatch(broker, buf, requests, socket, broker.Now());
  }
}
