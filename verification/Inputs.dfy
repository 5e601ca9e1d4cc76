/** What a pass of the receive loop finds on the connections, and what it makes of it. */
module Inputs {
  import opened SocketList
  import opened CommandExecution
  import opened Batch
  import opened Subscriptions
  import opened Folds

  /** Commands that the decoders are made for. */
  type Orders = cs: seq<string> | AllWellFormed(cs)

  /** What `select` and `recv` find on a connection: nothing or an error, the end, or commands. */
  datatype Input = Quiet | Closing | Commands(commands: Orders)

  function InputOf(inputs: map<Socket, Input>, socket: Socket): Input {
    if socket in inputs then inputs[socket] else Quiet
  }

  /** The connections whose `recv` reports that the client has closed. */
  function Gone(inputs: map<Socket, Input>): set<Socket> {
    set s | s in inputs && inputs[s] == Closing
  }

  /** Commands that leave at least one byte of the buffer unused. */
  ghost predicate Fitting(inputs: map<Socket, Input>, size: nat) {
    forall s :: s in inputs && inputs[s].Commands? ==> |Wire(inputs[s].commands)| < size
  }

  /** What a pass has done: the state of the topics, what each connection was answered, and whether an
      answer overran its buffer, which ends the process. */
  datatype Outcome = Outcome(state: State, answers: seq<(Socket, Response)>, ended: bool)

  function Answered(socket: Socket, responses: seq<Response>): (answers: seq<(Socket, Response)>)
    ensures |answers| == |responses| && forall k :: 0 <= k < |responses| ==> answers[k] == (socket, responses[k])
  {
    seq(|responses|, k requires 0 <= k < |responses| => (socket, responses[k]))
  }

  /** One connection. */
  ghost function Visited(names: seq<string>, o: Outcome, socket: Socket, input: Input): (o': Outcome)
    requires Sized(names, o.state)
    ensures Sized(names, o'.state)
  {
    if o.ended then o
    else
      match input
      case Quiet => o
      case Closing => o.(state := Happen(names, o.state, Closed(socket)))
      case Commands(commands) =>
        var r := ExecuteAll(names, o.state, commands, socket);
        Outcome(r.0, o.answers + Answered(socket, r.1), Ended(r.1))
  }

  /** The first `k` connections, one after the other. */
  ghost function Passed(names: seq<string>, s: State, all: seq<Socket>, k: nat, inputs: map<Socket, Input>): (o: Outcome)
    requires Sized(names, s) && k <= |all|
    ensures Sized(names, o.state)
  {
    if k == 0 then Outcome(s, [], false)
    else Visited(names, Passed(names, s, all, k - 1, inputs), all[k - 1], InputOf(inputs, all[k - 1]))
  }

  /** What one connection brings: its commands in order, or its end. */
  function Brought(socket: Socket, input: Input): (events: seq<Event>)
    ensures Possible(events)
  {
    match input
    case Quiet => []
    case Closing => [Closed(socket)]
    case Commands(commands) => seq(|commands|, k requires 0 <= k < |commands| => Received(commands[k], socket))
  }

  /** What the first `k` connections bring, one connection after the other. */
  function EventsOf(all: seq<Socket>, k: nat, inputs: map<Socket, Input>): (events: seq<Event>)
    requires k <= |all|
    ensures Possible(events)
  {
    if k == 0 then [] else EventsOf(all, k - 1, inputs) + Brought(all[k - 1], InputOf(inputs, all[k - 1]))
  }

  /** One event, and what it is answered. */
  ghost function Happening(names: seq<string>): (State, Event) -> State {
    (s: State, e: Event) => if Sized(names, s) && (e.Received? ==> WellFormed(e.command)) then Happen(names, s, e) else s
  }

  ghost function Answering(names: seq<string>): (State, Event) -> seq<(Socket, Response)> {
    (s: State, e: Event) =>
      if Sized(names, s) && e.Received? && WellFormed(e.command) then [(e.socket, Answer(names, s, e.command))] else []
  }

  /** The state after the first `n` events. */
  ghost function Happened(names: seq<string>, s: State, events: seq<Event>, n: nat): State
    requires n <= |events|
  {
    Fold(Happening(names), s, events, n)
  }

  /** One answer for each command among the first `n` events, in order, to the connection it came from. */
  ghost function AnswersTo(names: seq<string>, s: State, events: seq<Event>, n: nat): seq<(Socket, Response)>
    requires n <= |events|
  {
    Outputs(Happening(names), Answering(names), s, events, n)
  }

  /** The commands of one connection, one after the other. */
  lemma {:induction false} CommandsHappen(names: seq<string>, s: State, socket: Socket, commands: Orders, n: nat)
    requires Sized(names, s) && n <= |commands|
    ensures Fold(Happening(names), s, Brought(socket, Commands(commands)), n) == Executed(names, s, commands, n, socket)
  {
    if n > 0 {
      CommandsHappen(names, s, socket, commands, n - 1);
    }
  }

  lemma AnswerAt(names: seq<string>, s: State, socket: Socket, commands: Orders, k: nat)
    requires Sized(names, s) && k < |commands|
    ensures
      var events := Brought(socket, Commands(commands));
      Answering(names)(Fold(Happening(names), s, events, k), events[k]) ==
        [(socket, Answer(names, Executed(names, s, commands, k, socket), commands[k]))]
  {
    CommandsHappen(names, s, socket, commands, k);
  }

  /** And their answers. */
  lemma CommandsAnswered(names: seq<string>, s: State, socket: Socket, commands: Orders, now: State, responses: seq<Response>)
    requires Sized(names, s) && InTurn(names, s, commands, socket, now, responses)
    ensures Upto(Happening(names), Answering(names), s, Brought(socket, Commands(commands)), |responses|, now,
                 Answered(socket, responses))
  {
    var events, answers := Brought(socket, Commands(commands)), Answered(socket, responses);
    forall k {:trigger answers[k]} | 0 <= k < |answers|
      ensures Answering(names)(Fold(Happening(names), s, events, k), events[k]) == [answers[k]]
    {
      AnswerAt(names, s, socket, commands, k);
      assert responses[k] == Answer(names, Executed(names, s, commands, k, socket), commands[k]);
    }
    OutputsAre(Happening(names), Answering(names), s, events, answers, |answers|);
    assert answers[..|answers|] == answers;
    CommandsHappen(names, s, socket, commands, |responses|);
  }

  /** A connection's events lead from one outcome to the next, all of them unless that ends the process. */
  ghost predicate Leads(step: (State, Event) -> State, out: (State, Event) -> seq<(Socket, Response)>,
                        o: Outcome, events: seq<Event>, o': Outcome) {
    if o.ended then o' == o
    else
      exists n: nat ::
        && n <= |events| && o'.state == Fold(step, o.state, events, n)
        && o'.answers == o.answers + Outputs(step, out, o.state, events, n)
        && (o'.ended || n == |events|)
  }

  lemma VisitLeads(names: seq<string>, o: Outcome, socket: Socket, input: Input)
    requires Sized(names, o.state)
    ensures Leads(Happening(names), Answering(names), o, Brought(socket, input), Visited(names, o, socket, input))
  {
    if !o.ended {
      match input
      case Quiet => assert Upto(Happening(names), Answering(names), o.state, [], 0, o.state, []);
      case Closing => CloseLeads(names, o, socket);
      case Commands(commands) => CommandsLead(names, o, socket, commands);
    }
  }

  lemma CloseLeads(names: seq<string>, o: Outcome, socket: Socket)
    requires Sized(names, o.state) && !o.ended
    ensures Leads(Happening(names), Answering(names), o, [Closed(socket)], Visited(names, o, socket, Closing))
  {
    var events := [Closed(socket)];
    assert Fold(Happening(names), o.state, events, 0) == o.state;
    assert Upto(Happening(names), Answering(names), o.state, events, 1, Happen(names, o.state, Closed(socket)), []);
  }

  lemma CommandsLead(names: seq<string>, o: Outcome, socket: Socket, commands: Orders)
    requires Sized(names, o.state) && !o.ended
    ensures Leads(Happening(names), Answering(names), o, Brought(socket, Commands(commands)),
                  Visited(names, o, socket, Commands(commands)))
  {
    var r := ExecuteAll(names, o.state, commands, socket);
    AllInTurn(names, o.state, commands, socket);
    CommandsAnswered(names, o.state, socket, commands, r.0, r.1);
    InTurnEnds(names, o.state, commands, socket, r.0, r.1);
  }

  /** Outcomes, each from the one before by the events of one connection. */
  ghost predicate LeadThrough(step: (State, Event) -> State, out: (State, Event) -> seq<(Socket, Response)>,
                              outcomes: seq<Outcome>, all: seq<Socket>, inputs: map<Socket, Input>) {
    && |outcomes| == |all| + 1 && outcomes[0].answers == [] && !outcomes[0].ended
    && forall j {:trigger all[j]} :: 0 <= j < |all| ==>
         Leads(step, out, outcomes[j], Brought(all[j], InputOf(inputs, all[j])), outcomes[j + 1])
  }

  lemma {:induction false} ChainLeads(step: (State, Event) -> State, out: (State, Event) -> seq<(Socket, Response)>,
                                      outcomes: seq<Outcome>, all: seq<Socket>, k: nat, inputs: map<Socket, Input>)
      returns (n: nat)
    requires LeadThrough(step, out, outcomes, all, inputs) && k <= |all|
    ensures Upto(step, out, outcomes[0].state, EventsOf(all, k, inputs), n, outcomes[k].state, outcomes[k].answers)
    ensures outcomes[k].ended || n == |EventsOf(all, k, inputs)|
  {
    if k == 0 {
      return 0;
    }
    n := ChainLeads(step, out, outcomes, all, k - 1, inputs);
    var brought := Brought(all[k - 1], InputOf(inputs, all[k - 1]));
    n := LeadsOn(step, out, outcomes[0].state, EventsOf(all, k - 1, inputs), n, outcomes[k - 1], brought, outcomes[k]);
  }

  lemma LeadsOn(step: (State, Event) -> State, out: (State, Event) -> seq<(Socket, Response)>,
                s: State, events: seq<Event>, n: nat, o: Outcome, brought: seq<Event>, o': Outcome)
      returns (n': nat)
    requires Upto(step, out, s, events, n, o.state, o.answers) && (o.ended || n == |events|) && Leads(step, out, o, brought, o')
    ensures Upto(step, out, s, events + brought, n', o'.state, o'.answers) && (o'.ended || n' == |events + brought|)
  {
    if o.ended {
      UptoPrefix(step, out, s, events, brought, n, o.state, o.answers);
      n' := n;
    } else {
      var m: nat :| && m <= |brought| && o'.state == Fold(step, o.state, brought, m)
                    && o'.answers == o.answers + Outputs(step, out, o.state, brought, m)
                    && (o'.ended || m == |brought|);
      UptoConcat(step, out, s, events, o.state, o.answers, brought, m, o'.state, Outputs(step, out, o.state, brought, m));
      n' := n + m;
    }
  }

  /** The events up to which a pass goes: all those of the connections, or, if an answer overruns, those
      up to its command. */
  lemma PassHappens(names: seq<string>, s: State, all: seq<Socket>, k: nat, inputs: map<Socket, Input>) returns (n: nat)
    requires Sized(names, s) && k <= |all|
    ensures
      var o := Passed(names, s, all, k, inputs);
      && Upto(Happening(names), Answering(names), s, EventsOf(all, k, inputs), n, o.state, o.answers)
      && (o.ended || n == |EventsOf(all, k, inputs)|)
  {
    var outcomes := seq(|all| + 1, j requires 0 <= j <= |all| => Passed(names, s, all, j, inputs));
    forall j {:trigger all[j]} | 0 <= j < |all|
      ensures Leads(Happening(names), Answering(names), outcomes[j], Brought(all[j], InputOf(inputs, all[j])), outcomes[j + 1])
    {
      VisitLeads(names, outcomes[j], all[j], InputOf(inputs, all[j]));
    }
    n := ChainLeads(Happening(names), Answering(names), outcomes, all, k, inputs);
  }

  /** No answer but the last overruns, and the last one does exactly when this ends the process. */
  ghost predicate Ending(answers: seq<(Socket, Response)>, ended: bool) {
    && (forall i :: 0 <= i < |answers| - 1 ==> answers[i].1 != Overrun)
    && (ended <==> answers != [] && answers[|answers| - 1].1 == Overrun)
  }

  /** The answers of one more connection. */
  lemma AnswersGrow(before: seq<(Socket, Response)>, socket: Socket, responses: seq<Response>)
    requires Ending(before, false) && forall k :: 0 <= k < |responses| - 1 ==> responses[k] != Overrun
    ensures Ending(before + Answered(socket, responses), Ended(responses))
  {
  }

  lemma InTurnEnds(names: seq<string>, s: State, commands: seq<string>, socket: Socket, now: State, responses: seq<Response>)
    requires Sized(names, s) && AllWellFormed(commands) && InTurn(names, s, commands, socket, now, responses)
    ensures Ended(responses) || |responses| == |commands|
    ensures forall k :: 0 <= k < |responses| - 1 ==> responses[k] != Overrun
  {
    LastOverruns(responses);
  }

  lemma VisitEnding(names: seq<string>, o: Outcome, socket: Socket, input: Input)
    requires Sized(names, o.state) && Ending(o.answers, o.ended)
    ensures var o' := Visited(names, o, socket, input); Ending(o'.answers, o'.ended)
  {
    if !o.ended && input.Commands? {
      var r := ExecuteAll(names, o.state, input.commands, socket);
      AllInTurn(names, o.state, input.commands, socket);
      InTurnEnds(names, o.state, input.commands, socket, r.0, r.1);
      AnswersGrow(o.answers, socket, r.1);
    }
  }

  lemma {:induction false} PassEnding(names: seq<string>, s: State, all: seq<Socket>, k: nat, inputs: map<Socket, Input>)
    requires Sized(names, s) && k <= |all|
    ensures var o := Passed(names, s, all, k, inputs); Ending(o.answers, o.ended)
  {
    if k > 0 {
      PassEnding(names, s, all, k - 1, inputs);
      VisitEnding(names, Passed(names, s, all, k - 1, inputs), all[k - 1], InputOf(inputs, all[k - 1]));
    }
  }

  /** The connections left over bring nothing before the end of the process. */
  lemma {:induction false} EventsPrefix(all: seq<Socket>, j: nat, k: nat, inputs: map<Socket, Input>)
    requires j <= k <= |all|
    ensures |EventsOf(all, j, inputs)| <= |EventsOf(all, k, inputs)|
    ensures EventsOf(all, k, inputs)[..|EventsOf(all, j, inputs)|] == EventsOf(all, j, inputs)
    decreases k - j
  {
    if j < k {
      EventsPrefix(all, j, k - 1, inputs);
    }
  }

  /** The same with the events of all connections. */
  lemma PassHappensInAll(names: seq<string>, s: State, all: seq<Socket>, k: nat, inputs: map<Socket, Input>) returns (n: nat)
    requires Sized(names, s) && k <= |all|
    ensures
      var o := Passed(names, s, all, k, inputs);
      && Upto(Happening(names), Answering(names), s, EventsOf(all, |all|, inputs), n, o.state, o.answers)
      && Ending(o.answers, o.ended) && (o.ended || n == |EventsOf(all, k, inputs)|)
  {
    n := PassHappens(names, s, all, k, inputs);
    PassEnding(names, s, all, k, inputs);
    var o, events, whole := Passed(names, s, all, k, inputs), EventsOf(all, k, inputs), EventsOf(all, |all|, inputs);
    EventsPrefix(all, k, |all|, inputs);
    var more := whole[|events|..];
    assert whole == events + more;
    UptoPrefix(Happening(names), Answering(names), s, events, more, n, o.state, o.answers);
  }
}
